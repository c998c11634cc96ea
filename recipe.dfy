/**
 * Recipe 1 of the SRE training harness: it breaks the frontend by turning on
 * its currency-conversion delay, restores it by turning the delay off, and
 * quizzes the operator on which service broke and why.
 */
module Recipe {
  import opened Wrappers
  import opened Commands
  import opened Cluster
  import opened Terminal
  import opened Quiz

  class CurrenciesRecipe {
    /** The cluster-control collaborator the recipe shells out to. */
    const cluster: FakeCluster
    /** The operator's terminal. */
    const console: Console

    constructor (cluster: FakeCluster, console: Console)
      ensures this.cluster == cluster && this.console == console
    {
      this.cluster := cluster;
      this.console := console;
    }

    /**
     * `_deploy_state`: set the flag on the frontend deployment, ask for the
     * frontend pod's name and delete that pod. No output or error of any of
     * the three commands is checked.
     */
    method DeployState(state: bool)
      requires cluster.Valid()
      modifies cluster
      ensures cluster.Valid()
      ensures cluster.commands == old(cluster.commands) + DeployCommands(state, cluster.podListing)
      ensures cluster.convertCurrencies == state
    {
      var output := cluster.Run(SetEnvCommand(state));
      var service := cluster.Run(GetPodCommand);
      service := StripQuotes(service);
      OnlySetEnvSets(cluster.podListing);
      output := cluster.Run(DeletePodCommand(service));
    }

    /** `break_service`: announce it, then deploy the flag as on. */
    method BreakService()
      requires cluster.Valid()
      modifies cluster, console`output
      ensures cluster.Valid()
      ensures console.output == old(console.output) + [Deploying(true)]
      ensures cluster.commands == old(cluster.commands) + DeployCommands(true, cluster.podListing)
      ensures cluster.convertCurrencies
    {
      console.Say(Deploying(true));
      DeployState(true);
    }

    /** `restore_service`: announce it, then deploy the flag as off. */
    method RestoreService()
      requires cluster.Valid()
      modifies cluster, console`output
      ensures cluster.Valid()
      ensures console.output == old(console.output) + [Deploying(false)]
      ensures cluster.commands == old(cluster.commands) + DeployCommands(false, cluster.podListing)
      ensures !cluster.convertCurrencies
    {
      console.Say(Deploying(false));
      DeployState(false);
    }

    /**
     * Shared shape of `_verify_broken_service` and `_verify_broken_cause`: show
     * the question and read an answer, then while the answer is not accepted
     * say "Incorrect" and read another. Returns false when the script runs out
     * first (where Python's input() raises EOFError).
     */
    method AskUntilAccepted(q: Question) returns (accepted: bool)
      requires console.Valid()
      modifies console
      ensures console.Valid()
      ensures var r := AskRun(q, console.input[old(console.cursor)..]);
        accepted == r.passed &&
        console.cursor == old(console.cursor) + r.consumed &&
        console.output == old(console.output) + r.output
    {
      ghost var start := console.cursor;
      ghost var answers := console.input[start..];
      ghost var shown := old(console.output) + [q.text, AnswerPrompt];
      console.Say(q.text);
      var answer := console.ReadAnswer();
      ghost var rejected: nat := 0;
      while answer.Some? && answer.value !in q.accepted
        invariant console.Valid()
        invariant rejected <= |answers|
        invariant forall i :: 0 <= i < rejected ==> answers[i] !in q.accepted
        invariant answer.Some? ==>
          rejected < |answers| && answer.value == answers[rejected] && console.cursor == start + rejected + 1
        invariant answer.None? ==> rejected == |answers| && console.cursor == start + rejected
        invariant console.output == shown + Retries(rejected)
        decreases |answers| - rejected
      {
        console.Say(Incorrect);
        answer := console.ReadAnswer();
        assert (shown + Retries(rejected)) + ([Incorrect] + [AnswerPrompt])
          == ((shown + Retries(rejected)) + [Incorrect]) + [AnswerPrompt];
        assert shown + (Retries(rejected) + [Incorrect, AnswerPrompt])
          == (shown + Retries(rejected)) + [Incorrect, AnswerPrompt];
        rejected := rejected + 1;
      }
      RejectionsUnique(answers, q.accepted, rejected);
      assert old(console.output) + ([q.text, AnswerPrompt] + Retries(rejected))
        == (old(console.output) + [q.text, AnswerPrompt]) + Retries(rejected);
      if answer.None? {
        accepted := false;
      } else {
        console.Say(q.correct);
        assert old(console.output) + (([q.text, AnswerPrompt] + Retries(rejected)) + [q.correct])
          == (old(console.output) + ([q.text, AnswerPrompt] + Retries(rejected))) + [q.correct];
        accepted := true;
      }
    }

    /** `_verify_broken_service`: ask which service broke until "f" or "F". */
    method VerifyBrokenService() returns (accepted: bool)
      requires console.Valid()
      modifies console
      ensures console.Valid()
      ensures var r := AskRun(ServiceKey, console.input[old(console.cursor)..]);
        accepted == r.passed &&
        console.cursor == old(console.cursor) + r.consumed &&
        console.output == old(console.output) + r.output
    {
      accepted := AskUntilAccepted(ServiceKey);
    }

    /** `_verify_broken_cause`: ask what caused the breakage until "c" or "C". */
    method VerifyBrokenCause() returns (accepted: bool)
      requires console.Valid()
      modifies console
      ensures console.Valid()
      ensures var r := AskRun(CauseKey, console.input[old(console.cursor)..]);
        accepted == r.passed &&
        console.cursor == old(console.cursor) + r.consumed &&
        console.output == old(console.output) + r.output
    {
      accepted := AskUntilAccepted(CauseKey);
    }

    /**
     * `verify`: introduce the quiz, run the service question to completion,
     * then the cause question, then congratulate. Returns false when the
     * script runs out before both questions are answered.
     */
    method Verify() returns (completed: bool)
      requires console.Valid()
      modifies console
      ensures console.Valid()
      ensures var r := VerifyRun(console.input[old(console.cursor)..]);
        completed == r.passed &&
        console.cursor == old(console.cursor) + r.consumed &&
        console.output == old(console.output) + r.output
    {
      ghost var start := console.cursor;
      ghost var answers := console.input[start..];
      ghost var before := console.output;
      ghost var s := AskRun(ServiceKey, answers);
      console.Say(QuizIntro);
      completed := VerifyBrokenService();
      assert before + ([QuizIntro] + s.output) == (before + [QuizIntro]) + s.output;
      ghost var shown := [QuizIntro] + s.output;
      if completed {
        ghost var rest := answers[s.consumed..];
        ghost var c := AskRun(CauseKey, rest);
        assert console.input[console.cursor..] == rest;
        completed := VerifyBrokenCause();
        assert before + (shown + c.output) == (before + shown) + c.output;
        shown := shown + c.output;
        if completed {
          console.Say(Completed);
          assert before + (shown + [Completed]) == (before + shown) + [Completed];
          shown := shown + [Completed];
        }
      }
      assert VerifyRun(answers).output == shown;
    }
  }

  /**
   * A training session as the runner drives it: break, quiz, restore. From the
   * contracts alone the flag ends off, six commands are logged, and the
   * a, f, b, c script completes the quiz.
   */
  method Session(podListing: string)
  {
    var cluster := new FakeCluster(false, podListing);
    var console := new Console(["a", "f", "b", "c"]);
    var recipe := new CurrenciesRecipe(cluster, console);
    recipe.BreakService();
    assert cluster.convertCurrencies;
    var completed := recipe.Verify();
    ScenarioAFBC();
    assert completed && console.cursor == 4;
    recipe.RestoreService();
    assert !cluster.convertCurrencies;
    assert |cluster.commands| == 6;
  }
}
