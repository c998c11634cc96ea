/**
 * An in-memory stand-in for the cluster-control collaborator that the recipe
 * shells out to. It records every command line it is given, keeps the one
 * piece of cluster state the recipe toggles (the CONVERT_CURRENCIES setting of
 * the frontend deployment) and answers the get-pod query with a scripted
 * listing.
 */
module Cluster {
  import opened Wrappers
  import opened Commands

  /** The value text of a set-env command line for CONVERT_CURRENCIES on the frontend. */
  function SetEnvValue(command: string): (v: Option<string>)
    ensures v.Some? <==> |command| >= |SetEnvPrefix| && command[..|SetEnvPrefix|] == SetEnvPrefix
    ensures v.Some? ==> command == SetEnvPrefix + v.value
  {
    if |command| >= |SetEnvPrefix| && command[..|SetEnvPrefix|] == SetEnvPrefix
    then
      assert command == command[..|SetEnvPrefix|] + command[|SetEnvPrefix|..];
      Some(command[|SetEnvPrefix|..])
    else None
  }

  /**
   * The fake's reaction to one command: a set-env command turns the flag on
   * exactly when its value text is "true"; every other command leaves it.
   */
  function Apply(flag: bool, command: string): (r: bool)
    ensures SetEnvValue(command).None? ==> r == flag
    ensures SetEnvValue(command) == Some(BoolText(true)) ==> r
    ensures SetEnvValue(command) == Some(BoolText(false)) ==> !r
  {
    match SetEnvValue(command)
    case Some(v) => v == "true"
    case None => flag
  }

  /** The flag after a whole log of commands, starting from `flag`. */
  function Replay(flag: bool, commands: seq<string>): (r: bool)
    ensures (forall i :: 0 <= i < |commands| ==> SetEnvValue(commands[i]).None?) ==> r == flag
    decreases commands
  {
    if commands == [] then flag else Replay(Apply(flag, commands[0]), commands[1..])
  }

  /** Replaying two logs one after the other is replaying their concatenation. */
  lemma {:induction false} ReplayConcat(flag: bool, a: seq<string>, b: seq<string>)
    ensures Replay(flag, a + b) == Replay(Replay(flag, a), b)
    decreases a
  {
    if a == [] {
      assert a + b == b;
    } else {
      assert (a + b)[0] == a[0];
      assert (a + b)[1..] == a[1..] + b;
      ReplayConcat(Apply(flag, a[0]), a[1..], b);
    }
  }

  /** What the fake prints on standard output for a command. */
  function Reply(podListing: string, command: string): (out: string)
    ensures command == GetPodCommand ==> out == podListing
  {
    if command == GetPodCommand then podListing else ""
  }

  /**
   * The three command lines `_deploy_state` issues, in order, when the get-pod
   * query prints `podListing`.
   */
  function DeployCommands(state: bool, podListing: string): (cs: seq<string>)
    ensures |cs| == 3
    ensures SetEnvValue(cs[0]) == Some(BoolText(state))
    ensures cs[1] == GetPodCommand
    ensures |cs[2]| >= |DeletePodPrefix| && cs[2][..|DeletePodPrefix|] == DeletePodPrefix
    ensures cs[2][|DeletePodPrefix|..] == StripQuotes(podListing)
  {
    [SetEnvCommand(state), GetPodCommand, DeletePodCommand(StripQuotes(podListing))]
  }

  /** The set-env command is the only one of the three that the fake reads as a setting. */
  lemma OnlySetEnvSets(podListing: string)
    ensures SetEnvValue(GetPodCommand).None?
    ensures SetEnvValue(DeletePodCommand(StripQuotes(podListing))).None?
  {
    var d := DeletePodCommand(StripQuotes(podListing));
    assert SetEnvPrefix[8] == 's';
    assert GetPodCommand[..|SetEnvPrefix|][8] == 'g';
    assert |d| >= |SetEnvPrefix| ==> d[..|SetEnvPrefix|][8] == 'd';
  }

  /** Whatever the flag was, deploying a state leaves the flag at that state. */
  lemma DeploySetsFlag(flag: bool, state: bool, podListing: string)
    ensures Replay(flag, DeployCommands(state, podListing)) == state
  {
    var cs := DeployCommands(state, podListing);
    OnlySetEnvSets(podListing);
    var f1 := Apply(flag, cs[0]);
    assert f1 == state;
    assert Replay(flag, cs) == Replay(f1, cs[1..]);
    assert Replay(f1, cs[1..]) == Replay(Apply(f1, cs[1]), cs[2..]);
    assert Replay(f1, cs[2..]) == Replay(Apply(f1, cs[2]), cs[3..]);
    assert cs[3..] == [];
  }

  /** Restoring after breaking returns the flag to off, whatever it was before. */
  lemma BreakRestoreRoundTrip(flag: bool, listing1: string, listing2: string)
    ensures Replay(flag, DeployCommands(true, listing1) + DeployCommands(false, listing2)) == false
  {
    ReplayConcat(flag, DeployCommands(true, listing1), DeployCommands(false, listing2));
    DeploySetsFlag(flag, true, listing1);
    DeploySetsFlag(true, false, listing2);
  }

  /** Deploying the same state twice leaves the flag as deploying it once does. */
  lemma DeployIdempotent(flag: bool, state: bool, listing1: string, listing2: string)
    ensures Replay(flag, DeployCommands(state, listing1) + DeployCommands(state, listing2))
         == Replay(flag, DeployCommands(state, listing1))
  {
    ReplayConcat(flag, DeployCommands(state, listing1), DeployCommands(state, listing2));
    DeploySetsFlag(flag, state, listing1);
    DeploySetsFlag(state, state, listing2);
  }

  /** Replaying a log that ends in one more command applies that command last. */
  lemma ReplaySnoc(flag: bool, commands: seq<string>, command: string)
    ensures Replay(flag, commands + [command]) == Apply(Replay(flag, commands), command)
  {
    ReplayConcat(flag, commands, [command]);
    assert [command][1..] == [];
  }

  /**
   * The fake cluster: the frontend's CONVERT_CURRENCIES flag and the log of
   * commands. The flag is always what replaying the log from the initial flag
   * gives.
   */
  class FakeCluster {
    var convertCurrencies: bool
    var commands: seq<string>
    /** What the get-pod query prints (scripted). */
    const podListing: string
    /** The flag before any command was received. */
    ghost const initial: bool

    ghost predicate Valid()
      reads this
    {
      convertCurrencies == Replay(initial, commands)
    }

    constructor (convertCurrencies: bool, podListing: string)
      ensures Valid()
      ensures this.convertCurrencies == convertCurrencies && initial == convertCurrencies
      ensures this.podListing == podListing
      ensures commands == []
    {
      this.convertCurrencies := convertCurrencies;
      this.podListing := podListing;
      initial := convertCurrencies;
      commands := [];
    }

    /**
     * `_run_command`: records the command line, applies it and returns what it
     * prints. Standard error is not captured by the source, so there is no
     * error value to return.
     */
    method Run(command: string) returns (output: string)
      requires Valid()
      modifies this
      ensures Valid()
      ensures commands == old(commands) + [command]
      ensures convertCurrencies == Apply(old(convertCurrencies), command)
      ensures output == Reply(podListing, command)
    {
      ReplaySnoc(initial, commands, command);
      commands := commands + [command];
      convertCurrencies := Apply(convertCurrencies, command);
      output := Reply(podListing, command);
    }
  }
}
