/**
 * What the verification quiz does with a script of answers: each question is
 * asked once, and every rejected answer is met with "Incorrect" and a fresh
 * prompt for the same question, until an accepted answer arrives or the
 * script runs out.
 */
module Quiz {
  import opened Terminal

  /** A question of the answer key: how it is shown, what it accepts, and its confirmation. */
  datatype Question = Question(text: Message, accepted: set<string>, correct: Message)

  /** Which service broke? Only the exact lines "f" and "F" are accepted. */
  const ServiceKey: Question := Question(ServiceQuestion, {"f", "F"}, ServiceCorrect)

  /** What caused the breakage? Only the exact lines "c" and "C" are accepted. */
  const CauseKey: Question := Question(CauseQuestion, {"c", "C"}, CauseCorrect)

  /** The kind of lines a question run writes; none of them is Incorrect or a prompt. */
  ghost predicate WellFormed(q: Question)
  {
    q.text != Incorrect && q.text != AnswerPrompt && q.correct != Incorrect && q.correct != AnswerPrompt
  }

  /** How many answers at the front of `answers` are rejected before the first accepted one. */
  function Rejections(answers: seq<string>, accepted: set<string>): (n: nat)
    ensures n <= |answers|
    decreases answers
  {
    if answers == [] || answers[0] in accepted then 0
    else 1 + Rejections(answers[1..], accepted)
  }

  /** The first `n` answers are all rejected and, if there is one more, it is accepted. */
  lemma {:induction false} RejectionsMeaning(answers: seq<string>, accepted: set<string>)
    ensures var n := Rejections(answers, accepted);
      (forall i :: 0 <= i < n ==> answers[i] !in accepted) &&
      (n < |answers| ==> answers[n] in accepted)
    decreases answers
  {
    if answers != [] && answers[0] !in accepted {
      RejectionsMeaning(answers[1..], accepted);
      var n := Rejections(answers, accepted);
      forall i | 0 <= i < n
        ensures answers[i] !in accepted
      {
        if i > 0 {
          assert answers[i] == answers[1..][i - 1];
        }
      }
      if n < |answers| {
        assert answers[n] == answers[1..][n - 1];
      }
    }
  }

  /** The count of rejections is the only one with the properties above. */
  lemma {:induction false} RejectionsUnique(answers: seq<string>, accepted: set<string>, n: nat)
    requires n <= |answers|
    requires forall i :: 0 <= i < n ==> answers[i] !in accepted
    requires n < |answers| ==> answers[n] in accepted
    ensures Rejections(answers, accepted) == n
    decreases answers
  {
    if n > 0 {
      assert answers[0] !in accepted;
      assert forall i :: 0 <= i < n - 1 ==> answers[1..][i] == answers[i + 1];
      RejectionsUnique(answers[1..], accepted, n - 1);
    }
  }

  /** The lines written for `n` rejected answers: each gets "Incorrect" and a new prompt. */
  function Retries(n: nat): (out: seq<Message>)
    ensures |out| == 2 * n
  {
    if n == 0 then [] else Retries(n - 1) + [Incorrect, AnswerPrompt]
  }

  /** The retry lines alternate: "Incorrect" at even positions, a prompt at odd ones. */
  lemma {:induction false} RetriesAt(n: nat, i: nat)
    requires i < 2 * n
    ensures Retries(n)[i] == (if i % 2 == 0 then Incorrect else AnswerPrompt)
  {
    if i < 2 * (n - 1) {
      RetriesAt(n - 1, i);
    }
  }

  /** A run of part of the quiz: answers read, lines written, and whether it ended with success. */
  datatype Run = Run(consumed: nat, output: seq<Message>, passed: bool)

  /** One question asked against the remaining answers. */
  function AskRun(q: Question, answers: seq<string>): (r: Run)
    ensures r.consumed <= |answers|
    ensures |r.output| >= 2 && r.output[0] == q.text
    ensures r.output[|r.output| - 1] == (if r.passed then q.correct else AnswerPrompt)
  {
    var n := Rejections(answers, q.accepted);
    if n < |answers| then Run(n + 1, [q.text, AnswerPrompt] + Retries(n) + [q.correct], true)
    else Run(n, [q.text, AnswerPrompt] + Retries(n), false)
  }

  /**
   * A question passes exactly when some remaining answer is accepted; then it
   * has read up to and including the first accepted answer and no further,
   * otherwise it has read everything. Every answer it read before the last
   * one it read was rejected.
   */
  lemma AskRunMeaning(q: Question, answers: seq<string>)
    ensures var r := AskRun(q, answers);
      (r.passed <==> exists i :: 0 <= i < |answers| && answers[i] in q.accepted) &&
      (r.passed ==> r.consumed >= 1 && answers[r.consumed - 1] in q.accepted) &&
      (!r.passed ==> r.consumed == |answers|) &&
      (forall i :: 0 <= i < r.consumed && (r.passed ==> i < r.consumed - 1) ==> answers[i] !in q.accepted)
  {
    RejectionsMeaning(answers, q.accepted);
  }

  /**
   * The whole quiz from the runs of its two questions: the introduction, the
   * service question, and only if that passed the cause question, then the
   * closing lines if that passed too.
   */
  function Chain(service: Run, cause: Run): (r: Run)
    ensures |r.output| >= 1 && r.output[0] == QuizIntro
  {
    if !service.passed then Run(service.consumed, [QuizIntro] + service.output, false)
    else if !cause.passed then
      Run(service.consumed + cause.consumed, [QuizIntro] + service.output + cause.output, false)
    else Run(service.consumed + cause.consumed, [QuizIntro] + service.output + cause.output + [Completed], true)
  }

  /** The quiz against a script: the cause question starts where the service question stopped reading. */
  function VerifyRun(answers: seq<string>): (r: Run)
    ensures r.consumed <= |answers|
    ensures |r.output| >= 1 && r.output[0] == QuizIntro
  {
    var s := AskRun(ServiceKey, answers);
    Chain(s, AskRun(CauseKey, answers[s.consumed..]))
  }

  /** A quiz run ends with the closing lines exactly when it passes. */
  lemma VerifyEndsWithCompleted(answers: seq<string>)
    ensures VerifyRun(answers).passed <==> VerifyRun(answers).output[|VerifyRun(answers).output| - 1] == Completed
  {
  }

  /** Occurrences of `m` in `ms`. */
  function Count(ms: seq<Message>, m: Message): nat
  {
    if ms == [] then 0 else (if ms[0] == m then 1 else 0) + Count(ms[1..], m)
  }

  lemma {:induction false} CountConcat(a: seq<Message>, b: seq<Message>, m: Message)
    ensures Count(a + b, m) == Count(a, m) + Count(b, m)
  {
    if a == [] {
      assert a + b == b;
    } else {
      assert (a + b)[0] == a[0];
      assert (a + b)[1..] == a[1..] + b;
      CountConcat(a[1..], b, m);
    }
  }

  lemma CountSingle(x: Message, m: Message)
    ensures Count([x], m) == (if x == m then 1 else 0)
  {
    assert [x][1..] == [];
  }

  lemma {:induction false} CountRetries(n: nat, m: Message)
    ensures Count(Retries(n), m) == (if m == Incorrect || m == AnswerPrompt then n else 0)
  {
    if n > 0 {
      CountRetries(n - 1, m);
      CountSingle(Incorrect, m);
      CountSingle(AnswerPrompt, m);
      CountConcat([Incorrect], [AnswerPrompt], m);
      CountConcat(Retries(n - 1), [Incorrect, AnswerPrompt], m);
    }
  }

  /** Occurrences of one kind of line in a question run, piece by piece. */
  lemma AskRunCountOf(q: Question, answers: seq<string>, m: Message)
    ensures var r := AskRun(q, answers);
      Count(r.output, m) ==
        (if m == q.text then 1 else 0) + (if m == AnswerPrompt then 1 else 0)
        + (if m == Incorrect || m == AnswerPrompt then Rejections(answers, q.accepted) else 0)
        + (if r.passed && m == q.correct then 1 else 0)
  {
    var n := Rejections(answers, q.accepted);
    CountSingle(q.text, m);
    CountSingle(AnswerPrompt, m);
    CountSingle(q.correct, m);
    CountRetries(n, m);
    CountConcat([q.text], [AnswerPrompt], m);
    CountConcat([q.text, AnswerPrompt], Retries(n), m);
    CountConcat([q.text, AnswerPrompt] + Retries(n), [q.correct], m);
  }

  /**
   * A question is shown once; every rejected answer earns one "Incorrect" and
   * one more prompt (the question itself is not repeated); the confirmation
   * comes once, and only if an answer was accepted.
   */
  lemma AskRunCounts(q: Question, answers: seq<string>)
    requires WellFormed(q) && q.text != q.correct
    ensures var r := AskRun(q, answers); var n := Rejections(answers, q.accepted);
      Count(r.output, q.text) == 1 &&
      Count(r.output, Incorrect) == n &&
      Count(r.output, AnswerPrompt) == n + 1 &&
      Count(r.output, q.correct) == (if r.passed then 1 else 0)
  {
    AskRunCountOf(q, answers, q.text);
    AskRunCountOf(q, answers, Incorrect);
    AskRunCountOf(q, answers, AnswerPrompt);
    AskRunCountOf(q, answers, q.correct);
  }

  /** Every line of a question run is the question, a prompt, "Incorrect" or its confirmation. */
  lemma AskRunLines(q: Question, answers: seq<string>, i: nat)
    requires i < |AskRun(q, answers).output|
    ensures AskRun(q, answers).output[i] in {q.text, AnswerPrompt, Incorrect, q.correct}
  {
    var n := Rejections(answers, q.accepted);
    var out := AskRun(q, answers).output;
    if 2 <= i < 2 + 2 * n {
      assert out[i] == Retries(n)[i - 2];
      RetriesAt(n, i - 2);
    }
  }

  /**
   * The quiz succeeds exactly when some answer to the service question is
   * followed, later in the script, by an answer to the cause question.
   */
  lemma VerifyPassesIff(answers: seq<string>)
    ensures VerifyRun(answers).passed <==>
      exists i, j :: 0 <= i < j < |answers| && answers[i] in ServiceKey.accepted && answers[j] in CauseKey.accepted
  {
    var s := AskRun(ServiceKey, answers);
    AskRunMeaning(ServiceKey, answers);
    if VerifyRun(answers).passed {
      var c := AskRun(CauseKey, answers[s.consumed..]);
      AskRunMeaning(CauseKey, answers[s.consumed..]);
      var i, j := s.consumed - 1, s.consumed + c.consumed - 1;
      assert answers[s.consumed..][c.consumed - 1] == answers[j];
      assert 0 <= i < j < |answers| && answers[i] in ServiceKey.accepted && answers[j] in CauseKey.accepted;
    }
    if exists i, j :: 0 <= i < j < |answers| && answers[i] in ServiceKey.accepted && answers[j] in CauseKey.accepted {
      var i, j :| 0 <= i < j < |answers| && answers[i] in ServiceKey.accepted && answers[j] in CauseKey.accepted;
      assert s.passed;
      assert s.consumed - 1 <= i;
      var rest := answers[s.consumed..];
      AskRunMeaning(CauseKey, rest);
      assert rest[j - s.consumed] == answers[j];
      assert AskRun(CauseKey, rest).passed;
    }
  }

  /** The service question's own lines never include the cause question. */
  lemma ServiceRunHasNoCause(answers: seq<string>)
    ensures var o := AskRun(ServiceKey, answers).output;
      forall k :: 0 <= k < |o| ==> o[k] != CauseQuestion
  {
    var o := AskRun(ServiceKey, answers).output;
    forall k | 0 <= k < |o|
      ensures o[k] != CauseQuestion
    {
      AskRunLines(ServiceKey, answers, k);
    }
  }

  /** Ordering of a chained run, given only how each question's lines begin and end. */
  lemma ChainOrdering(service: Run, cause: Run)
    requires |service.output| >= 1 && |cause.output| >= 1 && cause.output[0] == CauseQuestion
    requires forall k :: 0 <= k < |service.output| ==> service.output[k] != CauseQuestion
    requires service.passed ==> service.output[|service.output| - 1] == ServiceCorrect
    ensures var out := Chain(service, cause).output; var n := |service.output|;
      (forall i :: 0 <= i < |out| && out[i] == CauseQuestion ==> service.passed && n < i) &&
      (service.passed ==> |out| > n + 1 && out[n] == ServiceCorrect && out[n + 1] == CauseQuestion)
  {
    var out := Chain(service, cause).output;
    var n := |service.output|;
    forall i | 0 <= i <= n && i < |out|
      ensures out[i] != CauseQuestion
    {
      if i > 0 {
        assert out[i] == service.output[i - 1];
      }
    }
    if service.passed {
      assert out[n] == service.output[n - 1];
      assert out[n + 1] == cause.output[0];
    }
  }

  /**
   * The cause question is only ever shown after the service question has been
   * confirmed: the confirmation is the line right after the service question's
   * lines, every cause-question line comes later, and the cause question is
   * shown exactly when the service question is answered.
   */
  lemma VerifyOrdering(answers: seq<string>)
    ensures var s := AskRun(ServiceKey, answers); var out := VerifyRun(answers).output; var n := |s.output|;
      (forall i :: 0 <= i < |out| && out[i] == CauseQuestion ==> s.passed && n < i) &&
      (s.passed ==> |out| > n + 1 && out[n] == ServiceCorrect && out[n + 1] == CauseQuestion)
    ensures CauseQuestion in VerifyRun(answers).output <==> AskRun(ServiceKey, answers).passed
  {
    var s := AskRun(ServiceKey, answers);
    ServiceRunHasNoCause(answers);
    ChainOrdering(s, AskRun(CauseKey, answers[s.consumed..]));
  }

  /** The script a, f, b, c: two rejections, both confirmations, all four lines read. */
  lemma ScenarioAFBC()
    ensures VerifyRun(["a", "f", "b", "c"]) ==
      Run(4, [QuizIntro,
              ServiceQuestion, AnswerPrompt, Incorrect, AnswerPrompt, ServiceCorrect,
              CauseQuestion, AnswerPrompt, Incorrect, AnswerPrompt, CauseCorrect,
              Completed], true)
  {
    var answers := ["a", "f", "b", "c"];
    ScenarioServiceStage();
    var s := AskRun(ServiceKey, answers);
    assert answers[2..] == ["b", "c"];
    ScenarioCauseStage();
    var c := AskRun(CauseKey, ["b", "c"]);
    var out := [QuizIntro] + s.output + c.output + [Completed];
    assert VerifyRun(answers) == Run(4, out, true);
  }

  /** Over the whole quiz, one "Incorrect" per rejected answer to whichever question was open. */
  lemma VerifyIncorrectCount(answers: seq<string>)
    ensures var s := AskRun(ServiceKey, answers);
      Count(VerifyRun(answers).output, Incorrect) ==
        Rejections(answers, ServiceKey.accepted)
        + (if s.passed then Rejections(answers[s.consumed..], CauseKey.accepted) else 0)
  {
    var s := AskRun(ServiceKey, answers);
    AskRunCountOf(ServiceKey, answers, Incorrect);
    CountSingle(QuizIntro, Incorrect);
    CountConcat([QuizIntro], s.output, Incorrect);
    if s.passed {
      var c := AskRun(CauseKey, answers[s.consumed..]);
      AskRunCountOf(CauseKey, answers[s.consumed..], Incorrect);
      CountSingle(Completed, Incorrect);
      CountConcat([QuizIntro] + s.output, c.output, Incorrect);
      CountConcat([QuizIntro] + s.output + c.output, [Completed], Incorrect);
    }
  }

  /** In the a, f, b, c script exactly two answers are met with "Incorrect". */
  lemma ScenarioIncorrectCount()
    ensures Count(VerifyRun(["a", "f", "b", "c"]).output, Incorrect) == 2
  {
    var answers := ["a", "f", "b", "c"];
    ScenarioServiceStage();
    assert answers[2..] == ["b", "c"];
    ScenarioCauseStage();
    VerifyIncorrectCount(answers);
  }

  /** The service stage of the a, f, b, c script: "a" rejected, "f" accepted, two lines read. */
  lemma ScenarioServiceStage()
    ensures Rejections(["a", "f", "b", "c"], ServiceKey.accepted) == 1
    ensures AskRun(ServiceKey, ["a", "f", "b", "c"]) ==
      Run(2, [ServiceQuestion, AnswerPrompt, Incorrect, AnswerPrompt, ServiceCorrect], true)
  {
    var answers := ["a", "f", "b", "c"];
    assert answers[0] !in ServiceKey.accepted && answers[1] in ServiceKey.accepted;
    RejectionsUnique(answers, ServiceKey.accepted, 1);
    assert Retries(1) == [Incorrect, AnswerPrompt];
  }

  /** The cause stage of the a, f, b, c script, on the rest b, c: "b" rejected, "c" accepted. */
  lemma ScenarioCauseStage()
    ensures Rejections(["b", "c"], CauseKey.accepted) == 1
    ensures AskRun(CauseKey, ["b", "c"]) ==
      Run(2, [CauseQuestion, AnswerPrompt, Incorrect, AnswerPrompt, CauseCorrect], true)
  {
    var answers := ["b", "c"];
    assert answers[0] !in CauseKey.accepted && answers[1] in CauseKey.accepted;
    RejectionsUnique(answers, CauseKey.accepted, 1);
    assert Retries(1) == [Incorrect, AnswerPrompt];
  }

  /** No trimming and no synonyms: near misses of "f" are each rejected. */
  lemma ServiceRejectsNearMisses()
    ensures var r := AskRun(ServiceKey, [" f", "", "frontend", "f "]);
      !r.passed && r.consumed == 4 && Count(r.output, Incorrect) == 4
  {
    var answers := [" f", "", "frontend", "f "];
    assert forall i :: 0 <= i < 4 ==> answers[i] !in ServiceKey.accepted;
    RejectionsUnique(answers, ServiceKey.accepted, 4);
    AskRunCountOf(ServiceKey, answers, Incorrect);
  }
}
