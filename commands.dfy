/**
 * The command lines that the currencies recipe hands to its cluster-control
 * collaborator, and the clean-up of the pod name it reads back.
 * Everything here is pure text manipulation.
 */
module Commands {

  /** Python's `str(b)` for a boolean. */
  function PyBoolStr(b: bool): string
  {
    if b then "True" else "False"
  }

  /** Lower-casing of ASCII letters, as `str.lower()` does on ASCII text. */
  function Lower(s: string): (r: string)
    ensures |r| == |s|
    ensures forall i :: 0 <= i < |s| ==> r[i] == (if 'A' <= s[i] <= 'Z' then s[i] - 'A' + 'a' else s[i])
  {
    if s == [] then []
    else [if 'A' <= s[0] <= 'Z' then s[0] - 'A' + 'a' else s[0]] + Lower(s[1..])
  }

  /** `str(state).lower()`: the boolean as the lowercase words "true" and "false". */
  function BoolText(state: bool): (r: string)
    ensures r == (if state then "true" else "false")
    ensures forall i :: 0 <= i < |r| ==> 'a' <= r[i] <= 'z'
  {
    var t := Lower(PyBoolStr(state));
    assert t == (if state then "true" else "false");
    t
  }

  /** Everything of the set-env command line that comes before the flag's value. */
  const SetEnvPrefix: string := "kubectl set env " + "deployment/frontend " + "CONVERT_CURRENCIES="

  /** Sets CONVERT_CURRENCIES on the frontend deployment to the given state. */
  function SetEnvCommand(state: bool): (r: string)
    ensures |r| > |SetEnvPrefix| && r[..|SetEnvPrefix|] == SetEnvPrefix
    ensures r[|SetEnvPrefix|..] == BoolText(state)
  {
    SetEnvPrefix + BoolText(state)
  }

  /**
   * Asks for the name of the first pod labelled app=frontend. The source writes
   * it as a triple-quoted string with a backslash-newline continuation, so the
   * text holds the next line's twelve spaces of indentation, and the quotes
   * around the jsonpath template are literal characters.
   */
  const GetPodCommand: string :=
    "kubectl get pod -l app=frontend -o " + "            " + "jsonpath=\"{.items[0].metadata.name}\""

  /** Text that a pod-deletion command starts with. */
  const DeletePodPrefix: string := "kubectl delete pod "

  /** Deletes the pod with the given name; an empty name is not special. */
  function DeletePodCommand(pod: string): (r: string)
    ensures |r| == |DeletePodPrefix| + |pod|
    ensures r[..|DeletePodPrefix|] == DeletePodPrefix && r[|DeletePodPrefix|..] == pod
  {
    DeletePodPrefix + pod
  }

  /** `s.replace('"', '')`: every double quote removed. */
  function StripQuotes(s: string): (r: string)
    ensures |r| <= |s|
    ensures forall i :: 0 <= i < |r| ==> r[i] != '"'
    ensures multiset(r)['"'] == 0
    ensures forall c :: c != '"' ==> multiset(r)[c] == multiset(s)[c]
  {
    if s == [] then []
    else
      assert s == [s[0]] + s[1..];
      if s[0] == '"' then StripQuotes(s[1..])
      else [s[0]] + StripQuotes(s[1..])
  }

  /** Removing quotes works piece by piece, so the other characters keep their order. */
  lemma {:induction false} StripQuotesConcat(a: string, b: string)
    ensures StripQuotes(a + b) == StripQuotes(a) + StripQuotes(b)
  {
    if a == [] {
      assert a + b == b;
    } else {
      assert (a + b)[0] == a[0];
      assert (a + b)[1..] == a[1..] + b;
      StripQuotesConcat(a[1..], b);
    }
  }

  /** A name without quotes comes through unchanged. */
  lemma {:induction false} StripQuotesKeepsPlainText(s: string)
    requires forall i :: 0 <= i < |s| ==> s[i] != '"'
    ensures StripQuotes(s) == s
  {
    if s != [] {
      StripQuotesKeepsPlainText(s[1..]);
    }
  }

  /** Stripping twice is stripping once. */
  lemma StripQuotesIdempotent(s: string)
    ensures StripQuotes(StripQuotes(s)) == StripQuotes(s)
  {
    StripQuotesKeepsPlainText(StripQuotes(s));
  }

  /** The listing kubectl prints for the jsonpath template: the name between quotes. */
  lemma StripQuotesOfQuotedName(name: string)
    requires forall i :: 0 <= i < |name| ==> name[i] != '"'
    ensures StripQuotes("\"" + name + "\"") == name
  {
    StripQuotesConcat("\"" + name, "\"");
    StripQuotesConcat("\"", name);
    StripQuotesKeepsPlainText(name);
  }

  /** With nothing read back, the recipe still issues `kubectl delete pod ` with an empty name. */
  lemma DeleteAfterEmptyListing()
    ensures DeletePodCommand(StripQuotes("")) == "kubectl delete pod "
  {
  }
}
