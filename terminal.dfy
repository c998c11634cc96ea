/**
 * The operator's console: a finite script of answer lines read through a
 * cursor, and the log of what the recipe writes. Only the kind of each line
 * written is kept, not its wording.
 */
module Terminal {
  import opened Wrappers

  datatype Message =
    | Deploying(broken: bool)  // "Deploying broken service..." or "Deploying working service..."
    | QuizIntro                // the two lines introducing the quiz
    | ServiceQuestion          // "Which service broke?" with its eleven options
    | CauseQuestion            // "What caused the breakage?" with its four options
    | AnswerPrompt             // the "Your answer: " prompt written by input()
    | Incorrect                // "Incorrect. Please try again."
    | ServiceCorrect           // "Correct! The frontend service is broken."
    | CauseCorrect             // "Correct! High latency caused the breakage."
    | Completed                // the two "Good job!" lines

  class Console {
    /** Every line the operator will type, in order. */
    const input: seq<string>
    /** How many of them have been read. */
    var cursor: nat
    var output: seq<Message>

    ghost predicate Valid()
      reads this
    {
      cursor <= |input|
    }

    constructor (input: seq<string>)
      ensures Valid()
      ensures this.input == input && cursor == 0 && output == []
    {
      this.input := input;
      cursor := 0;
      output := [];
    }

    /** `print`: one more line of the given kind. */
    method Say(m: Message)
      modifies this`output
      ensures output == old(output) + [m]
    {
      output := output + [m];
    }

    /**
     * `input('Your answer: ')`: writes the prompt, then takes the next line,
     * or `None` once the script is used up (where Python raises EOFError).
     */
    method ReadAnswer() returns (answer: Option<string>)
      requires Valid()
      modifies this
      ensures Valid()
      ensures output == old(output) + [AnswerPrompt]
      ensures old(cursor) < |input| ==> answer == Some(input[old(cursor)]) && cursor == old(cursor) + 1
      ensures old(cursor) == |input| ==> answer == None && cursor == old(cursor)
    {
      output := output + [AnswerPrompt];
      if cursor < |input| {
        answer := Some(input[cursor]);
        cursor := cursor + 1;
      } else {
        answer := None;
      }
    }
  }
}
