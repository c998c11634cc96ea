# Currencies recipe: fault toggle and diagnosis quiz

This project models recipe 1 of the cloud-ops sandbox's SRE training harness,
`CurrenciesRecipe`. It breaks the frontend service by switching on its
`CONVERT_CURRENCIES` setting, which makes currency conversion slow. It restores
the service by switching the setting off. It then quizzes the operator on
which service broke and why.

The model has two halves.

- **Fault toggle.** `_deploy_state` issues three command lines in a fixed
  order: set the flag on the frontend deployment, ask for the frontend pod's
  name, delete that pod. `break_service` and `restore_service` call it with
  `true` and `false`. The cluster is an in-memory fake (`Cluster.FakeCluster`).
  It holds the frontend's flag and a log of every command line it received, and
  it answers the get-pod query with a scripted listing. The pure functions
  `Cluster.Apply` and `Cluster.Replay` give the fake's meaning, and the lemmas
  about the flag are proved over them.
- **Quiz.** `verify` asks the service question and then the cause question.
  Each question is a loop that keeps reading lines until one is accepted. The
  operator's input is a finite script read through a cursor
  (`Terminal.Console`), and the console output is a log of message kinds.
  `Quiz.AskRun` and `Quiz.VerifyRun` are the pure specification of a run over a
  script. The methods in `Recipe.CurrenciesRecipe` are proved against them.

Modules: `Wrappers` (Option), `Commands` (command text, quote stripping),
`Cluster` (the fake collaborator), `Terminal` (the console), `Quiz` (the
answer key and the specification of the quiz), `Recipe` (the recipe class).
`Recipe.Session` is a client with no contract. It shows that
break, then the a/f/b/c quiz, then restore, can be reasoned about from the
method contracts alone.

Points of the code's behaviour that the model follows closely:

- Every command line is logged before it runs, but no command's result is
  checked and no failure is logged. Standard error is not captured, so the
  error value is always `None`, and the delete is issued whatever the get-pod
  query printed.
- Answer matching is exact whole-line comparison against the tuple
  `('f', 'F')` (or `('c', 'C')`). For one-letter answers that is the same as
  a case-insensitive match. Any other line is rejected, including a line with
  surrounding spaces.

## Model

| member | source | states |
|---|---|---|
| Commands.BoolText | sre-recipes/recipes/recipe_1/currencies_recipe.py:44 | `str(state).lower()` is "true" for true and "false" for false, all lowercase letters |
| Commands.SetEnvCommand | sre-recipes/recipes/recipe_1/currencies_recipe.py:45 | the set-env line targets `deployment/frontend`, and the text after `CONVERT_CURRENCIES=` is exactly the boolean's text |
| Commands.GetPodCommand | sre-recipes/recipes/recipe_1/currencies_recipe.py:46-47 | the get-pod line exactly as the triple-quoted literal gives it: the backslash-newline joins the two lines, the 12 spaces of indentation stay, and the quotes around the jsonpath template are literal characters |
| Commands.StripQuotes | sre-recipes/recipes/recipe_1/currencies_recipe.py:53 | the pod name has no `"` left, is no longer than the listing, and keeps every other character with its multiplicity |
| Commands.StripQuotesConcat | sre-recipes/recipes/recipe_1/currencies_recipe.py:53 | removing quotes works piece by piece, so the other characters keep their original order |
| Commands.StripQuotesKeepsPlainText | sre-recipes/recipes/recipe_1/currencies_recipe.py:53 | text without quotes is left unchanged |
| Commands.StripQuotesIdempotent | sre-recipes/recipes/recipe_1/currencies_recipe.py:53 | stripping twice gives the same as stripping once |
| Commands.StripQuotesOfQuotedName | sre-recipes/recipes/recipe_1/currencies_recipe.py:46-53 | the jsonpath template has literal quotes, so a listing `"name"` yields exactly `name` |
| Commands.DeletePodCommand | sre-recipes/recipes/recipe_1/currencies_recipe.py:54 | the delete line is `kubectl delete pod ` followed by exactly the name |
| Commands.DeleteAfterEmptyListing | sre-recipes/recipes/recipe_1/currencies_recipe.py:52-56 | an empty get-pod listing still produces the line `kubectl delete pod ` with an empty name |
| Cluster.SetEnvValue | sre-recipes/recipes/recipe_1/currencies_recipe.py:45 | a line is read as a flag setting if and only if it starts with the set-env prefix, and the value is the rest of the line |
| Cluster.Apply | sre-recipes/recipes/recipe_1/currencies_recipe.py:45-56 | the fake's meaning of one command line: a line that is not a set-env line leaves the flag, the set-env line for `true` turns it on and the one for `false` turns it off |
| Cluster.Replay | sre-recipes/recipes/recipe_1/currencies_recipe.py:51-56 | the flag after a whole log of command lines; a log with no set-env line leaves the flag as it was |
| Cluster.ReplayConcat | sre-recipes/recipes/recipe_1/currencies_recipe.py:51-56 | the fake's effect of two command logs in a row equals the effect of the two logs joined |
| Cluster.ReplaySnoc | sre-recipes/recipes/recipe_1/currencies_recipe.py:51-56 | one more command line at the end of the log is applied to the flag the earlier log left |
| Cluster.Reply | sre-recipes/recipes/recipe_1/currencies_recipe.py:32-36 | the get-pod query prints the scripted listing |
| Cluster.DeployCommands | sre-recipes/recipes/recipe_1/currencies_recipe.py:44-56 | exactly three lines, in order: set-env carrying the state's text, get-pod, then delete of the quote-stripped listing |
| Cluster.OnlySetEnvSets | sre-recipes/recipes/recipe_1/currencies_recipe.py:46-54 | the get-pod and delete lines are never read as flag settings |
| Cluster.DeploySetsFlag | sre-recipes/recipes/recipe_1/currencies_recipe.py:39-56 | after the three lines the flag equals the deployed state, whatever it was before and whatever the listing |
| Cluster.BreakRestoreRoundTrip | sre-recipes/recipes/recipe_1/currencies_recipe.py:58-74 | restore after break leaves the flag off, from any starting flag and any listings |
| Cluster.DeployIdempotent | sre-recipes/recipes/recipe_1/currencies_recipe.py:58-65 | deploying the same state twice (e.g. break twice) leaves the same flag as deploying it once |
| Cluster.FakeCluster.Run | sre-recipes/recipes/recipe_1/currencies_recipe.py:32-36 | `_run_command`: appends the line to the log, applies it to the flag, returns the fake's reply, and keeps the flag equal to the replay of the whole log from the initial flag |
| Terminal.Console.ReadAnswer | sre-recipes/recipes/recipe_1/currencies_recipe.py:77-80 | writes the prompt, then returns the next script line and advances the cursor by one, or returns no line at the end of the script |
| Terminal.Console.Say | sre-recipes/recipes/recipe_1/currencies_recipe.py:119 | a `print` appends exactly one line of the given kind |
| Quiz.ServiceKey | sre-recipes/recipes/recipe_1/currencies_recipe.py:118 | the service question accepts exactly the lines "f" and "F" and is confirmed with the frontend message |
| Quiz.CauseKey | sre-recipes/recipes/recipe_1/currencies_recipe.py:126 | the cause question accepts exactly the lines "c" and "C" and is confirmed with the high-latency message |
| Quiz.Rejections | sre-recipes/recipes/recipe_1/currencies_recipe.py:118-120 | the count of leading rejected answers never exceeds the script's length |
| Quiz.RejectionsMeaning | sre-recipes/recipes/recipe_1/currencies_recipe.py:118-120 | the first `n` answers are all rejected, and the answer right after them, if any, is accepted |
| Quiz.RejectionsUnique | sre-recipes/recipes/recipe_1/currencies_recipe.py:118-120 | any `n` with those two properties is the rejection count |
| Quiz.Retries | sre-recipes/recipes/recipe_1/currencies_recipe.py:119-120 | each rejected answer adds exactly two lines to the output, "Incorrect" and a new prompt |
| Quiz.RetriesAt | sre-recipes/recipes/recipe_1/currencies_recipe.py:119-120 | after the first prompt the lines alternate "Incorrect", prompt, "Incorrect", prompt… |
| Quiz.AskRun | sre-recipes/recipes/recipe_1/currencies_recipe.py:115-129 | a question run reads no more than the script, starts with the question, and ends with the confirmation if it passed or with a prompt (end of input) if not |
| Quiz.AskRunMeaning | sre-recipes/recipes/recipe_1/currencies_recipe.py:117-121 | a question passes if and only if some remaining answer is accepted. It then stops right after the first accepted answer, with every earlier one rejected. Otherwise it reads everything |
| Quiz.AskRunCountOf | sre-recipes/recipes/recipe_1/currencies_recipe.py:117-121 | how many lines of each kind a question run writes, in terms of the rejection count |
| Quiz.AskRunCounts | sre-recipes/recipes/recipe_1/currencies_recipe.py:117-129 | the question is shown once. There is one "Incorrect" per rejected answer and one prompt per read. The confirmation appears once if passed, otherwise never |
| Quiz.AskRunLines | sre-recipes/recipes/recipe_1/currencies_recipe.py:115-129 | a question run writes only its question, prompts, "Incorrect" and its confirmation |
| Quiz.Chain | sre-recipes/recipes/recipe_1/currencies_recipe.py:133-138 | the quiz is built from its two question runs and always starts with the introduction; the cause run and the closing lines are added only after a pass |
| Quiz.VerifyRun | sre-recipes/recipes/recipe_1/currencies_recipe.py:131-138 | the quiz never reads beyond the script and starts with the introduction |
| Quiz.VerifyEndsWithCompleted | sre-recipes/recipes/recipe_1/currencies_recipe.py:137-138 | the quiz ends with the closing lines if and only if it passes |
| Quiz.VerifyPassesIff | sre-recipes/recipes/recipe_1/currencies_recipe.py:131-138 | the quiz passes if and only if some accepted service answer is followed later by an accepted cause answer, so a correct prefix followed only by wrong answers never passes |
| Quiz.ServiceRunHasNoCause | sre-recipes/recipes/recipe_1/currencies_recipe.py:115-121 | the service question's lines never include the cause question |
| Quiz.ChainOrdering | sre-recipes/recipes/recipe_1/currencies_recipe.py:135-136 | in a chained run every cause-question line comes after the service confirmation, and it is shown only if the service question passed |
| Quiz.VerifyOrdering | sre-recipes/recipes/recipe_1/currencies_recipe.py:135-136 | the service question runs to its confirmation before the cause question starts, and the cause question appears if and only if the service question was answered |
| Quiz.VerifyIncorrectCount | sre-recipes/recipes/recipe_1/currencies_recipe.py:117-128 | over the whole quiz there is one "Incorrect" per rejected answer to whichever question was open |
| Quiz.ScenarioAFBC | sre-recipes/recipes/recipe_1/currencies_recipe.py:117-138 | the script a, f, b, c is read completely (4 lines) and passes, with the exact transcript: "Incorrect" after "a" and after "b", then both confirmations and the closing lines |
| Quiz.ScenarioIncorrectCount | sre-recipes/recipes/recipe_1/currencies_recipe.py:117-128 | the script a, f, b, c gets exactly two "Incorrect" lines |
| Quiz.ScenarioServiceStage | sre-recipes/recipes/recipe_1/currencies_recipe.py:115-121 | for a, f, b, c the service question rejects "a", accepts "f" and reads two lines |
| Quiz.ScenarioCauseStage | sre-recipes/recipes/recipe_1/currencies_recipe.py:123-129 | for the rest b, c the cause question rejects "b", accepts "c" and reads two lines |
| Quiz.ServiceRejectsNearMisses | sre-recipes/recipes/recipe_1/currencies_recipe.py:118 | no trimming and no synonyms: " f", "", "frontend" and "f " are each rejected, with one "Incorrect" each |
| Recipe.CurrenciesRecipe.DeployState | sre-recipes/recipes/recipe_1/currencies_recipe.py:39-56 | the cluster's log grows by exactly the three lines of `DeployCommands`, the flag equals the state, and it is still the replay of the whole log |
| Recipe.CurrenciesRecipe.BreakService | sre-recipes/recipes/recipe_1/currencies_recipe.py:58-65 | announces the broken deployment, issues the three lines for `true`, and leaves the flag on |
| Recipe.CurrenciesRecipe.RestoreService | sre-recipes/recipes/recipe_1/currencies_recipe.py:67-74 | announces the working deployment, issues the three lines for `false`, and leaves the flag off |
| Recipe.CurrenciesRecipe.AskUntilAccepted | sre-recipes/recipes/recipe_1/currencies_recipe.py:115-129 | the re-reading loop reads, writes and returns exactly what `AskRun` specifies for the remaining script |
| Recipe.CurrenciesRecipe.VerifyBrokenService | sre-recipes/recipes/recipe_1/currencies_recipe.py:115-121 | the service question with the key {"f", "F"}, as `AskRun` specifies |
| Recipe.CurrenciesRecipe.VerifyBrokenCause | sre-recipes/recipes/recipe_1/currencies_recipe.py:123-129 | the cause question with the key {"c", "C"}, as `AskRun` specifies |
| Recipe.CurrenciesRecipe.Verify | sre-recipes/recipes/recipe_1/currencies_recipe.py:131-138 | the whole quiz reads, writes and returns exactly what `VerifyRun` specifies for the remaining script |

## Left out

- `_run_command` runs a real process (`subprocess.Popen`). It is replaced by `Cluster.FakeCluster.Run`, which records the line, applies it to the flag and returns a scripted reply. Splitting the line into argv (`command.split()`) and the process's exit status are not modelled. The source reads neither.
- The decoding of the get-pod output from UTF-8 bytes is not modelled. The listing is a string already, so a decoding error cannot arise in the model.
- Real orchestration behaviour is left out: the env change reaching pods, rescheduling after the delete, and jsonpath evaluation. For the fake, the flag is on exactly when the set-env value text is "true". The pod listing is fixed, so a rescheduled pod keeps the same scripted name.
- A collaborator command that starts and exits non-zero is not modelled separately. The source ignores every command's result, so a failed delete or set-env of that kind would change nothing in the recipe's behaviour or output.
- A command that cannot be launched is not modelled. There `subprocess.Popen` raises `OSError`, which leaves `_deploy_state` and aborts `break_service` or `restore_service` before the remaining commands run. `Cluster.FakeCluster.Run` always returns.
- A command that never exits is not modelled. `communicate()` has no timeout, so the recipe would block forever.
- Standard error passing through to the operator's terminal is not modelled. It is not piped, so kubectl's error text appears there and not in the console log.
- `logging.info` calls, and the exact wording of prompts and option lists, are left out. The console log keeps one message kind per `print` group (the two-line introduction and closing are one kind each) and one prompt per `input()`.
- `input()` on an interactive terminal is replaced by a finite script of lines. Where Python raises EOFError at the end of input, the model writes the prompt, reads nothing, and the quiz methods return false. An endless stream of wrong answers cannot be written as a finite script, so non-termination is not modelled.
- Python's `str.lower()` handles all of Unicode; `Commands.Lower` lowercases ASCII letters only, which covers the only inputs it gets ("True" and "False").
- The `Recipe` base class, the runner that picks a recipe, and the load-generator integration test are not part of this model.
