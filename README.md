# Learning App quiz and onboarding widgets, modelled in Dafny

The learning site's `script.js` attaches behaviour to a static page. This
project models the parts of it that hold state and logic:

- **Shuffle** (`shuffle.dfy`). The Fisher–Yates `shuffle` copies its input
  into a fresh array. It then swaps position `i` with a drawn position
  `j <= i`, for `i` from the last index down to 1. The random draws are an
  input: `choices[k]` is the `j` used when `i = n - 1 - k`. `Shuffled` is the
  specification function. The method `Shuffle` runs the loop over an array
  and is proved equal to it. The lemmas show that the result is a
  permutation, and that it is the input read at distinct positions.
- **Sampler** (`sampler.dfy`). The quiz page builds its questions as
  `shuffle(bank).slice(0, questionCount).map(...)`. Each kept question gets
  its options shuffled. Its `answer` becomes `indexOf` of the text that was
  correct in the bank entry.
- **Fixed quiz** (`fixed_quiz.dfy`). The demo quiz is a class holding
  `currentIndex`, a `selections` array (one `null`-or-index slot per
  question) and a `finished` flag. Its handlers are Select, Prev and Next.
  Next finishes with the `reduce` score.
- **Quiz page** (`quiz_page.dfy`). The randomized quiz is a class holding
  `currentIndex`, one `selectedIndex` and a `done` flag. Every render clears
  the selection. Next goes forward only. The progress percentage is
  modelled in integers.
- **Onboarding** (`onboarding.dfy`). The wizard's `currentStep` moves
  within the form's steps. The browser's validity check of a step is a
  boolean argument.
- **Questions** (`questions.dfy`). The shared question record and
  `indexOf`.
- **Scenarios** (`scenarios.dfy`). Fixed draws and click sequences whose
  outcomes the verifier proves. The page's seven-question bank is sampled
  down to five with fixed draws. Each widget gets a click sequence,
  including a right and a wrong answer on a one-question quiz and an
  onboarding form without steps.

Where a reader might expect otherwise, the model follows the code:

- The correct option is re-found by its text (`indexOf`), not by its
  position. With two options of the same text, `answer` is the first of
  them. `Sampler.PresentTracksCorrectPosition` shows that text matching and
  position tracking agree whenever the options are pairwise different, as
  they are in both banks.
- A `questionCount` larger than the bank does not fail. `slice` keeps the
  whole shuffled bank, and `Sample` does the same.
- The randomized quiz has no "Previous" and computes no score.
- An onboarding form without steps does not fail. `$$` then searches the
  whole document, and `0 < -1` is false, so a valid "Next" completes at once.
- No handler checks an option index. Only buttons for existing options
  exist, so `Select` requires a valid index.

Draws in `[0, i]` are all that `Math.floor(Math.random() * (i + 1))` can
yield. That is the only assumption made about the random source.

## Model

| member | source | states |
|---|---|---|
| `Questions.IndexOf` | script.js:334 | `indexOf`: -1 exactly when the text is absent, otherwise an index holding it with no earlier index holding it |
| `Shuffle.Shuffle` | script.js:319-326 | the array loop returns exactly `Shuffled(items, choices)`, of the same length and the same multiset as the input; the input is a value and stays as it was |
| `Shuffle.ShuffledPermutes` | script.js:319-326 | the shuffled sequence has the input's length and multiset (it is a permutation) |
| `Shuffle.ShuffledIsPick` | script.js:319-326 | shuffling moves whole elements: the result is the input read at `Shuffled(Identity(n))`, whose entries are distinct valid positions |
| `Sampler.Take` | script.js:329 | `slice(0, n)` keeps `min(n, length)` elements, and they are a prefix of the input |
| `Sampler.Present` | script.js:330-335 | one kept entry keeps its prompt and its number of options; its further properties are stated by `PresentKeepsCorrectText`, `PresentWithoutAnswer` and `PresentTracksCorrectPosition` |
| `Sampler.PresentKeepsCorrectText` | script.js:330-335 | a presented question keeps the prompt, its options are a permutation of the source options, `answer` is in range, names the originally correct text, and is the first index holding that text |
| `Sampler.PresentWithoutAnswer` | script.js:330-335 | a presented question has a correct option exactly when its bank entry has one; a source `answer` outside the options reads `undefined`, so the presented `answer` is -1 |
| `Sampler.PresentTracksCorrectPosition` | script.js:330-334 | with pairwise different options, `answer` is exactly where the shuffle moved the originally correct position |
| `Sampler.Sample` | script.js:329-336 | sampling yields `min(count, bank size)` questions; which entries they come from and what each keeps is stated by `SampleDrawsDistinct` and `SampleKeepsAnswers` |
| `Sampler.KeptArePicked` | script.js:329 | the kept prefix of the shuffled bank is the bank read at `Sources`, which are distinct valid bank positions |
| `Sampler.SampleDrawsDistinct` | script.js:328-336 | sampling yields `min(count, bank size)` questions; question `k` is built from bank entry `Sources[k]`; those entries are pairwise distinct; each keeps its prompt and its options up to order |
| `Sampler.SampleKeepsAnswers` | script.js:329-335 | from a well-formed bank, every sampled question's `answer` is in range and names the text that was correct in its bank entry |
| `FixedQuiz.Score` | script.js:212-216 | the `reduce` score is at most the number of questions, and equals it exactly when every selection is the correct answer |
| `FixedQuiz.ScoreCountsMatches` | script.js:213-215 | the score is the number of indices whose selection equals that question's `answer` |
| `FixedQuiz.Session.constructor` | script.js:182-183 | the quiz starts on question 0 with one empty (`null`) selection per question |
| `FixedQuiz.Session.Select` | script.js:201-204 | a click on option `index` sets `selections[currentIndex]` to it and changes no other slot and not `currentIndex`, so selecting the same option twice gives the same state as once |
| `FixedQuiz.Session.Prev` | script.js:220-225 | goes back one question only when `currentIndex > 0` and the quiz is not finished; selections are untouched |
| `FixedQuiz.Session.Next` | script.js:227-241 | does not move while the current selection is `null`; moves forward by exactly one below the last question; on the last question finishes with `Score` of the selections; ignored once finished; `currentIndex` stays in `[0, N)` |
| `QuizPage.ProgressPercent` | script.js:369 | the percentage is the nearest whole number to `100 * (index + 1) / count`, halves rounded up, and is at most 100 |
| `QuizPage.PercentMonotone` | script.js:369 | the percentage never decreases as the index grows |
| `QuizPage.PercentFullOnlyOnLast` | script.js:369 | with fewer than 200 questions the percentage is 100 exactly on the last question |
| `QuizPage.PercentFullBeforeLast` | script.js:369 | from 200 questions on, the next-to-last question already rounds to 100, so the bound in `PercentFullOnlyOnLast` is tight |
| `QuizPage.Page.Percent` | script.js:369-372 | the percentage shown for the current question is at most 100 |
| `QuizPage.Page.constructor` | script.js:328-339 | the page shows `Sample` of the bank, starts on question 0 with no selection and not done |
| `QuizPage.Page.Select` | script.js:354-355 | a change on option `index` sets `selectedIndex` to it and leaves `currentIndex` and `done` unchanged |
| `QuizPage.Page.Next` | script.js:376-385 | does not move without a selection; below the last question moves forward by exactly one and clears the selection (the render at line 345); on the last question only marks the quiz done; ignored once done |
| `Onboarding.Wizard.constructor` | script.js:44-49 | the wizard starts on step 0, for a form with any number of steps, none included |
| `Onboarding.Wizard.Back` | script.js:74-79 | goes back one step only when `currentStep > 0` |
| `Onboarding.Wizard.Next` | script.js:81-96 | an invalid step does not move; a valid step moves forward by exactly one below the last step, and on the last step completes without moving; with no steps a valid click completes; `currentStep` stays within the steps |
| `Scenarios.FixedDrawsScenario` | script.js:261-336 | with fixed draws, the seven-question bank yields bank entries 6, 4, 1, 3 and 0 with the listed option orders and answers |

## Left out

- The `$`/`$$` query helpers, the menu toggle, in-page screen navigation, form validation and the auth tabs. They only toggle classes and attributes.
- All rendering: building buttons, labels and text, "Next"/"Finish" labels, error messages and the score text. Only their effects on state are kept: the selection reset at line 345, and disabled buttons, which make later clicks no-ops.
- The browser's `checkValidity`/`validationMessage`. Whether a step's inputs are valid is the boolean argument of `Onboarding.Wizard.Next`.
- The 900 ms `setTimeout` redirect after the last onboarding step. `Completed` stands for it being scheduled.
- `Math.random`. Its draws are an input sequence, so the model says nothing about the probability distribution (uniformity) of the shuffle.
- Floating-point `Math.round` and division in the percentage. They are replaced by exact integer rounding. That agrees for the code's `questionCount` of 5. For other counts the floating-point quotient can fall just below a half, and `Math.round` then gives one less: question 23 of 40 shows 57, not 58. `PercentFullOnlyOnLast` and `PercentFullBeforeLast` are about the integer rounding.
- The hard-coded bank of the fixed quiz (lines 146-170). The page bank is used only as scenario data.
- `questionCount` is the constant 5 in the code. Here it is a parameter of `QuizPage.Page.constructor` and `Sampler.Sample`.
- QuizPage.Page.constructor: requires `questionCount <= |bank|`. With a smaller bank, the code would try to render a missing question.
- FixedQuiz.Session.Select: requires that the quiz is not finished. Finishing removes the option buttons, so no later click exists.
- Shuffle.Shuffle: returns the shuffled array's contents as a sequence. Inputs are values here, so the fact that the code returns a new array object, distinct from its input, has nothing to attach to.
