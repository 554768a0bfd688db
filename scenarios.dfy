/**
 * Fixed draws and click sequences whose outcomes the verifier proves: the
 * randomized page's seven-question bank sampled down to five, and short
 * click sequences on the fixed quiz, the quiz page and the onboarding form.
 */
module Scenarios {
  import opened Questions
  import opened Shuffle
  import opened Sampler
  import FixedQuiz
  import QuizPage
  import Onboarding

  /** The bank of the randomized quiz page. */
  function PageBank(): (bank: seq<Question>)
  {
    [
      Question("What is the primary function of an activation function in a neural network?",
        ["To initialize weights", "To introduce non-linearity", "To calculate loss", "To update gradients"], 1),
      Question("Which dataset split is used to tune hyperparameters?",
        ["Training", "Validation", "Test", "Production"], 1),
      Question("What does backpropagation compute?",
        ["Prediction outputs", "Weight gradients", "Input normalization", "Data augmentation"], 1),
      Question("Which metric is best for imbalanced classification?",
        ["Accuracy", "F1 score", "MSE", "R-squared"], 1),
      Question("What is the goal of regularization?",
        ["Increase training error", "Reduce overfitting", "Expand dataset size", "Speed up inference"], 1),
      Question("Which optimizer adapts learning rates per parameter?",
        ["SGD", "Adam", "Batch Norm", "Dropout"], 1),
      Question("What does an epoch represent?",
        ["One forward pass", "One full pass over the dataset", "One layer update", "One gradient step only"], 1)
    ]
  }

  /** The draws of the scenario: one for the bank, one per kept question. */
  function BankDraws(): seq<nat> { [2, 5, 0, 3, 1, 0] }
  function OptionDraws(): seq<seq<nat>> { [[0, 0, 0], [3, 2, 1], [1, 1, 0], [2, 0, 1], [0, 2, 0]] }

  /** The questions the page shows with these draws, in order. */
  function Expected(): seq<Question>
  {
    [
      Question("What does an epoch represent?",
        ["One full pass over the dataset", "One layer update", "One gradient step only", "One forward pass"], 0),
      Question("What is the goal of regularization?",
        ["Increase training error", "Reduce overfitting", "Expand dataset size", "Speed up inference"], 1),
      Question("Which dataset split is used to tune hyperparameters?",
        ["Test", "Training", "Production", "Validation"], 3),
      Question("Which metric is best for imbalanced classification?",
        ["R-squared", "F1 score", "Accuracy", "MSE"], 1),
      Question("What is the primary function of an activation function in a neural network?",
        ["To introduce non-linearity", "To update gradients", "To calculate loss", "To initialize weights"], 0)
    ]
  }

  /** Three loop iterations: the shuffle of a four-element sequence. */
  lemma ShuffledFour<T>(s: seq<T>, d: seq<nat>)
    requires |s| == 4 && ValidChoices(4, d)
    ensures Shuffled(s, d) == Swap(Swap(Swap(s, 3, d[0]), 2, d[1]), 1, d[2])
  {
    var s1 := Swap(s, 3, d[0]);
    var s2 := Swap(s1, 2, d[1]);
    assert Steps(s, d, 3) == Steps(s1, d, 2) == Steps(s2, d, 1);
  }

  /** The bank draws move positions 6, 4, 1, 3 and 0 to the front. */
  lemma BankOrder()
    ensures ValidChoices(7, BankDraws())
    ensures Shuffled(Identity(7), BankDraws()) == [6, 4, 1, 3, 0, 5, 2]
  {
    var c := BankDraws();
    assert Identity(7) == [0, 1, 2, 3, 4, 5, 6];
    assert Swap([0, 1, 2, 3, 4, 5, 6], 6, 2) == [0, 1, 6, 3, 4, 5, 2];
    assert Swap([0, 1, 6, 3, 4, 5, 2], 5, 5) == [0, 1, 6, 3, 4, 5, 2];
    assert Swap([0, 1, 6, 3, 4, 5, 2], 4, 0) == [4, 1, 6, 3, 0, 5, 2];
    assert Swap([4, 1, 6, 3, 0, 5, 2], 3, 3) == [4, 1, 6, 3, 0, 5, 2];
    assert Swap([4, 1, 6, 3, 0, 5, 2], 2, 1) == [4, 6, 1, 3, 0, 5, 2];
    assert Swap([4, 6, 1, 3, 0, 5, 2], 1, 0) == [6, 4, 1, 3, 0, 5, 2];
    assert Steps([0, 1, 2, 3, 4, 5, 6], c, 6) == Steps([0, 1, 6, 3, 4, 5, 2], c, 5);
    assert Steps([0, 1, 6, 3, 4, 5, 2], c, 5) == Steps([0, 1, 6, 3, 4, 5, 2], c, 4);
    assert Steps([0, 1, 6, 3, 4, 5, 2], c, 4) == Steps([4, 1, 6, 3, 0, 5, 2], c, 3);
    assert Steps([4, 1, 6, 3, 0, 5, 2], c, 3) == Steps([4, 1, 6, 3, 0, 5, 2], c, 2);
    assert Steps([4, 1, 6, 3, 0, 5, 2], c, 2) == Steps([4, 6, 1, 3, 0, 5, 2], c, 1);
    assert Steps([4, 6, 1, 3, 0, 5, 2], c, 1) == Steps([6, 4, 1, 3, 0, 5, 2], c, 0);
  }

  /** So the page keeps bank entries 6, 4, 1, 3 and 0, in that order. */
  lemma ScenarioKept()
    ensures ValidChoices(7, BankDraws())
    ensures Sources(7, 5, BankDraws()) == [6, 4, 1, 3, 0]
    ensures Take(Shuffled(PageBank(), BankDraws()), 5) == Pick(PageBank(), [6, 4, 1, 3, 0])
  {
    BankOrder();
    ShuffledIsPick(PageBank(), BankDraws());
  }

  /** The option draws of the scenario, as arrangements of positions. */
  function OptionOrders(): seq<seq<nat>>
  {
    [[1, 2, 3, 0], [0, 1, 2, 3], [2, 0, 3, 1], [3, 1, 0, 2], [1, 3, 2, 0]]
  }

  lemma OptionOrder(k: nat)
    requires k < 5
    ensures ValidChoices(4, OptionDraws()[k])
    ensures Shuffled(Identity(4), OptionDraws()[k]) == OptionOrders()[k]
  {
    assert Identity(4) == [0, 1, 2, 3];
    ShuffledFour(Identity(4), OptionDraws()[k]);
  }

  /**
   * A presented question is pinned down by the arrangement its draws make
   * and by the first position of the correct text.
   */
  lemma PresentIs(item: Question, d: seq<nat>, order: seq<nat>, expected: Question)
    requires ValidChoices(|item.options|, d) && WellFormed(item)
    requires Shuffled(Identity(|item.options|), d) == order
    requires InRange(order, |item.options|)
    requires expected.prompt == item.prompt && expected.options == Pick(item.options, order)
    requires 0 <= expected.answer < |expected.options|
    requires expected.options[expected.answer] == item.options[item.answer]
    requires forall m :: 0 <= m < expected.answer ==> expected.options[m] != item.options[item.answer]
    ensures Present(item, d) == expected
  {
    ShuffledIsPick(item.options, d);
  }

  /** Each kept entry, with its own draws, becomes the expected question. */
  lemma ScenarioQuestion(k: nat)
    requires k < 5
    ensures ValidChoices(4, OptionDraws()[k])
    ensures Present(PageBank()[[6, 4, 1, 3, 0][k]], OptionDraws()[k]) == Expected()[k]
  {
    OptionOrder(k);
    var bank, orders, want := PageBank(), OptionOrders(), Expected();
    if k == 0 {
      PresentIs(bank[6], OptionDraws()[0], orders[0], want[0]);
    } else if k == 1 {
      PresentIs(bank[4], OptionDraws()[1], orders[1], want[1]);
    } else if k == 2 {
      PresentIs(bank[1], OptionDraws()[2], orders[2], want[2]);
    } else if k == 3 {
      PresentIs(bank[3], OptionDraws()[3], orders[3], want[3]);
    } else {
      PresentIs(bank[0], OptionDraws()[4], orders[4], want[4]);
    }
  }

  /**
   * With these draws the page shows bank entries 6, 4, 1, 3 and 0, in that
   * order, each with its options reordered and `answer` following the
   * correct text.
   */
  lemma FixedDrawsScenario()
    ensures SampleChoices(PageBank(), 5, BankDraws(), OptionDraws())
    ensures Sources(7, 5, BankDraws()) == [6, 4, 1, 3, 0]
    ensures Sample(PageBank(), 5, BankDraws(), OptionDraws()) == Expected()
  {
    ScenarioKept();
    var kept := Take(Shuffled(PageBank(), BankDraws()), 5);
    forall k | 0 <= k < 5
      ensures kept[k] == PageBank()[[6, 4, 1, 3, 0][k]]
      ensures ValidChoices(|kept[k].options|, OptionDraws()[k])
      ensures Present(kept[k], OptionDraws()[k]) == Expected()[k]
    {
      ScenarioQuestion(k);
    }
  }

  /** A one-question fixed quiz: next, pick, next, and the score. */
  method OneQuestionRun(pick: nat)
    requires pick < 3
  {
    var q := Question("Which metric is commonly used for classification?",
      ["Accuracy", "Mean squared error", "Word count"], 0);
    var quiz := new FixedQuiz.Session([q]);
    var outcome := quiz.Next();
    assert outcome == FixedQuiz.NeedsAnswer;
    quiz.Prev();
    assert quiz.currentIndex == 0 && quiz.selections[..] == [None];
    quiz.Select(pick);
    quiz.Select(pick);
    assert quiz.selections[..] == [Some(pick)];
    outcome := quiz.Next();
    assert outcome == FixedQuiz.Finished(if pick == 0 then 1 else 0);
    outcome := quiz.Next();
    assert outcome == FixedQuiz.Ignored;
  }

  /** Two questions on the page: the selection is cleared between them. */
  method TwoQuestionPageRun()
  {
    var bank := [
      Question("A?", ["x", "y"], 0),
      Question("B?", ["x", "y"], 1)
    ];
    assert Shuffled(bank, [0]) == [bank[1], bank[0]];
    assert Shuffled(["x", "y"], [1]) == ["x", "y"];
    var page := new QuizPage.Page(bank, 2, [0], [[1], [1]]);
    assert page.Percent() == 50;
    page.Select(1);
    var outcome := page.Next();
    assert outcome == QuizPage.Moved && page.selectedIndex == None;
    assert page.Percent() == 100;
    outcome := page.Next();
    assert outcome == QuizPage.NeedsAnswer;
    page.Select(0);
    outcome := page.Next();
    assert outcome == QuizPage.Done && page.currentIndex == 1;
  }

  /**
   * A three-step form: back at the start, a rejected step, then through;
   * and a form without steps, which completes on the first valid click.
   */
  method OnboardingRun()
  {
    var form := new Onboarding.Wizard(3);
    form.Back();
    assert form.currentStep == 0;
    var outcome := form.Next(false);
    assert outcome == Onboarding.Rejected && form.currentStep == 0;
    outcome := form.Next(true);
    outcome := form.Next(true);
    assert form.currentStep == 2;
    outcome := form.Next(true);
    assert outcome == Onboarding.Completed && form.currentStep == 2;
    var empty := new Onboarding.Wizard(0);
    outcome := empty.Next(true);
    assert outcome == Onboarding.Completed && empty.currentStep == 0;
  }
}
