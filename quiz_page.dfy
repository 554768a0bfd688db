/**
 * The randomized quiz page: a sample of the bank is drawn once, then the
 * user goes forward only, one question at a time, and must pick an option
 * before each "Next". A progress bar shows how far along the quiz is.
 */
module QuizPage {
  import opened Questions
  import opened Sampler

  /**
   * `Math.round(((index + 1) / count) * 100)` in integer arithmetic: the
   * nearest whole percent, halves rounded up.
   */
  function ProgressPercent(index: nat, count: nat): (p: nat)
    requires index < count
    ensures 2 * count * p <= 200 * (index + 1) + count < 2 * count * p + 2 * count
    ensures p <= 100
  {
    var scaled, twice := 200 * (index + 1) + count, 2 * count;
    DivisionBounds(scaled, twice);
    CancelFactor(twice, scaled / twice, 101);
    scaled / twice
  }

  /** Euclidean division brackets the dividend. */
  lemma DivisionBounds(a: nat, d: nat)
    requires 0 < d
    ensures d * (a / d) <= a < d * (a / d) + d
  {
  }

  /** The bar fills up as the user moves forward. */
  lemma PercentMonotone(index: nat, later: nat, count: nat)
    requires index <= later < count
    ensures ProgressPercent(index, count) <= ProgressPercent(later, count)
  {
    var p, q := ProgressPercent(index, count), ProgressPercent(later, count);
    assert 2 * count * p < 2 * count * (q + 1);
    CancelFactor(2 * count, p, q + 1);
  }

  /** A positive factor can be cancelled from a strict inequality. */
  lemma CancelFactor(c: nat, a: nat, b: nat)
    requires c * a < c * b
    ensures a < b
  {
  }

  /**
   * With fewer than 200 questions the bar reads 100% exactly on the last
   * question.
   */
  lemma PercentFullOnlyOnLast(index: nat, count: nat)
    requires index < count < 200
    ensures ProgressPercent(index, count) == 100 <==> index == count - 1
  {
  }

  /**
   * From 200 questions on, the next-to-last question already reads 100%, so
   * 200 is exactly where `PercentFullOnlyOnLast` stops holding.
   */
  lemma PercentFullBeforeLast(count: nat)
    requires 200 <= count
    ensures ProgressPercent(count - 2, count) == 100
  {
    var p := ProgressPercent(count - 2, count);
    assert 2 * count * 100 < 2 * count * (p + 1);
    CancelFactor(2 * count, 100, p + 1);
  }

  /** What a click on "Next" did. */
  datatype NextOutcome =
    | NeedsAnswer  // no option picked on this question
    | Moved        // went on to the next question
    | Done         // the last question was answered; the button now reads "Done"
    | Ignored      // the button was already disabled

  /** The state the closures of the quiz page share. */
  class Page {
    const questionCount: nat
    const questions: seq<Question>
    var currentIndex: nat
    var selectedIndex: Option<int>
    var done: bool

    /**
     * There are `questionCount` questions, the index stays on one of them,
     * and a selection is one of the current question's option indices.
     */
    ghost predicate Valid()
      reads this
    {
      && 0 < questionCount == |questions|
      && currentIndex < questionCount
      && (selectedIndex.Some? ==> 0 <= selectedIndex.value < |questions[currentIndex].options|)
    }

    /** The percentage the progress bar shows. */
    function Percent(): (p: nat)
      reads this
      requires Valid()
      ensures p <= 100
    {
      ProgressPercent(currentIndex, questionCount)
    }

    /**
     * Page set-up: the questions are drawn with `Sample`, the first is on
     * screen and the first render clears the selection.
     */
    constructor(bank: seq<Question>, questionCount: nat, bankChoices: seq<nat>, optionChoices: seq<seq<nat>>)
      requires 0 < questionCount <= |bank|
      requires SampleChoices(bank, questionCount, bankChoices, optionChoices)
      ensures Valid()
      ensures this.questionCount == questionCount
      ensures questions == Sample(bank, questionCount, bankChoices, optionChoices)
      ensures currentIndex == 0 && selectedIndex == None && !done
    {
      SampleDrawsDistinct(bank, questionCount, bankChoices, optionChoices);
      this.questionCount := questionCount;
      questions := Sample(bank, questionCount, bankChoices, optionChoices);
      currentIndex := 0;
      selectedIndex := None;
      done := false;
    }

    /**
     * The radio input for option `index` changes. The options stay on
     * screen after the quiz is done, so this is always possible.
     */
    method Select(index: int)
      requires Valid()
      requires 0 <= index < |questions[currentIndex].options|
      modifies this
      ensures Valid()
      ensures selectedIndex == Some(index)
      ensures currentIndex == old(currentIndex) && done == old(done)
    {
      selectedIndex := Some(index);
    }

    /**
     * "Next": ignored without a selection; moves on and re-renders (which
     * clears the selection) while not on the last question; on the last
     * question only marks the quiz done and disables the button.
     */
    method Next() returns (outcome: NextOutcome)
      requires Valid()
      modifies this
      ensures Valid()
      ensures old(done) ==>
        outcome == Ignored && done && currentIndex == old(currentIndex) && selectedIndex == old(selectedIndex)
      ensures !old(done) && old(selectedIndex) == None ==>
        outcome == NeedsAnswer && !done && currentIndex == old(currentIndex) && selectedIndex == None
      ensures !old(done) && old(selectedIndex) != None && old(currentIndex) < questionCount - 1 ==>
        outcome == Moved && !done && currentIndex == old(currentIndex) + 1 && selectedIndex == None
      ensures !old(done) && old(selectedIndex) != None && old(currentIndex) == questionCount - 1 ==>
        outcome == Done && done && currentIndex == old(currentIndex) && selectedIndex == old(selectedIndex)
    {
      if done {
        return Ignored;
      }
      if selectedIndex == None {
        return NeedsAnswer;
      }
      if currentIndex < questionCount - 1 {
        currentIndex := currentIndex + 1;
        selectedIndex := None;
        return Moved;
      }
      done := true;
      outcome := Done;
    }
  }
}
