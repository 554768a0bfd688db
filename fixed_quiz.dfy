/**
 * The demo quiz with a fixed question bank: the user moves back and forth
 * over the questions, picks one option per question, and the last "Next"
 * shows the score.
 */
module FixedQuiz {
  import opened Questions

  /**
   * `selections.reduce((total, answer, index) => total + (answer ===
   * questions[index].answer ? 1 : 0), 0)`, folded from the left.
   */
  function Score(questions: seq<Question>, selections: seq<Option<int>>): (score: nat)
    requires |selections| <= |questions|
    ensures score <= |selections|
    ensures score == |selections| <==> forall i :: 0 <= i < |selections| ==> selections[i] == Some(questions[i].answer)
    decreases |selections|
  {
    if |selections| == 0 then 0
    else
      var last := |selections| - 1;
      Score(questions, selections[..last]) + (if selections[last] == Some(questions[last].answer) then 1 else 0)
  }

  /** The question indices whose recorded selection is the correct answer. */
  function Matches(questions: seq<Question>, selections: seq<Option<int>>): (r: set<nat>)
    requires |selections| <= |questions|
  {
    set i: nat | i < |selections| && selections[i] == Some(questions[i].answer)
  }

  /** The score is the number of questions answered correctly. */
  lemma {:induction false} ScoreCountsMatches(questions: seq<Question>, selections: seq<Option<int>>)
    requires |selections| <= |questions|
    ensures Score(questions, selections) == |Matches(questions, selections)|
    decreases |selections|
  {
    if |selections| > 0 {
      var last := |selections| - 1;
      var prefix := selections[..last];
      ScoreCountsMatches(questions, prefix);
      var before := Matches(questions, prefix);
      if selections[last] == Some(questions[last].answer) {
        assert Matches(questions, selections) == before + {last};
        assert last !in before;
      } else {
        assert Matches(questions, selections) == before;
      }
    }
  }

  /** What a click on "Next" did. */
  datatype NextOutcome =
    | NeedsAnswer           // no option picked for this question yet
    | Moved                 // went on to the next question
    | Finished(score: nat)  // the last question was answered; the score is shown
    | Ignored               // the button was already disabled

  /** The state the closures of the fixed quiz share. */
  class Session {
    const questions: seq<Question>
    const selections: array<Option<int>>
    var currentIndex: nat
    var finished: bool

    /**
     * The index stays on a question, there is one selection slot per
     * question, and every recorded selection is one of that question's
     * option indices.
     */
    ghost predicate Valid()
      reads this, selections
    {
      && 0 < |questions|
      && selections.Length == |questions|
      && currentIndex < |questions|
      && forall i :: 0 <= i < selections.Length && selections[i].Some? ==>
           0 <= selections[i].value < |questions[i].options|
    }

    /** `currentIndex = 0` and `Array(questions.length).fill(null)`. */
    constructor(questions: seq<Question>)
      requires 0 < |questions|
      ensures Valid() && fresh(selections)
      ensures this.questions == questions
      ensures currentIndex == 0 && !finished
      ensures selections[..] == seq(|questions|, _ => None)
    {
      this.questions := questions;
      selections := new Option<int>[|questions|](_ => None);
      currentIndex := 0;
      finished := false;
    }

    /**
     * A click on option `index` of the question on screen: records it for
     * that question, overwriting any earlier pick. The option buttons exist
     * only until the quiz is finished.
     */
    method Select(index: int)
      requires Valid() && !finished
      requires 0 <= index < |questions[currentIndex].options|
      modifies selections
      ensures Valid()
      ensures selections[..] == old(selections[..])[currentIndex := Some(index)]
      ensures currentIndex == old(currentIndex) && finished == old(finished)
    {
      selections[currentIndex] := Some(index);
    }

    /** "Previous": back one question unless on the first one. */
    method Prev()
      requires Valid()
      modifies this
      ensures Valid()
      ensures currentIndex == if !finished && old(currentIndex) > 0 then old(currentIndex) - 1 else old(currentIndex)
      ensures finished == old(finished)
      ensures selections[..] == old(selections[..])
    {
      if !finished && currentIndex > 0 {
        currentIndex := currentIndex - 1;
      }
    }

    /**
     * "Next": refuses while the question on screen has no selection, moves
     * on while it is not the last question, and otherwise finishes with
     * the score.
     */
    method Next() returns (outcome: NextOutcome)
      requires Valid()
      modifies this
      ensures Valid()
      ensures selections[..] == old(selections[..])
      ensures old(finished) ==> outcome == Ignored && finished && currentIndex == old(currentIndex)
      ensures !old(finished) && selections[old(currentIndex)] == None ==>
        outcome == NeedsAnswer && !finished && currentIndex == old(currentIndex)
      ensures !old(finished) && selections[old(currentIndex)] != None && old(currentIndex) < |questions| - 1 ==>
        outcome == Moved && !finished && currentIndex == old(currentIndex) + 1
      ensures !old(finished) && selections[old(currentIndex)] != None && old(currentIndex) == |questions| - 1 ==>
        outcome == Finished(Score(questions, selections[..])) && finished && currentIndex == old(currentIndex)
    {
      if finished {
        return Ignored;
      }
      if selections[currentIndex] == None {
        return NeedsAnswer;
      }
      if currentIndex < |questions| - 1 {
        currentIndex := currentIndex + 1;
        return Moved;
      }
      finished := true;
      outcome := Finished(Score(questions, selections[..]));
    }
  }
}
