/**
 * How the randomized quiz page builds its questions: shuffle the bank, keep
 * the first `questionCount` entries, shuffle each kept question's options and
 * point `answer` at the new position of the correct option's text.
 */
module Sampler {
  import opened Questions
  import opened Shuffle

  /** `array.slice(0, n)` for a non-negative `n`. */
  function Take<T>(s: seq<T>, n: nat): (r: seq<T>)
    ensures |r| == (if n <= |s| then n else |s|)
    ensures r == s[..|r|]
  {
    if n <= |s| then s[..n] else s
  }

  /**
   * One kept bank entry made ready for display: the prompt as it was, the
   * options shuffled with `choices`, and `answer` recomputed with `indexOf`
   * on the text of the original correct option. An out-of-range source
   * `answer` reads `undefined`, which no option equals, so `indexOf` gives -1.
   */
  function Present(item: Question, choices: seq<nat>): (r: Question)
    requires ValidChoices(|item.options|, choices)
    ensures r.prompt == item.prompt && |r.options| == |item.options|
  {
    var options := Shuffled(item.options, choices);
    ShuffledPermutes(item.options, choices);
    Question(
      item.prompt,
      options,
      if 0 <= item.answer < |item.options| then IndexOf(options, item.options[item.answer]) else -1)
  }

  /**
   * The presented question keeps the prompt, permutes the options, and its
   * `answer` is the first position holding the original correct text.
   */
  lemma PresentKeepsCorrectText(item: Question, choices: seq<nat>)
    requires ValidChoices(|item.options|, choices)
    requires WellFormed(item)
    ensures var r := Present(item, choices);
      && r.prompt == item.prompt
      && multiset(r.options) == multiset(item.options)
      && WellFormed(r)
      && r.options[r.answer] == item.options[item.answer]
      && forall m :: 0 <= m < r.answer ==> r.options[m] != item.options[item.answer]
  {
    ShuffledPermutes(item.options, choices);
    var text := item.options[item.answer];
    assert text in multiset(item.options);
    assert text in Shuffled(item.options, choices);
  }

  /**
   * A presented question has a correct option exactly when its bank entry
   * has one; a source `answer` outside the options gives -1.
   */
  lemma PresentWithoutAnswer(item: Question, choices: seq<nat>)
    requires ValidChoices(|item.options|, choices)
    ensures !WellFormed(item) ==> Present(item, choices).answer == -1
    ensures WellFormed(Present(item, choices)) <==> WellFormed(item)
  {
    if WellFormed(item) {
      PresentKeepsCorrectText(item, choices);
    }
  }

  /**
   * Matching by text agrees with following the correct option itself when
   * the options are pairwise different: `answer` is exactly where the
   * shuffle moved the original correct position.
   */
  lemma PresentTracksCorrectPosition(item: Question, choices: seq<nat>)
    requires ValidChoices(|item.options|, choices)
    requires WellFormed(item) && Distinct(item.options)
    ensures var r := Present(item, choices);
      && 0 <= r.answer < |Shuffled(Identity(|item.options|), choices)|
      && Shuffled(Identity(|item.options|), choices)[r.answer] == item.answer
  {
    var r := Present(item, choices);
    PresentKeepsCorrectText(item, choices);
    ShuffledIsPick(item.options, choices);
    var perm := Shuffled(Identity(|item.options|), choices);
    assert r.options == Pick(item.options, perm);
    assert item.options[perm[r.answer]] == item.options[item.answer];
  }

  /**
   * The draws one sampling consumes: one shuffle of the bank, then one
   * shuffle of the options of each kept question, in order.
   */
  predicate SampleChoices(bank: seq<Question>, count: nat, bankChoices: seq<nat>, optionChoices: seq<seq<nat>>)
  {
    && ValidChoices(|bank|, bankChoices)
    && var kept := Take(Shuffled(bank, bankChoices), count);
    && |optionChoices| == |kept|
    && forall k :: 0 <= k < |kept| ==> ValidChoices(|kept[k].options|, optionChoices[k])
  }

  /** `shuffle(bank).slice(0, count).map(...)`, the questions of one quiz. */
  function Sample(bank: seq<Question>, count: nat, bankChoices: seq<nat>, optionChoices: seq<seq<nat>>): (r: seq<Question>)
    requires SampleChoices(bank, count, bankChoices, optionChoices)
    ensures |r| == (if count <= |bank| then count else |bank|)
  {
    var kept := Take(Shuffled(bank, bankChoices), count);
    ShuffledPermutes(bank, bankChoices);
    seq(|kept|, k requires 0 <= k < |kept| => Present(kept[k], optionChoices[k]))
  }

  /** The bank positions the sampled questions come from, in quiz order. */
  function Sources(n: nat, count: nat, bankChoices: seq<nat>): (r: seq<nat>)
    requires ValidChoices(n, bankChoices)
  {
    Take(Shuffled(Identity(n), bankChoices), count)
  }

  /**
   * Sampling draws `min(count, |bank|)` questions without replacement:
   * question `k` is built from bank entry `Sources(...)[k]`, those entries
   * are pairwise distinct, and each keeps its prompt and its options up to
   * order.
   */
  lemma SampleDrawsDistinct(bank: seq<Question>, count: nat, bankChoices: seq<nat>, optionChoices: seq<seq<nat>>)
    requires SampleChoices(bank, count, bankChoices, optionChoices)
    ensures var r := Sample(bank, count, bankChoices, optionChoices);
      var src := Sources(|bank|, count, bankChoices);
      && |r| == (if count <= |bank| then count else |bank|)
      && |src| == |r|
      && InRange(src, |bank|)
      && Distinct(src)
      && forall k :: 0 <= k < |r| ==>
           && ValidChoices(|bank[src[k]].options|, optionChoices[k])
           && r[k] == Present(bank[src[k]], optionChoices[k])
           && r[k].prompt == bank[src[k]].prompt
           && multiset(r[k].options) == multiset(bank[src[k]].options)
  {
    var r := Sample(bank, count, bankChoices, optionChoices);
    var src := Sources(|bank|, count, bankChoices);
    var kept := Take(Shuffled(bank, bankChoices), count);
    KeptArePicked(bank, count, bankChoices);
    ShuffledPermutes(bank, bankChoices);
    assert |r| == |kept| == |src|;
    forall k | 0 <= k < |r|
      ensures ValidChoices(|bank[src[k]].options|, optionChoices[k])
      ensures r[k] == Present(bank[src[k]], optionChoices[k])
      ensures multiset(r[k].options) == multiset(bank[src[k]].options)
    {
      assert kept[k] == bank[src[k]];
      ShuffledPermutes(kept[k].options, optionChoices[k]);
    }
  }

  /** The kept prefix of the shuffled bank is the bank read at `Sources`. */
  lemma KeptArePicked(bank: seq<Question>, count: nat, bankChoices: seq<nat>)
    requires ValidChoices(|bank|, bankChoices)
    ensures var src := Sources(|bank|, count, bankChoices);
      && InRange(src, |bank|)
      && Distinct(src)
      && Take(Shuffled(bank, bankChoices), count) == Pick(bank, src)
  {
    ShuffledIsPick(bank, bankChoices);
    var perm := Shuffled(Identity(|bank|), bankChoices);
    var src := Sources(|bank|, count, bankChoices);
    assert Take(Pick(bank, perm), count) == Pick(bank, src);
  }

  /**
   * When every bank entry is well formed, every sampled question's `answer`
   * is in range and names the text that was correct in its bank entry.
   */
  lemma SampleKeepsAnswers(bank: seq<Question>, count: nat, bankChoices: seq<nat>, optionChoices: seq<seq<nat>>)
    requires SampleChoices(bank, count, bankChoices, optionChoices)
    requires forall q :: q in bank ==> WellFormed(q)
    ensures var r := Sample(bank, count, bankChoices, optionChoices);
      var src := Sources(|bank|, count, bankChoices);
      && |src| == |r|
      && InRange(src, |bank|)
      && forall k :: 0 <= k < |r| ==>
           WellFormed(bank[src[k]]) && WellFormed(r[k]) && r[k].options[r[k].answer] == bank[src[k]].options[bank[src[k]].answer]
  {
    var r := Sample(bank, count, bankChoices, optionChoices);
    var src := Sources(|bank|, count, bankChoices);
    SampleDrawsDistinct(bank, count, bankChoices, optionChoices);
    forall k | 0 <= k < |r|
      ensures WellFormed(bank[src[k]]) && WellFormed(r[k]) && r[k].options[r[k].answer] == bank[src[k]].options[bank[src[k]].answer]
    {
      assert bank[src[k]] in bank;
      PresentKeepsCorrectText(bank[src[k]], optionChoices[k]);
    }
  }
}
