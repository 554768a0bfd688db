/**
 * The Fisher-Yates `shuffle` of the randomized quiz page. The random draws
 * `Math.floor(Math.random() * (i + 1))` are injected as a sequence of
 * choices, listed in the order the loop asks for them: `choices[k]` is the
 * index swapped with position `i = n - 1 - k`.
 */
module Shuffle {

  /**
   * The draws a shuffle of `n` elements consumes: one per position from
   * `n - 1` down to 1, each within `[0, i]`.
   */
  predicate ValidChoices(n: nat, choices: seq<nat>)
  {
    && |choices| == (if n == 0 then 0 else n - 1)
    && forall k :: 0 <= k < |choices| ==> choices[k] <= n - 1 - k
  }

  /** The destructuring swap `[a[i], a[j]] = [a[j], a[i]]`. */
  function Swap<T>(s: seq<T>, i: nat, j: nat): (r: seq<T>)
    requires i < |s| && j < |s|
  {
    s[i := s[j]][j := s[i]]
  }

  /**
   * The loop iterations for positions `i` down to 1, applied to `s`
   * (the state of the working array when position `i` is reached).
   */
  function Steps<T>(s: seq<T>, choices: seq<nat>, i: nat): (r: seq<T>)
    requires i < |s| && ValidChoices(|s|, choices)
    decreases i
  {
    if i == 0 then s
    else Steps(Swap(s, i, choices[|s| - 1 - i]), choices, i - 1)
  }

  /** What `shuffle(items)` returns when `Math.random` yields `choices`. */
  function Shuffled<T>(s: seq<T>, choices: seq<nat>): (r: seq<T>)
    requires ValidChoices(|s|, choices)
  {
    if |s| == 0 then s else Steps(s, choices, |s| - 1)
  }

  /**
   * `shuffle`: copies the input into a fresh array and swaps position `i`
   * with the drawn position, for `i` from the last index down to 1. The
   * input, a value, is left as it was.
   */
  method Shuffle<T>(items: seq<T>, choices: seq<nat>) returns (r: seq<T>)
    requires ValidChoices(|items|, choices)
    ensures r == Shuffled(items, choices)
    ensures |r| == |items| && multiset(r) == multiset(items)
  {
    var a := new T[|items|](k requires 0 <= k < |items| => items[k]);
    assert a[..] == items;
    var i := |items| - 1;
    while i > 0
      invariant -1 <= i < a.Length == |items|
      invariant i == -1 ==> a[..] == items == []
      invariant 0 <= i ==> Steps(a[..], choices, i) == Shuffled(items, choices)
      decreases i
    {
      var j := choices[|items| - 1 - i];
      ghost var before := a[..];
      var t := a[i];
      a[i] := a[j];
      a[j] := t;
      assert a[..] == Swap(before, i, j);
      i := i - 1;
    }
    r := a[..];
    ShuffledPermutes(items, choices);
  }

  /** Every element of `p` is a valid index into a sequence of length `n`. */
  predicate InRange(p: seq<nat>, n: nat)
  {
    forall k :: 0 <= k < |p| ==> p[k] < n
  }

  /** No value occurs twice in `p`. */
  predicate Distinct<T(==)>(p: seq<T>)
  {
    forall k, m :: 0 <= k < m < |p| ==> p[k] != p[m]
  }

  /** The identity arrangement `[0, 1, ..., n - 1]`. */
  function Identity(n: nat): (r: seq<nat>)
  {
    seq(n, k => k)
  }

  /** The elements of `s` at the positions listed in `p`. */
  function Pick<T>(s: seq<T>, p: seq<nat>): (r: seq<T>)
    requires InRange(p, |s|)
  {
    seq(|p|, k requires 0 <= k < |p| => s[p[k]])
  }

  lemma {:induction false} StepsPermutes<T>(s: seq<T>, choices: seq<nat>, i: nat)
    requires i < |s| && ValidChoices(|s|, choices)
    ensures |Steps(s, choices, i)| == |s|
    ensures multiset(Steps(s, choices, i)) == multiset(s)
    decreases i
  {
    if i > 0 {
      var j := choices[|s| - 1 - i];
      var t := Swap(s, i, j);
      assert multiset(t) == multiset(s);
      StepsPermutes(t, choices, i - 1);
    }
  }

  /** The shuffle returns a permutation of its input. */
  lemma ShuffledPermutes<T>(s: seq<T>, choices: seq<nat>)
    requires ValidChoices(|s|, choices)
    ensures |Shuffled(s, choices)| == |s|
    ensures multiset(Shuffled(s, choices)) == multiset(s)
  {
    if |s| > 0 {
      StepsPermutes(s, choices, |s| - 1);
    }
  }

  lemma {:induction false} StepsKeepsDistinct<T>(s: seq<T>, choices: seq<nat>, i: nat)
    requires i < |s| && ValidChoices(|s|, choices)
    requires Distinct(s)
    ensures Distinct(Steps(s, choices, i))
    decreases i
  {
    if i > 0 {
      var j := choices[|s| - 1 - i];
      var t := Swap(s, i, j);
      forall k, m | 0 <= k < m < |t| ensures t[k] != t[m] {
        var k' := if k == i then j else if k == j then i else k;
        var m' := if m == i then j else if m == j then i else m;
        assert t[k] == s[k'] && t[m] == s[m'];
      }
      StepsKeepsDistinct(t, choices, i - 1);
    }
  }

  lemma {:induction false} StepsCommutesWithPick<T>(s: seq<T>, p: seq<nat>, choices: seq<nat>, i: nat)
    requires i < |p| && ValidChoices(|p|, choices) && InRange(p, |s|)
    ensures InRange(Steps(p, choices, i), |s|)
    ensures Steps(Pick(s, p), choices, i) == Pick(s, Steps(p, choices, i))
    decreases i
  {
    if i > 0 {
      var j := choices[|p| - 1 - i];
      var q := Swap(p, i, j);
      assert InRange(q, |s|) by {
        forall k | 0 <= k < |q| ensures q[k] < |s| {
          assert q[k] == p[if k == j then i else if k == i then j else k];
        }
      }
      assert Pick(s, q) == Swap(Pick(s, p), i, j);
      StepsCommutesWithPick(s, q, choices, i - 1);
    }
  }

  /**
   * Shuffling a sequence moves whole elements: position `k` of the result
   * holds `s[Shuffled(Identity(|s|), choices)[k]]`, and those source
   * positions are distinct valid indices. So a prefix of the result is a
   * draw without replacement.
   */
  lemma ShuffledIsPick<T>(s: seq<T>, choices: seq<nat>)
    requires ValidChoices(|s|, choices)
    ensures |Shuffled(Identity(|s|), choices)| == |s|
    ensures InRange(Shuffled(Identity(|s|), choices), |s|)
    ensures Distinct(Shuffled(Identity(|s|), choices))
    ensures Shuffled(s, choices) == Pick(s, Shuffled(Identity(|s|), choices))
  {
    var id := Identity(|s|);
    assert Pick(s, id) == s;
    if |s| > 0 {
      StepsPermutes(id, choices, |s| - 1);
      StepsKeepsDistinct(id, choices, |s| - 1);
      StepsCommutesWithPick(s, id, choices, |s| - 1);
    }
  }
}
