/**
 * The question records shared by both quiz widgets of the learning site:
 * a prompt, its answer options and the index of the correct option.
 */
module Questions {

  /** A value that may be absent, standing for JavaScript's `null`. */
  datatype Option<T> = None | Some(value: T)

  /**
   * One quiz question. `answer` is an index into `options`; in a presented
   * question it is the result of `indexOf`, so it may be -1.
   */
  datatype Question = Question(prompt: string, options: seq<string>, answer: int)

  /** The question's answer points at one of its options. */
  predicate WellFormed(q: Question)
  {
    0 <= q.answer < |q.options|
  }

  /**
   * `Array.prototype.indexOf` on an array of strings: the first index holding
   * `x`, or -1 when no element is `x`.
   */
  function IndexOf(s: seq<string>, x: string): (r: int)
    ensures -1 <= r < |s|
    ensures r == -1 <==> x !in s
    ensures 0 <= r ==> s[r] == x && forall m :: 0 <= m < r ==> s[m] != x
    decreases |s|
  {
    if |s| == 0 then -1
    else if s[0] == x then 0
    else
      var rest := IndexOf(s[1..], x);
      if rest == -1 then -1 else rest + 1
  }
}
