/**
 * Python's `xs[-n:]`, which the history reader and the log endpoint use to
 * take "the last n" entries, next to the tail that phrase describes; and
 * `xs[:n]`, which the chat generator uses to keep the first n.
 */
module Slices {
  /** Python's `xs[-n:]` for any integer `n`. */
  function PyTail<T>(xs: seq<T>, n: int): (r: seq<T>)
    ensures n > 0 ==> r == xs[|xs| - (if n < |xs| then n else |xs|)..]
    ensures n == 0 ==> r == xs
    ensures n < 0 ==> r == xs[(if -n < |xs| then -n else |xs|)..]
  {
    var start := -n;
    if start < 0 then
      (if |xs| + start < 0 then xs else xs[|xs| + start..])
    else if start >= |xs| then []
    else xs[start..]
  }

  /** The last `n` entries (all of them when there are fewer). */
  function LastN<T>(xs: seq<T>, n: nat): (r: seq<T>)
    ensures |r| == if n < |xs| then n else |xs|
    ensures r == xs[|xs| - |r|..]
  {
    if n < |xs| then xs[|xs| - n..] else xs
  }

  /** For a positive count the slice is the tail. */
  lemma PyTailPositive<T>(xs: seq<T>, n: int)
    requires n > 0
    ensures PyTail(xs, n) == LastN(xs, n)
  {
  }

  /** For a count of 0 the slice is the whole list, not the empty tail. */
  lemma PyTailZero<T>(xs: seq<T>)
    requires xs != []
    ensures PyTail(xs, 0) == xs && LastN(xs, 0) == [] && PyTail(xs, 0) != LastN(xs, 0)
  {
  }

  /** Python's `xs[:n]` for any integer `n`: a negative `n` counts from the end. */
  function PyHead<T>(xs: seq<T>, n: int): (r: seq<T>)
    ensures |r| <= |xs| && r == xs[..|r|]
    ensures n >= 0 ==> |r| == if n < |xs| then n else |xs|
    ensures n < 0 ==> |r| == if -n < |xs| then |xs| + n else 0
  {
    if n >= 0 then (if n < |xs| then xs[..n] else xs)
    else if -n < |xs| then xs[..|xs| + n]
    else []
  }
}
