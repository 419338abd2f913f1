/** Python list slicing used by the service: `xs[-k:]` and `xs[:-1]`. */
module Slices {

  /** Start index Python uses for `xs[-k:]` on a list of length `n`. */
  function TailStart(n: nat, k: int): (i: nat)
    ensures i <= n
  {
    if k > 0 then (if k >= n then 0 else n - k)
    else if k == 0 then 0
    else (if -k >= n then n else -k)
  }

  /** `xs[-k:]`: for a positive `k` the last `k` elements; note that `xs[-0:]` is the whole list. */
  function LastN<T>(xs: seq<T>, k: int): (r: seq<T>)
    ensures k > 0 ==> |r| == (if k < |xs| then k else |xs|)
    ensures k > 0 ==> r == xs[|xs| - |r|..]
    ensures k == 0 ==> r == xs
  {
    xs[TailStart(|xs|, k)..]
  }

  /** `xs[:-1]`: everything but the last element (empty for an empty list). */
  function AllButLast<T>(xs: seq<T>): (r: seq<T>)
    ensures xs != [] ==> xs == r + [xs[|xs| - 1]]
    ensures xs == [] ==> r == []
  {
    if xs == [] then [] else xs[..|xs| - 1]
  }
}
