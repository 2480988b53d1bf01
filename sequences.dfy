/** `Array.prototype.filter` on the client's lists, and what "in order" means for its result. */
module Sequences {
  /** `sub` is `xs` with some elements left out, the rest in their order. */
  predicate IsSubsequence<T(==)>(sub: seq<T>, xs: seq<T>) {
    if sub == [] then true
    else if xs == [] then false
    else (sub[0] == xs[0] && IsSubsequence(sub[1..], xs[1..])) || IsSubsequence(sub, xs[1..])
  }

  /**
   * `xs.filter(keep)`: exactly the elements that pass, each as often as in
   * `xs`, in their order.
   */
  function Filter<T(==,!new)>(xs: seq<T>, keep: T -> bool): (r: seq<T>)
    ensures forall x :: x in r <==> x in xs && keep(x)
    ensures forall x :: multiset(r)[x] == if keep(x) then multiset(xs)[x] else 0
    ensures IsSubsequence(r, xs)
  {
    if xs == [] then []
    else
      assert xs == [xs[0]] + xs[1..];
      if keep(xs[0]) then [xs[0]] + Filter(xs[1..], keep)
      else Filter(xs[1..], keep)
  }
}
