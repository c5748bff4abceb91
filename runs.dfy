/**
 * What a loop produces when each element it reads yields at most one item:
 * the items of a run of elements, in the order of the elements.
 */
module Runs {
  import opened Wrappers

  /** The item of `o`, if it has one, as a sequence. */
  function Items<U>(o: Option<U>): (r: seq<U>)
    ensures |r| <= 1
    ensures r == [] <==> o.None?
  {
    match o
    case None => []
    case Some(u) => [u]
  }

  /** The items that `f` yields for `xs[from..upto]`, in the order of the elements. */
  function Present<T, U>(f: T -> Option<U>, xs: seq<T>, from: nat, upto: nat): seq<U>
    requires from <= upto <= |xs|
    decreases upto
  {
    if upto == from then [] else Present(f, xs, from, upto - 1) + Items(f(xs[upto - 1]))
  }

  /** The items of a run are those of its first part followed by those of the rest. */
  lemma {:induction false} PresentSplit<T, U>(f: T -> Option<U>, xs: seq<T>, from: nat, mid: nat, upto: nat)
    requires from <= mid <= upto <= |xs|
    ensures Present(f, xs, from, upto) == Present(f, xs, from, mid) + Present(f, xs, mid, upto)
    decreases upto
  {
    if upto > mid {
      PresentSplit(f, xs, from, mid, upto - 1);
    }
  }

  /** A run yields at most one item per element, and one per element exactly when every element yields one. */
  lemma {:induction false} PresentLength<T, U>(f: T -> Option<U>, xs: seq<T>, from: nat, upto: nat)
    requires from <= upto <= |xs|
    ensures |Present(f, xs, from, upto)| <= upto - from
    ensures |Present(f, xs, from, upto)| == upto - from <==> forall k | from <= k < upto :: f(xs[k]).Some?
    decreases upto
  {
    if upto > from {
      PresentLength(f, xs, from, upto - 1);
    }
  }

  /** A run yields nothing exactly when none of its elements does. */
  lemma {:induction false} PresentEmpty<T, U>(f: T -> Option<U>, xs: seq<T>, from: nat, upto: nat)
    requires from <= upto <= |xs|
    ensures Present(f, xs, from, upto) == [] <==> forall k | from <= k < upto :: f(xs[k]).None?
    decreases upto
  {
    if upto > from {
      PresentEmpty(f, xs, from, upto - 1);
    }
  }
}
