/** Optional values, used wherever the modelled code may raise instead of returning. */
module Wrappers {
  datatype Option<+T> = None | Some(value: T)

  /** The results of f over xs in order, or None when any of them is None. */
  function Collect<A, B>(xs: seq<A>, f: A -> Option<B>): (r: Option<seq<B>>)
    ensures r.Some? ==> |r.value| == |xs|
    decreases |xs|
  {
    if xs == [] then Some([])
    else
      match Collect(xs[..|xs| - 1], f)
      case None => None
      case Some(init) =>
        match f(xs[|xs| - 1])
        case None => None
        case Some(y) => Some(init + [y])
  }

  /** Collect succeeds exactly when every element succeeds, and then keeps order. */
  lemma {:induction false} CollectPointwise<A, B>(xs: seq<A>, f: A -> Option<B>)
    ensures Collect(xs, f).Some? <==> forall i :: 0 <= i < |xs| ==> f(xs[i]).Some?
    ensures Collect(xs, f).Some? ==>
      forall i :: 0 <= i < |xs| ==> Collect(xs, f).value[i] == f(xs[i]).value
    decreases |xs|
  {
    if xs != [] {
      var init := xs[..|xs| - 1];
      CollectPointwise(init, f);
      assert forall i :: 0 <= i < |init| ==> init[i] == xs[i];
    }
  }

  /** Extending a prefix on which Collect succeeds by one more result. */
  lemma CollectSnoc<A, B>(xs: seq<A>, k: nat, f: A -> Option<B>, init: seq<B>, y: B)
    requires k < |xs| && Collect(xs[..k], f) == Some(init) && f(xs[k]) == Some(y)
    ensures Collect(xs[..k + 1], f) == Some(init + [y])
  {
    assert xs[..k + 1][..k] == xs[..k];
  }

  /** The position of the first element satisfying p, if any (FirstIndexSpec says so). */
  function FirstIndex<T>(xs: seq<T>, p: T -> bool): (r: Option<nat>)
    ensures r.Some? ==> r.value < |xs|
    decreases |xs|
  {
    if xs == [] then None
    else if p(xs[0]) then Some(0)
    else
      match FirstIndex(xs[1..], p)
      case None => None
      case Some(i) => Some(i + 1)
  }

  /** FirstIndex is None exactly when nothing matches, and otherwise the first match. */
  lemma {:induction false} FirstIndexSpec<T>(xs: seq<T>, p: T -> bool)
    ensures FirstIndex(xs, p).None? <==> forall i :: 0 <= i < |xs| ==> !p(xs[i])
    ensures FirstIndex(xs, p).Some? ==>
      FirstIndex(xs, p).value < |xs| && p(xs[FirstIndex(xs, p).value])
      && forall i :: 0 <= i < FirstIndex(xs, p).value ==> !p(xs[i])
    decreases |xs|
  {
    if xs != [] && !p(xs[0]) {
      FirstIndexSpec(xs[1..], p);
      assert forall i :: 0 < i < |xs| ==> xs[i] == xs[1..][i - 1];
    }
  }

  /** Appending elements does not move a first match that already exists. */
  lemma FirstIndexAppend<T>(xs: seq<T>, ys: seq<T>, p: T -> bool)
    requires FirstIndex(xs, p).Some?
    ensures FirstIndex(xs + ys, p) == FirstIndex(xs, p)
  {
    FirstIndexSpec(xs, p);
    FirstIndexSpec(xs + ys, p);
    var i := FirstIndex(xs, p).value;
    assert (xs + ys)[i] == xs[i];
    assert forall j :: 0 <= j < i ==> (xs + ys)[j] == xs[j];
  }

  /** With no match so far, an appended matching element is the first match. */
  lemma FirstIndexSnoc<T>(xs: seq<T>, y: T, p: T -> bool)
    requires FirstIndex(xs, p).None? && p(y)
    ensures FirstIndex(xs + [y], p) == Some(|xs|)
  {
    FirstIndexSpec(xs, p);
    FirstIndexSpec(xs + [y], p);
    assert (xs + [y])[|xs|] == y;
    assert forall j :: 0 <= j < |xs| ==> (xs + [y])[j] == xs[j];
  }
}
