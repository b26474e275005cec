/**
 * Order-preserving selection over sequences: the shape shared by every
 * "loop over the input, append the ones that pass a test" in the programs
 * (open questions, kept ids, non-empty paragraphs, categorised files).
 */
module Seqs {

  /** `f(x)` for every `x` of `xs` that `keep` accepts, in the order of `xs`. */
  function Collect<T, U>(xs: seq<T>, keep: T -> bool, f: T -> U): (r: seq<U>)
    ensures |r| <= |xs|
    decreases |xs|
  {
    if xs == [] then []
    else Collect(xs[..|xs| - 1], keep, f) + (if keep(xs[|xs| - 1]) then [f(xs[|xs| - 1])] else [])
  }

  /** The positions of `xs` that `keep` accepts, in increasing order. */
  function KeptIndexes<T>(xs: seq<T>, keep: T -> bool): (idx: seq<nat>)
    ensures forall k :: 0 <= k < |idx| ==> idx[k] < |xs| && keep(xs[idx[k]])
    ensures forall k, l :: 0 <= k < l < |idx| ==> idx[k] < idx[l]
    decreases |xs|
  {
    if xs == [] then []
    else KeptIndexes(xs[..|xs| - 1], keep) + (if keep(xs[|xs| - 1]) then [|xs| - 1] else [])
  }

  /** How many elements of `xs` `keep` accepts. */
  function CountKept<T>(xs: seq<T>, keep: T -> bool): nat
    decreases |xs|
  {
    if xs == [] then 0
    else CountKept(xs[..|xs| - 1], keep) + (if keep(xs[|xs| - 1]) then 1 else 0)
  }

  /**
   * What `Collect` means: its result is `f` applied, position by position, to
   * exactly the accepted elements, which are taken in their input order;
   * every accepted position is among them.
   */
  lemma {:induction false} CollectIsKeptInOrder<T, U>(xs: seq<T>, keep: T -> bool, f: T -> U)
    ensures |Collect(xs, keep, f)| == |KeptIndexes(xs, keep)| == CountKept(xs, keep)
    ensures forall k :: 0 <= k < |KeptIndexes(xs, keep)| ==>
              Collect(xs, keep, f)[k] == f(xs[KeptIndexes(xs, keep)[k]])
    ensures forall i :: 0 <= i < |xs| && keep(xs[i]) ==> i in KeptIndexes(xs, keep)
    decreases |xs|
  {
    if xs != [] {
      var n := |xs| - 1;
      var init := xs[..n];
      CollectIsKeptInOrder(init, keep, f);
      var c, ix := Collect(init, keep, f), KeptIndexes(init, keep);
      var tailC, tailI := if keep(xs[n]) then [f(xs[n])] else [], if keep(xs[n]) then [n] else [];
      assert Collect(xs, keep, f) == c + tailC;
      assert KeptIndexes(xs, keep) == ix + tailI;
      forall k | 0 <= k < |ix + tailI|
        ensures (c + tailC)[k] == f(xs[(ix + tailI)[k]])
      {
        if k < |ix| {
          assert (c + tailC)[k] == c[k] && (ix + tailI)[k] == ix[k];
          assert xs[ix[k]] == init[ix[k]];
        }
      }
      forall i | 0 <= i < |xs| && keep(xs[i])
        ensures i in ix + tailI
      {
        if i < n {
          assert xs[i] == init[i];
        }
      }
    }
  }

  /** `Collect` is empty exactly when `keep` accepts nothing. */
  lemma {:induction false} CollectEmptyIff<T, U>(xs: seq<T>, keep: T -> bool, f: T -> U)
    ensures Collect(xs, keep, f) == [] <==> forall i :: 0 <= i < |xs| ==> !keep(xs[i])
    decreases |xs|
  {
    if xs != [] {
      var init := xs[..|xs| - 1];
      CollectEmptyIff(init, keep, f);
      assert forall i :: 0 <= i < |init| ==> init[i] == xs[i];
    }
  }

  /** Collecting over a prefix one element longer appends at most that element. */
  lemma CollectSnoc<T, U>(xs: seq<T>, n: nat, keep: T -> bool, f: T -> U)
    requires n < |xs|
    ensures Collect(xs[..n + 1], keep, f) ==
            Collect(xs[..n], keep, f) + (if keep(xs[n]) then [f(xs[n])] else [])
  {
    assert xs[..n + 1][..n] == xs[..n];
  }

  /** The concatenation of the pieces, in order. */
  function Flatten<T>(xss: seq<seq<T>>): seq<T>
    decreases |xss|
  {
    if xss == [] then [] else Flatten(xss[..|xss| - 1]) + xss[|xss| - 1]
  }

  lemma FlattenSnoc<T>(xss: seq<seq<T>>, n: nat)
    requires n < |xss|
    ensures Flatten(xss[..n + 1]) == Flatten(xss[..n]) + xss[n]
  {
    assert xss[..n + 1][..n] == xss[..n];
  }

  /** Whether some element satisfies `p`. */
  predicate Any<T>(xs: seq<T>, p: T -> bool) {
    exists i :: 0 <= i < |xs| && p(xs[i])
  }

  lemma AnySnoc<T>(xs: seq<T>, p: T -> bool)
    requires xs != []
    ensures Any(xs, p) <==> Any(xs[..|xs| - 1], p) || p(xs[|xs| - 1])
  {
    var init := xs[..|xs| - 1];
    if Any(init, p) {
      var i :| 0 <= i < |init| && p(init[i]);
      assert xs[i] == init[i];
    }
    if Any(xs, p) {
      var i :| 0 <= i < |xs| && p(xs[i]);
      if i < |init| {
        assert init[i] == xs[i];
      }
    }
  }

  /** `ys` is `f` of a prefix of `xs` whose every element satisfies `p`. */
  ghost predicate MappedPrefix<T, U>(ys: seq<U>, xs: seq<T>, p: T -> bool, f: T -> U) {
    |ys| <= |xs| && forall k :: 0 <= k < |ys| ==> p(xs[k]) && ys[k] == f(xs[k])
  }

  lemma MappedPrefixCons<T, U>(ys: seq<U>, xs: seq<T>, p: T -> bool, f: T -> U)
    requires xs != [] && p(xs[0])
    requires MappedPrefix(ys, xs[1..], p, f)
    ensures MappedPrefix([f(xs[0])] + ys, xs, p, f)
  {
    var zs := [f(xs[0])] + ys;
    forall k | 0 <= k < |zs|
      ensures p(xs[k]) && zs[k] == f(xs[k])
    {
      if k > 0 {
        assert zs[k] == ys[k - 1] && xs[1..][k - 1] == xs[k];
      }
    }
  }
}
