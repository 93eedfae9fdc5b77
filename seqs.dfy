/** Sequence helpers standing for `Array.prototype.find` and order-preserving selection. */
module Seqs {
  import opened Wrappers

  /** Index of the first element satisfying `p`, as `Array.prototype.find` locates it. */
  function FirstIndex<T>(s: seq<T>, p: T -> bool): (r: Option<nat>)
    ensures r.Some? ==> r.value < |s| && p(s[r.value])
    ensures r.Some? ==> forall k :: 0 <= k < r.value ==> !p(s[k])
    ensures r.None? <==> forall k :: 0 <= k < |s| ==> !p(s[k])
  {
    if s == [] then None
    else if p(s[0]) then Some(0)
    else match FirstIndex(s[1..], p)
      case None => None
      case Some(i) => Some(i + 1)
  }

  /** `idx` picks out the elements of `sub` from `s`, at strictly increasing positions. */
  ghost predicate Embeds<T>(idx: seq<nat>, sub: seq<T>, s: seq<T>)
  {
    && |idx| == |sub|
    && (forall i :: 0 <= i < |idx| ==> idx[i] < |s| && sub[i] == s[idx[i]])
    && (forall i, j :: 0 <= i < j < |idx| ==> idx[i] < idx[j])
  }

  /** `sub` is an order-preserving subsequence of `s`. */
  ghost predicate IsSubsequence<T>(sub: seq<T>, s: seq<T>)
  {
    exists idx :: Embeds(idx, sub, s)
  }

  /** Every position moved one place to the right. */
  function Shift(idx: seq<nat>): (r: seq<nat>)
    ensures |r| == |idx| && forall i :: 0 <= i < |idx| ==> r[i] == idx[i] + 1
  {
    seq(|idx|, i requires 0 <= i < |idx| => idx[i] + 1)
  }

  /** Skipping a head element keeps a subsequence a subsequence. */
  lemma EmbedsSkip<T>(idx: seq<nat>, sub: seq<T>, x: T, s: seq<T>)
    requires Embeds(idx, sub, s)
    ensures Embeds(Shift(idx), sub, [x] + s)
  {
  }

  /** Taking a head element on both sides keeps a subsequence a subsequence. */
  lemma EmbedsTake<T>(idx: seq<nat>, sub: seq<T>, x: T, s: seq<T>)
    requires Embeds(idx, sub, s)
    ensures Embeds([0] + Shift(idx), [x] + sub, [x] + s)
  {
  }
}
