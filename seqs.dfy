/** `Array.prototype.filter` and the counts the dashboard reads off its
    result with `.length`. */
module Seqs {

  /** `s.filter(p)`: the elements satisfying `p`, in their order. */
  function Filter<T(!new)>(s: seq<T>, p: T -> bool): (r: seq<T>)
    ensures |r| <= |s|
    ensures forall i :: 0 <= i < |r| ==> p(r[i])
    ensures forall x :: multiset(r)[x] == if p(x) then multiset(s)[x] else 0
  {
    if s == [] then []
    else
      var init := s[..|s| - 1];
      var last := s[|s| - 1];
      assert s == init + [last];
      Filter(init, p) + (if p(last) then [last] else [])
  }

  /** The positions of `s` whose elements `Filter` keeps. */
  function KeptPositions<T>(s: seq<T>, p: T -> bool): seq<nat>
  {
    if s == [] then []
    else KeptPositions(s[..|s| - 1], p) + (if p(s[|s| - 1]) then [|s| - 1] else [])
  }

  lemma {:induction false} KeptPositionsEmbed<T(!new)>(s: seq<T>, p: T -> bool)
    ensures Embeds(KeptPositions(s, p), Filter(s, p), s)
  {
    if s != [] {
      var init := s[..|s| - 1];
      var last := s[|s| - 1];
      KeptPositionsEmbed(init, p);
      assert s == init + [last];
      if p(last) {
        EmbedsTaken(KeptPositions(init, p), Filter(init, p), init, last);
      } else {
        EmbedsSkipped(KeptPositions(init, p), Filter(init, p), init, last);
      }
    }
  }

  /** Filtering keeps the order of what it keeps: the result is a
      subsequence of the input. */
  lemma FilterIsSubsequence<T(!new)>(s: seq<T>, p: T -> bool)
    ensures exists idx: seq<nat> :: Embeds(idx, Filter(s, p), s)
  {
    KeptPositionsEmbed(s, p);
  }

  /** `idx` lists strictly increasing positions of `s` at which the
      elements of `r` sit. */
  ghost predicate Embeds<T>(idx: seq<nat>, r: seq<T>, s: seq<T>)
  {
    |idx| == |r| &&
    (forall k :: 0 <= k < |idx| ==> idx[k] < |s| && s[idx[k]] == r[k]) &&
    (forall k, l :: 0 <= k < l < |idx| ==> idx[k] < idx[l])
  }

  lemma EmbedsTaken<T>(idx: seq<nat>, r: seq<T>, s: seq<T>, x: T)
    requires Embeds(idx, r, s)
    ensures Embeds(idx + [|s|], r + [x], s + [x])
  {
  }

  lemma EmbedsSkipped<T>(idx: seq<nat>, r: seq<T>, s: seq<T>, x: T)
    requires Embeds(idx, r, s)
    ensures Embeds(idx, r, s + [x])
  {
  }

  /** `s.filter(p).length`. */
  function Count<T(!new)>(s: seq<T>, p: T -> bool): nat
  {
    |Filter(s, p)|
  }

  /** Two tests no element passes together select, between them, at most
      all of the elements. */
  lemma {:induction false} DisjointCountsBound<T(!new)>(s: seq<T>, p: T -> bool, q: T -> bool)
    requires forall i :: 0 <= i < |s| ==> !(p(s[i]) && q(s[i]))
    ensures Count(s, p) + Count(s, q) <= |s|
  {
    if s != [] {
      var init := s[..|s| - 1];
      assert forall i :: 0 <= i < |init| ==> init[i] == s[i];
      DisjointCountsBound(init, p, q);
    }
  }
}
