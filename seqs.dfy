/**
  The Swift collection operations the stores rely on, stated once:
  `firstIndex(where:)`, `filter` / `removeAll(where:)`, dropping the oldest
  elements down to a cap, and selecting the elements at a set of offsets
  (`remove(atOffsets:)`, `move(fromOffsets:toOffset:)`).
*/
module Seqs {

  /** `firstIndex(where: p)`, with `|s|` standing for "none". */
  function FirstIndex<T>(s: seq<T>, p: T -> bool): (k: nat)
    ensures k <= |s|
    ensures k < |s| ==> p(s[k])
    ensures forall j :: 0 <= j < k ==> !p(s[j])
  {
    if s == [] then 0
    else if p(s[0]) then 0
    else 1 + FirstIndex(s[1..], p)
  }

  /** The lowest index satisfying `p` is what `FirstIndex` finds. */
  lemma FirstIndexIsLowest<T>(s: seq<T>, p: T -> bool, k: nat)
    requires k < |s| && p(s[k])
    requires forall j :: 0 <= j < k ==> !p(s[j])
    ensures FirstIndex(s, p) == k
  {
  }

  /** `filter(p)`: the elements satisfying `p`, in their original order. */
  function Filter<T>(s: seq<T>, p: T -> bool): (r: seq<T>)
    ensures |r| <= |s|
    ensures forall i :: 0 <= i < |r| ==> r[i] in s && p(r[i])
    ensures forall i :: 0 <= i < |s| && p(s[i]) ==> s[i] in r
  {
    if s == [] then []
    else (if p(s[0]) then [s[0]] else []) + Filter(s[1..], p)
  }

  /** Filtering distributes over concatenation, so survivors keep their relative order. */
  lemma {:induction false} FilterConcat<T>(a: seq<T>, b: seq<T>, p: T -> bool)
    ensures Filter(a + b, p) == Filter(a, p) + Filter(b, p)
  {
    if a == [] {
      assert a + b == b;
    } else {
      assert (a + b)[0] == a[0];
      assert (a + b)[1..] == a[1..] + b;
      FilterConcat(a[1..], b, p);
    }
  }

  /** A sequence whose every element satisfies `p` passes through unchanged. */
  lemma {:induction false} FilterKeepsAll<T>(s: seq<T>, p: T -> bool)
    requires forall i :: 0 <= i < |s| ==> p(s[i])
    ensures Filter(s, p) == s
  {
    if s != [] {
      FilterKeepsAll(s[1..], p);
    }
  }

  /** Taking out the element at `j` takes one copy of it out of the multiset. */
  lemma MultisetWithout<T>(s: seq<T>, j: nat)
    requires j < |s|
    ensures multiset(s[..j] + s[j + 1..]) == multiset(s) - multiset{s[j]}
  {
    assert s == s[..j] + [s[j]] + s[j + 1..];
  }

  lemma MultisetTail<T>(s: seq<T>)
    requires s != []
    ensures multiset(s[1..]) == multiset(s) - multiset{s[0]}
  {
    assert s == [s[0]] + s[1..];
  }

  /** Filtering twice with the same predicate is filtering once. */
  lemma FilterIdempotent<T>(s: seq<T>, p: T -> bool)
    ensures Filter(Filter(s, p), p) == Filter(s, p)
  {
    var r := Filter(s, p);
    FilterKeepsAll(r, p);
  }

  /** The last `n` elements of `s` (all of `s` when it is shorter). */
  function KeepLast<T>(s: seq<T>, n: nat): (r: seq<T>)
    ensures |r| <= n && |r| <= |s|
    ensures |s| <= n ==> r == s
    ensures |s| > n ==> |r| == n
    ensures r == s[|s| - |r|..]
  {
    if |s| <= n then s else s[|s| - n..]
  }

  /**
    The indices `i` in `lo..hi`, ascending, for which `i in offsets` equals
    `inside`: with `inside` true the selected offsets, with `inside` false the
    others.
  */
  function PickIndices(offsets: set<nat>, inside: bool, lo: nat, hi: nat): (ix: seq<nat>)
    decreases hi
    ensures forall j :: 0 <= j < |ix| ==> lo <= ix[j] < hi && (ix[j] in offsets) == inside
    ensures forall j, k :: 0 <= j < k < |ix| ==> ix[j] < ix[k]
    ensures forall i :: lo <= i < hi && (i in offsets) == inside ==> i in ix
  {
    if hi <= lo then []
    else PickIndices(offsets, inside, lo, hi - 1) + (if ((hi - 1) in offsets) == inside then [hi - 1] else [])
  }

  /**
    The elements of `s` whose offset is (or, with `inside` false, is not) in
    `offsets`, in order; `base` is the offset of `s[0]` in the whole collection.
  */
  function Pick<T>(s: seq<T>, offsets: set<nat>, inside: bool, base: nat): (r: seq<T>)
  {
    if s == [] then []
    else Pick(s[..|s| - 1], offsets, inside, base) + (if ((base + |s| - 1) in offsets) == inside then [s[|s| - 1]] else [])
  }

  /** `p` lists the elements of `s` (offset by `base`) found at the offsets `ix`, in that order. */
  ghost predicate Selects<T>(p: seq<T>, s: seq<T>, ix: seq<nat>, base: nat)
  {
    |p| == |ix| && forall j :: 0 <= j < |ix| ==> base <= ix[j] < base + |s| && p[j] == s[ix[j] - base]
  }

  lemma SelectsSnoc<T>(p: seq<T>, s: seq<T>, ix: seq<nat>, base: nat, x: T, keep: bool)
    requires Selects(p, s, ix, base)
    ensures Selects(p + (if keep then [x] else []), s + [x], ix + (if keep then [base + |s|] else []), base)
  {
  }

  /** Appending one element to `s` appends it to the pick exactly when its offset qualifies. */
  lemma PickSnoc<T>(init: seq<T>, x: T, offsets: set<nat>, inside: bool, base: nat)
    ensures Pick(init + [x], offsets, inside, base) ==
      Pick(init, offsets, inside, base) + (if ((base + |init|) in offsets) == inside then [x] else [])
  {
  }

  /** `Pick` takes exactly the elements at `PickIndices`, in index order. */
  lemma {:induction false} PickAtIndices<T>(s: seq<T>, offsets: set<nat>, inside: bool, base: nat)
    ensures Selects(Pick(s, offsets, inside, base), s, PickIndices(offsets, inside, base, base + |s|), base)
  {
    if s != [] {
      var init, x := s[..|s| - 1], s[|s| - 1];
      assert s == init + [x];
      PickAtIndices(init, offsets, inside, base);
      PickSnoc(init, x, offsets, inside, base);
      SelectsSnoc(Pick(init, offsets, inside, base), init, PickIndices(offsets, inside, base, base + |init|), base, x,
        ((base + |init|) in offsets) == inside);
    }
  }

  /** Picking from `a + b` is picking from `a`, then from `b` at the offsets that follow. */
  lemma {:induction false} PickConcat<T>(a: seq<T>, b: seq<T>, offsets: set<nat>, inside: bool, base: nat)
    ensures Pick(a + b, offsets, inside, base) == Pick(a, offsets, inside, base) + Pick(b, offsets, inside, base + |a|)
  {
    if b == [] {
      assert a + b == a;
    } else {
      var init := b[..|b| - 1];
      assert (a + b)[..|a + b| - 1] == a + init;
      PickConcat(a, init, offsets, inside, base);
    }
  }

  /** The selected and the unselected elements together make up the whole. */
  lemma {:induction false} PickPartition<T>(s: seq<T>, offsets: set<nat>, base: nat)
    ensures multiset(Pick(s, offsets, true, base)) + multiset(Pick(s, offsets, false, base)) == multiset(s)
  {
    if s != [] {
      var init := s[..|s| - 1];
      PickPartition(init, offsets, base);
      assert s == init + [s[|s| - 1]];
    }
  }

}
