/** The extent map as pure data: the ordered entries of the store's
    `start -> end` map, what they cover, and why the canonical form makes
    coverage the whole story. */
module Extents {
  import opened Prelude

  /** A downloaded extent `[lo, hi)`. */
  datatype Extent = Extent(lo: nat, hi: nat)

  /** Sorted, non-empty, disjoint and non-adjacent. */
  ghost predicate WellFormed(xs: seq<Extent>) {
    && (forall i :: 0 <= i < |xs| ==> xs[i].lo < xs[i].hi)
    && (forall i, j :: 0 <= i < j < |xs| ==> xs[i].hi < xs[j].lo)
  }

  /** Sorted, non-empty and disjoint; touching entries are tolerated. */
  ghost predicate Ordered(xs: seq<Extent>) {
    && (forall i :: 0 <= i < |xs| ==> xs[i].lo < xs[i].hi)
    && (forall i, j :: 0 <= i < j < |xs| ==> xs[i].hi <= xs[j].lo)
  }

  ghost predicate Covered(xs: seq<Extent>, p: nat) {
    exists i :: 0 <= i < |xs| && xs[i].lo <= p < xs[i].hi
  }

  predicate Within(p: nat, lo: nat, hi: nat) {
    lo <= p < hi
  }

  /** Offsets `[lo, hi)` as a set. */
  ghost function Span(lo: nat, hi: nat): (c: set<nat>)
    ensures forall p: nat :: p in c <==> lo <= p < hi
  {
    set p: nat | p < hi && Within(p, lo, hi)
  }

  /** A bound on every entry's end. */
  ghost function Top(xs: seq<Extent>): (t: nat)
    ensures forall i :: 0 <= i < |xs| ==> xs[i].hi <= t
  {
    if xs == [] then 0 else Max(Top(xs[..|xs| - 1]), xs[|xs| - 1].hi)
  }

  /** The plain set of offsets the entries stand for. */
  ghost function Cover(xs: seq<Extent>): (c: set<nat>)
    ensures forall p: nat :: p in c <==> Covered(xs, p)
  {
    set p: nat | p < Top(xs) && Covered(xs, p)
  }

  lemma CoveredCons(xs: seq<Extent>)
    requires xs != []
    ensures forall p: nat :: Covered(xs, p) <==> xs[0].lo <= p < xs[0].hi || Covered(xs[1..], p)
  {
    forall p: nat | Covered(xs, p) ensures xs[0].lo <= p < xs[0].hi || Covered(xs[1..], p) {
      var i :| 0 <= i < |xs| && xs[i].lo <= p < xs[i].hi;
      if i > 0 { assert xs[1..][i - 1] == xs[i]; }
    }
    forall p: nat | Covered(xs[1..], p) ensures Covered(xs, p) {
      var i :| 0 <= i < |xs[1..]| && xs[1..][i].lo <= p < xs[1..][i].hi;
      assert xs[i + 1] == xs[1..][i];
    }
  }

  /** The least offset of `[lo, bound)` outside `cover`. */
  ghost function Gap(cover: set<nat>, lo: nat, bound: nat): Option<nat>
    decreases bound - lo
  {
    if lo >= bound then None
    else if lo !in cover then Some(lo)
    else Gap(cover, lo + 1, bound)
  }

  /** `Gap` is exactly the least uncovered offset, and `None` exactly full coverage. */
  lemma {:induction false} GapIsLeast(cover: set<nat>, lo: nat, bound: nat)
    ensures Gap(cover, lo, bound).None? <==> Span(lo, bound) <= cover
    ensures Gap(cover, lo, bound).Some? ==>
              var g := Gap(cover, lo, bound).value;
              lo <= g < bound && g !in cover && Span(lo, g) <= cover
    decreases bound - lo
  {
    if lo >= bound {
      assert Span(lo, bound) == {};
    } else if lo !in cover {
      assert lo in Span(lo, bound);
      assert Span(lo, lo) == {};
    } else {
      GapIsLeast(cover, lo + 1, bound);
      assert Span(lo, bound) == {lo} + Span(lo + 1, bound);
      if Gap(cover, lo + 1, bound).Some? {
        var g := Gap(cover, lo + 1, bound).value;
        assert Span(lo, g) == {lo} + Span(lo + 1, g);
      }
    }
  }

  /** A gap is pinned down by its three facts. */
  lemma {:induction false} GapUnique(cover: set<nat>, lo: nat, bound: nat, g: nat)
    requires lo <= g < bound && g !in cover && Span(lo, g) <= cover
    ensures Gap(cover, lo, bound) == Some(g)
    decreases g - lo
  {
    if lo < g {
      assert lo in Span(lo, g);
      GapUnique(cover, lo + 1, bound, g) by {
        assert Span(lo + 1, g) <= Span(lo, g);
      }
    }
  }

  /** An entry is covered throughout, and its end never is. */
  lemma EntryBounds(xs: seq<Extent>, i: nat)
    requires WellFormed(xs) && i < |xs|
    ensures xs[i].hi !in Cover(xs)
    ensures forall p: nat :: xs[i].lo <= p < xs[i].hi ==> p in Cover(xs)
  {
    forall j | 0 <= j < |xs| ensures !(xs[j].lo <= xs[i].hi < xs[j].hi) {
      if j < i {
        assert xs[j].hi < xs[i].lo;
      } else if i < j {
        assert xs[i].hi < xs[j].lo;
      }
    }
  }

  /** Well-formed entries are a canonical form: equal coverage, equal entries. */
  lemma {:induction false} CanonicalForm(xs: seq<Extent>, ys: seq<Extent>)
    requires WellFormed(xs) && WellFormed(ys)
    requires Cover(xs) == Cover(ys)
    ensures xs == ys
    decreases |xs|
  {
    if xs == [] || ys == [] {
      EmptyCover(xs);
      EmptyCover(ys);
    } else {
      SameHead(xs, ys);
      SameTail(xs, ys);
      CanonicalForm(xs[1..], ys[1..]);
      assert xs == [xs[0]] + xs[1..] && ys == [ys[0]] + ys[1..];
    }
  }

  lemma EmptyCover(xs: seq<Extent>)
    requires WellFormed(xs)
    ensures Cover(xs) == {} <==> xs == []
  {
    if xs != [] {
      EntryBounds(xs, 0);
      assert xs[0].lo in Cover(xs);
    }
  }

  lemma SameHead(xs: seq<Extent>, ys: seq<Extent>)
    requires WellFormed(xs) && WellFormed(ys) && xs != [] && ys != []
    requires Cover(xs) == Cover(ys)
    ensures xs[0] == ys[0]
  {
    HeadNotAfter(xs, ys);
    HeadNotAfter(ys, xs);
  }

  lemma SameTail(xs: seq<Extent>, ys: seq<Extent>)
    requires WellFormed(xs) && WellFormed(ys) && xs != [] && ys != []
    requires Cover(xs) == Cover(ys) && xs[0] == ys[0]
    ensures WellFormed(xs[1..]) && WellFormed(ys[1..])
    ensures Cover(xs[1..]) == Cover(ys[1..])
  {
    TailCover(xs);
    TailCover(ys);
    forall p: nat ensures p in Cover(xs[1..]) <==> p in Cover(ys[1..]) {
    }
  }

  lemma HeadNotAfter(xs: seq<Extent>, ys: seq<Extent>)
    requires WellFormed(xs) && WellFormed(ys) && xs != [] && ys != []
    requires Cover(xs) == Cover(ys)
    ensures ys[0].lo <= xs[0].lo
    ensures ys[0].lo == xs[0].lo ==> xs[0].hi <= ys[0].hi
  {
    EntryBounds(xs, 0);
    EntryBounds(ys, 0);
    assert Covered(ys, xs[0].lo);
  }

  lemma TailCover(xs: seq<Extent>)
    requires WellFormed(xs) && xs != []
    ensures WellFormed(xs[1..])
    ensures forall p: nat :: p in Cover(xs[1..]) <==> p in Cover(xs) && p >= xs[0].hi
  {
    CoveredCons(xs);
    forall p: nat | Covered(xs[1..], p) ensures p >= xs[0].hi {
      var i :| 0 <= i < |xs[1..]| && xs[1..][i].lo <= p < xs[1..][i].hi;
      assert xs[1..][i] == xs[i + 1];
    }
  }
}
