/** The sparse byte store: one growable file plus the extent entries that say
    which offsets hold downloaded bytes. Every operation is stated against the
    plain map from covered offset to byte that the two together stand for. */
module SparseStore {
  import opened Prelude
  import opened Extents

  /** Upper bound on one served read. */
  const MAX_READ_CHUNK: nat := 16 * 1024 * 1024

  /** Committed bytes between sidecar flushes. */
  const PERSIST_EVERY_BYTES: nat := 2 * 1024 * 1024

  /** Writing past the end of a file zero-fills the hole. */
  function WriteAt(file: seq<Byte>, start: nat, bytes: seq<Byte>): (f: seq<Byte>)
    ensures |f| >= |file| && (bytes != [] ==> |f| >= start + |bytes|)
    ensures forall i :: 0 <= i < |bytes| ==> f[start + i] == bytes[i]
    ensures forall i :: 0 <= i < |file| && !(start <= i < start + |bytes|) ==> f[i] == file[i]
  {
    if bytes == [] then file
    else seq(Max(|file|, start + |bytes|),
             i requires 0 <= i => if start <= i < start + |bytes| then bytes[i - start]
                                  else if i < |file| then file[i] else 0)
  }

  /** The bytes `bytes` placed at `start`, as a map. */
  ghost function Placed(start: nat, bytes: seq<Byte>): (m: map<nat, Byte>)
    ensures forall p :: p in m <==> start <= p < start + |bytes|
    ensures forall p :: p in m ==> m[p] == bytes[p - start]
  {
    map p | p in Span(start, start + |bytes|) :: ByteAt(start, bytes, p)
  }

  function ByteAt(start: nat, bytes: seq<Byte>, p: nat): Byte
    requires start <= p < start + |bytes|
  {
    bytes[p - start]
  }

  /** How many contiguous bytes a read at a covered `pos` serves. */
  ghost function ServeLen(data: map<nat, Byte>, pos: nat, maxLen: nat): (n: nat)
    requires pos in data && maxLen > 0
    ensures 1 <= n <= maxLen
    ensures forall p :: pos <= p < pos + n ==> p in data
  {
    var cap := Min(maxLen, MAX_READ_CHUNK);
    GapIsLeast(data.Keys, pos, pos + cap);
    match Gap(data.Keys, pos, pos + cap)
    case None => cap
    case Some(g) => g - pos
  }

  /** The bytes a read at a covered `pos` serves. */
  ghost function Serve(data: map<nat, Byte>, pos: nat, maxLen: nat): (bytes: seq<Byte>)
    requires pos in data && maxLen > 0
    ensures 1 <= |bytes| <= maxLen
    ensures forall i :: 0 <= i < |bytes| ==> pos + i in data && bytes[i] == data[pos + i]
  {
    var n := ServeLen(data, pos, maxLen);
    seq(n, i requires 0 <= i < n => data[pos + i])
  }

  /** The static session fields stamped into a sidecar. */
  datatype SidecarMeta = SidecarMeta(sourceRef: string, provider: string, mime: string)

  /** What a sidecar file holds once parsed. */
  datatype Sidecar = Sidecar(meta: SidecarMeta, total: Option<nat>, hintTotal: Option<nat>, extents: seq<Extent>)

  /** The structural rule a sidecar must meet: ordered, non-empty, disjoint,
      and inside the wire total. Touching extents are tolerated. */
  ghost predicate Loadable(s: Sidecar) {
    && Ordered(s.extents)
    && (s.total.Some? ==> forall i :: 0 <= i < |s.extents| ==> s.extents[i].hi <= s.total.value)
  }

  /** `Sidecar::load`, after parsing: one pass that remembers the previous end. */
  method LoadSidecar(s: Sidecar) returns (r: Result<Sidecar, string>)
    ensures r.Ok? <==> Loadable(s)
    ensures r.Ok? ==> r.value == s
  {
    var prevEnd := 0;
    for i := 0 to |s.extents|
      invariant forall k :: 0 <= k < i ==> s.extents[k].lo < s.extents[k].hi <= prevEnd
      invariant forall k, l :: 0 <= k < l < i ==> s.extents[k].hi <= s.extents[l].lo
      invariant i > 0 ==> prevEnd == s.extents[i - 1].hi
      invariant i == 0 ==> prevEnd == 0
    {
      var x := s.extents[i];
      if x.lo >= x.hi {
        return Err("extent is empty");
      }
      if x.lo < prevEnd {
        return Err("extent overlaps or is unsorted");
      }
      prevEnd := x.hi;
    }
    if s.total.Some? && prevEnd > s.total.value {
      return Err("extents exceed declared total");
    }
    return Ok(s);
  }

  /** Every well-formed map inside its wire total is a loadable sidecar, whatever the hint says. */
  lemma WellFormedLoads(xs: seq<Extent>, meta: SidecarMeta, total: Option<nat>, hint: Option<nat>)
    requires WellFormed(xs)
    requires total.Some? ==> forall p :: p in Cover(xs) ==> p < total.value
    ensures Loadable(Sidecar(meta, total, hint, xs))
  {
    forall i | 0 <= i < |xs| && total.Some? ensures xs[i].hi <= total.value {
      EntryBounds(xs, i);
      assert xs[i].hi - 1 in Cover(xs);
    }
  }

  /** Entries `[a, b)` are exactly those that touch `[start, end)`. */
  ghost predicate Touched(xs: seq<Extent>, a: nat, b: nat, start: nat, end: nat) {
    && start < end && a <= b <= |xs|
    && (forall k :: 0 <= k < a ==> xs[k].hi < start)
    && (forall k :: a <= k < b ==> xs[k].hi >= start && xs[k].lo <= end)
    && (forall k :: b <= k < |xs| ==> xs[k].lo > end)
  }

  /** One entry spanning `[start, end)` and everything it touches. */
  function MergedEntry(xs: seq<Extent>, a: nat, b: nat, start: nat, end: nat): Extent
    requires a <= b <= |xs|
  {
    if a == b then Extent(start, end) else Extent(Min(start, xs[a].lo), Max(end, xs[b - 1].hi))
  }

  lemma MergedAt(xs: seq<Extent>, a: nat, b: nat, start: nat, end: nat, p: nat)
    requires WellFormed(xs) && Touched(xs, a, b, start, end)
    ensures var m := MergedEntry(xs, a, b, start, end);
            m.lo <= p < m.hi <==> start <= p < end || exists k :: a <= k < b && xs[k].lo <= p < xs[k].hi
  {
    var m := MergedEntry(xs, a, b, start, end);
    if a < b {
      if m.lo <= p < start {
        assert xs[a].lo <= p < xs[a].hi;
      }
      if end <= p < m.hi {
        assert xs[b - 1].lo <= p < xs[b - 1].hi;
      }
      forall k | a <= k < b ensures m.lo <= xs[k].lo && xs[k].hi <= m.hi {
        assert k == a || xs[a].hi < xs[k].lo;
        assert k == b - 1 || xs[k].hi < xs[b - 1].lo;
      }
    }
  }

  ghost function Merged(xs: seq<Extent>, a: nat, b: nat, start: nat, end: nat): (ys: seq<Extent>)
    requires a <= b <= |xs|
    ensures |ys| == |xs| - (b - a) + 1
    ensures ys[a] == MergedEntry(xs, a, b, start, end)
    ensures forall k :: 0 <= k < a ==> ys[k] == xs[k]
    ensures forall k :: b <= k < |xs| ==> ys[k - b + a + 1] == xs[k]
  {
    xs[..a] + [MergedEntry(xs, a, b, start, end)] + xs[b..]
  }

  /** Replacing the touched entries by the merged one keeps the canonical form and
      adds exactly the span to the coverage. */
  lemma MergeEntries(xs: seq<Extent>, a: nat, b: nat, start: nat, end: nat)
    requires WellFormed(xs) && Touched(xs, a, b, start, end)
    ensures WellFormed(Merged(xs, a, b, start, end))
    ensures Cover(Merged(xs, a, b, start, end)) == Cover(xs) + Span(start, end)
  {
    MergeWellFormed(xs, a, b, start, end);
    var ys := Merged(xs, a, b, start, end);
    forall p: nat ensures Covered(ys, p) <==> Covered(xs, p) || start <= p < end {
      MergeAddsNothingElse(xs, a, b, start, end, p);
      MergeLosesNothing(xs, a, b, start, end, p);
    }
  }

  lemma MergeAddsNothingElse(xs: seq<Extent>, a: nat, b: nat, start: nat, end: nat, p: nat)
    requires WellFormed(xs) && Touched(xs, a, b, start, end)
    ensures Covered(Merged(xs, a, b, start, end), p) ==> Covered(xs, p) || start <= p < end
  {
    var ys := Merged(xs, a, b, start, end);
    if Covered(ys, p) {
      MergedAt(xs, a, b, start, end, p);
      var i :| 0 <= i < |ys| && ys[i].lo <= p < ys[i].hi;
      assert i > a ==> ys[i] == xs[i - a - 1 + b];
    }
  }

  lemma MergeLosesNothing(xs: seq<Extent>, a: nat, b: nat, start: nat, end: nat, p: nat)
    requires WellFormed(xs) && Touched(xs, a, b, start, end)
    ensures Covered(xs, p) || start <= p < end ==> Covered(Merged(xs, a, b, start, end), p)
  {
    var ys := Merged(xs, a, b, start, end);
    MergedAt(xs, a, b, start, end, p);
    if ys[a].lo <= p < ys[a].hi {
    } else if Covered(xs, p) {
      var i :| 0 <= i < |xs| && xs[i].lo <= p < xs[i].hi;
      if i >= b {
        assert ys[i - b + a + 1] == xs[i];
      } else {
        assert ys[i] == xs[i];
      }
    }
  }

  lemma MergeWellFormed(xs: seq<Extent>, a: nat, b: nat, start: nat, end: nat)
    requires WellFormed(xs) && Touched(xs, a, b, start, end)
    ensures WellFormed(Merged(xs, a, b, start, end))
  {
    var m := MergedEntry(xs, a, b, start, end);
    assert a > 0 ==> xs[a - 1].hi < m.lo by {
      assert 0 < a < b ==> xs[a - 1].hi < xs[a].lo;
    }
    assert b < |xs| ==> m.hi < xs[b].lo by {
      assert a < b < |xs| ==> xs[b - 1].hi < xs[b].lo;
    }
    JoinWellFormed(xs[..a], [m]);
    JoinWellFormed(xs[..a] + [m], xs[b..]);
  }

  lemma JoinWellFormed(us: seq<Extent>, vs: seq<Extent>)
    requires WellFormed(us) && WellFormed(vs)
    requires us != [] && vs != [] ==> us[|us| - 1].hi < vs[0].lo
    ensures WellFormed(us + vs)
  {
    forall i, j | 0 <= i < |us| && 0 <= j < |vs| ensures us[i].hi < vs[j].lo {
      assert us[i].hi <= us[|us| - 1].hi;
      assert vs[0].lo <= vs[j].lo;
    }
  }

  /** The absorb pass of `insert`: skip the entries that end before `start`, fold in
      every entry the span overlaps or touches, leave the rest. */
  method Absorb(xs: seq<Extent>, start: nat, end: nat) returns (ys: seq<Extent>)
    requires WellFormed(xs) && start < end
    ensures WellFormed(ys) && Cover(ys) == Cover(xs) + Span(start, end)
  {
    var a := 0;
    while a < |xs| && xs[a].hi < start
      invariant 0 <= a <= |xs|
      invariant forall k :: 0 <= k < a ==> xs[k].hi < start
    {
      a := a + 1;
    }
    var b, newStart, newEnd := a, start, end;
    while b < |xs| && xs[b].lo <= end
      invariant a <= b <= |xs|
      invariant forall k :: a <= k < b ==> xs[k].hi >= start && xs[k].lo <= end
      invariant 0 <= newStart && 0 <= newEnd
      invariant Extent(newStart, newEnd) == MergedEntry(xs, a, b, start, end)
    {
      newStart, newEnd := Min(newStart, xs[b].lo), Max(newEnd, xs[b].hi);
      b := b + 1;
    }
    ys := xs[..a] + [Extent(newStart, newEnd)] + xs[b..];
    MergeEntries(xs, a, b, start, end);
  }

  lemma HoleAt(xs: seq<Extent>, i: nat, p: nat)
    requires Ordered(xs) && i <= |xs|
    requires forall k :: 0 <= k < i ==> xs[k].hi <= p
    requires i < |xs| ==> p < xs[i].lo
    ensures p !in Cover(xs)
  {
    forall k | 0 <= k < |xs| ensures !(xs[k].lo <= p < xs[k].hi) {
      if i < k {
        assert xs[i].hi <= xs[k].lo;
      }
    }
  }

  /** Index of the last entry starting at or before `pos`, plus one. */
  method LastAtOrBefore(xs: seq<Extent>, pos: nat) returns (i: nat)
    requires Ordered(xs)
    ensures i <= |xs|
    ensures i > 0 ==> xs[i - 1].lo <= pos
    ensures forall k :: 0 <= k < i - 1 ==> xs[k].hi <= pos
    ensures forall k :: i <= k < |xs| ==> xs[k].lo > pos
  {
    i := |xs|;
    while i > 0 && xs[i - 1].lo > pos
      invariant i <= |xs|
      invariant forall k :: i <= k < |xs| ==> xs[k].lo > pos
    {
      i := i - 1;
    }
    assert forall k :: 0 <= k < i - 1 ==> xs[k].hi <= xs[i - 1].lo;
  }

  /** The gap scan: jump past the extent holding `start`, then walk the entries until
      one leaves a hole. It is right even for maps whose entries touch. */
  method ScanGap(xs: seq<Extent>, start: nat, bound: nat) returns (gap: Option<nat>)
    requires Ordered(xs)
    ensures gap == Gap(Cover(xs), start, bound)
  {
    var i := LastAtOrBefore(xs, start);
    var cursor := if i > 0 && xs[i - 1].hi > start then xs[i - 1].hi else start;
    ghost var first := i;
    GapIsLeast(Cover(xs), start, bound);
    assert Span(start, cursor) <= Cover(xs) by {
      forall p | p in Span(start, cursor) ensures Covered(xs, p) {
        assert xs[i - 1].lo <= p < xs[i - 1].hi;
      }
    }
    while i < |xs| && xs[i].lo < bound
      invariant first <= i <= |xs|
      invariant start <= cursor
      invariant Span(start, cursor) <= Cover(xs)
      invariant forall k :: 0 <= k < i ==> xs[k].hi <= cursor
      invariant cursor < bound || i == first
      decreases |xs| - i
    {
      if xs[i].lo > cursor {
        HoleAt(xs, i, cursor);
        GapUnique(Cover(xs), start, bound, cursor);
        return Some(cursor);
      }
      assert forall p: nat :: xs[i].lo <= p < xs[i].hi ==> Covered(xs, p);
      cursor := Max(cursor, xs[i].hi);
      if cursor >= bound {
        assert Span(start, bound) <= Span(start, cursor);
        return None;
      }
      i := i + 1;
    }
    if cursor < bound {
      HoleAt(xs, i, cursor);
      GapUnique(Cover(xs), start, bound, cursor);
      return Some(cursor);
    }
    assert Span(start, bound) <= Span(start, cursor);
    return None;
  }

  /** The covered offsets and the bytes the file holds there. */
  ghost function ContentOf(file: seq<Byte>, cover: set<nat>): (m: map<nat, Byte>)
    requires forall p :: p in cover ==> p < |file|
    ensures m.Keys == cover
    ensures forall p :: p in m ==> m[p] == file[p]
  {
    map p | p in cover :: file[p]
  }

  /** What the covered offsets hold after a write that claimed nothing new. */
  ghost function Overwritten(data: map<nat, Byte>, start: nat, bytes: seq<Byte>): (m: map<nat, Byte>) {
    map p | p in data :: if start <= p < start + |bytes| then bytes[p - start] else data[p]
  }

  lemma ContentAfterTornWrite(file: seq<Byte>, cover: set<nat>, start: nat, bytes: seq<Byte>)
    requires forall p :: p in cover ==> p < |file|
    ensures ContentOf(WriteAt(file, start, bytes), cover) == Overwritten(ContentOf(file, cover), start, bytes)
  {
    var after := WriteAt(file, start, bytes);
    forall p | p in cover && start <= p < start + |bytes| ensures after[p] == bytes[p - start] {
      assert after[start + (p - start)] == bytes[p - start];
    }
  }

  lemma ContentAfterWrite(file: seq<Byte>, cover: set<nat>, start: nat, bytes: seq<Byte>)
    requires forall p :: p in cover ==> p < |file|
    requires bytes != []
    ensures var after := WriteAt(file, start, bytes);
            && (forall p :: p in cover ==> p < |after|) && start + |bytes| <= |after|
            && ContentOf(after, cover + Span(start, start + |bytes|)) == ContentOf(file, cover) + Placed(start, bytes)
  {
    var after := WriteAt(file, start, bytes);
    var all := cover + Span(start, start + |bytes|);
    assert Placed(start, bytes).Keys == Span(start, start + |bytes|);
    forall p | p in all ensures ContentOf(after, all)[p] == (ContentOf(file, cover) + Placed(start, bytes))[p] {
      if start <= p < start + |bytes| {
        assert after[start + (p - start)] == bytes[p - start];
      }
    }
  }

  class SparseStore {
    var file: seq<Byte>
    var extents: seq<Extent>
    /** Wire-authoritative total. */
    var total: Option<nat>
    /** Resolve-time length hint. */
    var hintTotal: Option<nat>
    var dirtyBytes: nat
    var everPersisted: bool

    ghost predicate Valid() reads this {
      && WellFormed(extents)
      && forall p :: p in Cover(extents) ==> p < |file|
    }

    /** The covered offsets and the bytes they hold. */
    ghost function Content(): (m: map<nat, Byte>)
      reads this
      requires Valid()
      ensures m.Keys == Cover(extents)
    {
      ContentOf(file, Cover(extents))
    }

    constructor (hint: Option<nat>)
      ensures Valid() && Content() == map[]
      ensures total == None && hintTotal == hint && dirtyBytes == 0 && !everPersisted
    {
      file, extents := [], [];
      total, hintTotal := None, hint;
      dirtyBytes, everPersisted := 0, false;
    }

    /** End of the extent containing `pos`, if covered: only the last entry
        starting at or before `pos` can hold it. */
    method ExtentEnd(pos: nat) returns (end: Option<nat>)
      requires Valid()
      ensures end.Some? <==> pos in Cover(extents)
      ensures end.Some? ==> end.value > pos && end.value !in Cover(extents)
                            && Span(pos, end.value) <= Cover(extents)
    {
      var i := LastAtOrBefore(extents, pos);
      if i > 0 && extents[i - 1].hi > pos {
        EntryBounds(extents, i - 1);
        assert Covered(extents, pos);
        return Some(extents[i - 1].hi);
      }
      HoleAt(extents, i, pos);
      return None;
    }

    method Covers(pos: nat) returns (yes: bool)
      requires Valid()
      ensures yes <==> pos in Content()
    {
      var end := ExtentEnd(pos);
      yes := end.Some?;
    }

    /** Serve up to `maxLen` bytes at a covered `pos`, stopping at its extent's end. */
    method ReadAt(pos: nat, maxLen: nat, ioFails: bool) returns (r: Result<seq<Byte>, StreamError>)
      requires Valid() && maxLen > 0
      ensures pos !in Content() || ioFails ==> r == Err(Internal)
      ensures pos in Content() && !ioFails ==> r == Ok(Serve(Content(), pos, maxLen))
    {
      var end := ExtentEnd(pos);
      if end.None? || ioFails {
        return Err(Internal);
      }
      var n := Min(Min(end.value - pos, maxLen), MAX_READ_CHUNK);
      ServeMatchesExtent(Content(), pos, maxLen, end.value);
      assert end.value - 1 in Span(pos, end.value);
      assert end.value - 1 in Cover(extents);
      assert forall p :: pos <= p < pos + n ==> p in Span(pos, end.value);
      var bytes := file[pos..pos + n];
      assert bytes == Serve(Content(), pos, maxLen);
      return Ok(bytes);
    }

    /** Write `bytes` at `start`, then merge the span into the entries in one absorb pass.
        `fault` is a write that failed after that many bytes reached the file. */
    method Insert(start: U64, bytes: seq<Byte>, fault: Option<nat>) returns (r: Result<(), StreamError>)
      requires Valid()
      requires fault.Some? ==> fault.value <= |bytes|
      modifies this
      ensures Valid()
      ensures total == old(total) && hintTotal == old(hintTotal) && everPersisted == old(everPersisted)
      ensures r.Ok? <==> bytes == [] || (fault.None? && start + |bytes| <= U64_MAX)
      ensures r.Ok? ==> Content() == old(Content()) + Placed(start, bytes)
      ensures r.Ok? ==> dirtyBytes == old(dirtyBytes) + |bytes|
      ensures r.Err? ==> r.error == Internal && extents == old(extents) && dirtyBytes == old(dirtyBytes)
      ensures r.Err? ==> Content() == Overwritten(old(Content()), start,
                                                  if fault.Some? then bytes[..fault.value] else bytes)
    {
      hide Placed, Overwritten, ContentOf, WriteAt, Cover, Covered, Span;
      if bytes == [] {
        assert Placed(start, bytes) == map[];
        return Ok(());
      }
      var reached := if fault.Some? then bytes[..fault.value] else bytes;
      ContentAfterTornWrite(file, Cover(extents), start, reached);
      ContentAfterWrite(file, Cover(extents), start, bytes);
      file := WriteAt(file, start, reached);
      if fault.Some? || start + |bytes| > U64_MAX {
        return Err(Internal);
      }
      extents := Absorb(extents, start, start + |bytes|);
      dirtyBytes := dirtyBytes + |bytes|;
      return Ok(());
    }

    /** First uncovered offset of `[start, bound)`. */
    method FirstGap(start: nat, bound: nat) returns (gap: Option<nat>)
      requires Valid()
      ensures gap == Gap(Content().Keys, start, bound)
    {
      gap := ScanGap(extents, start, bound);
    }

    method HeadCovered(bound: nat) returns (yes: bool)
      requires Valid()
      ensures yes <==> forall p :: 0 <= p < bound ==> p in Content()
    {
      var gap := FirstGap(0, bound);
      GapIsLeast(Cover(extents), 0, bound);
      assert Span(0, bound) <= Content().Keys <==> forall p :: 0 <= p < bound ==> p in Content();
      yes := gap.None?;
    }

    /** Whether a flush is due: always until the sidecar exists, then by committed bytes. */
    predicate PersistDue() reads this {
      !everPersisted || dirtyBytes >= PERSIST_EVERY_BYTES
    }

    /** Snapshot what a durability job will claim, and reset the flush budget. */
    method PersistJob(meta: SidecarMeta) returns (job: Sidecar)
      requires Valid()
      modifies this`dirtyBytes, this`everPersisted
      ensures Valid() && Content() == old(Content()) && !PersistDue()
      ensures job == Sidecar(meta, total, hintTotal, extents)
      ensures total.Some? && (forall p :: p in Content() ==> p < total.value) ==> Loadable(job)
      ensures total.None? ==> Loadable(job)
    {
      job := Sidecar(meta, total, hintTotal, extents);
      dirtyBytes, everPersisted := 0, true;
      if total.None? || (forall p :: p in Content() ==> p < total.value) {
        WellFormedLoads(extents, meta, total, hintTotal);
      }
    }
  }

  lemma ServeMatchesExtent(data: map<nat, Byte>, pos: nat, maxLen: nat, end: nat)
    requires pos < end && maxLen > 0 && end !in data
    requires Span(pos, end) <= data.Keys
    ensures pos in data && ServeLen(data, pos, maxLen) == Min(Min(end - pos, maxLen), MAX_READ_CHUNK)
  {
    assert pos in Span(pos, end);
    var cap := Min(maxLen, MAX_READ_CHUNK);
    GapIsLeast(data.Keys, pos, pos + cap);
    if end < pos + cap {
      GapUnique(data.Keys, pos, pos + cap, end);
    } else {
      assert Span(pos, pos + cap) <= Span(pos, end);
    }
  }

  /** Insertion order never shows: two stores that hold the same bytes hold the same entries,
      and persist the same sidecar. */
  lemma SameContentSameSidecar(s: SparseStore, t: SparseStore)
    requires s.Valid() && t.Valid() && s.Content() == t.Content()
    ensures s.extents == t.extents
  {
    assert Cover(s.extents) == s.Content().Keys == t.Content().Keys == Cover(t.extents);
    CanonicalForm(s.extents, t.extents);
  }
}
