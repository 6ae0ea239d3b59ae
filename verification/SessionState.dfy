/** The reader-visible state of one stream session: what each critical section
    under `shared` does to it, and what the pump decides from it. */
module SessionState {
  import opened Prelude
  import opened Extents

  /** The tuning knobs the modelled code reads. */
  datatype Config = Config(
    headBytes: U64,
    readAhead: U64,
    chunkBytes: U64,
    probeBytes: U64,
    mintBudget: nat,
    maxZeroProgressMints: nat,
    fetchRetries: nat,
    cooldownCap: nat)
  {
    ghost predicate Valid() {
      chunkBytes >= 1 && probeBytes >= 1
    }

    function ProbeLen(): nat {
      Min(probeBytes, chunkBytes)
    }
  }

  /** Liveness, attachment and ownership of a session. */
  datatype Life = Life(
    terminal: Option<StreamError>,
    attached: bool,
    claimed: bool,
    abandoned: bool,
    everAttached: bool,
    detachEpoch: nat,
    detachedSince: Option<nat>)
  {
    predicate Live() {
      terminal.None?
    }

    /** First error wins. */
    function End(e: StreamError): Life {
      if Live() then this.(terminal := Some(e)) else this
    }

    function Claim(): Life {
      this.(claimed := true, abandoned := false)
    }

    /** The deciding pass of `abandon`: an attached session is only marked, a detached one ends. */
    function Abandon(): Life {
      if !Live() then this
      else if attached then this.(abandoned := true)
      else End(Cancelled)
    }

    function Attach(): Life {
      this.(attached := true, detachedSince := None, everAttached := true)
    }

    /** A real detach bumps the epoch, and an ownerless one drops the claim. */
    function Close(now: nat): Life {
      if !attached then this
      else this.(attached := false, detachedSince := Some(now), detachEpoch := detachEpoch + 1,
                 claimed := claimed && !abandoned, abandoned := false)
    }

    /** The guard of every unattached-only teardown. */
    predicate Unowned() {
      !attached && !claimed
    }

    /** The reaper's guard: detached for at least `ttl`. */
    predicate Stale(now: nat, ttl: nat) {
      detachedSince.Some? && now >= detachedSince.value + ttl
    }

    /** What every lifecycle operation keeps. */
    ghost predicate Sane() {
      && (abandoned ==> attached)
      && (attached ==> everAttached)
      && (attached <==> detachedSince.None?)
    }
  }

  function NewLife(now: nat): Life {
    Life(None, false, false, false, false, 0, Some(now))
  }

  /** Every lifecycle operation keeps the flags coherent, and none revives an ended session. */
  lemma LifeStaysSane(l: Life, e: StreamError, now: nat)
    requires l.Sane()
    ensures l.End(e).Sane() && l.Claim().Sane() && l.Abandon().Sane() && l.Attach().Sane() && l.Close(now).Sane()
    ensures !l.Live() ==> forall x :: x in {l.End(e), l.Claim(), l.Abandon(), l.Attach(), l.Close(now)} ==>
                            x.terminal == l.terminal
  {
  }

  /** State readers and lifecycle calls mutate behind `shared`. */
  datatype Shared = Shared(
    life: Life,
    readPos: nat,
    fetchThrough: map<nat, nat>,
    eofBelow: Option<nat>,
    committed: nat,
    demandPublished: nat,
    transientError: Option<StreamError>,
    notBefore: Option<nat>)
  {
    predicate PastEof(p: nat) {
      eofBelow.Some? && p >= eofBelow.value
    }

    function Publish(): Shared {
      this.(demandPublished := |fetchThrough|)
    }

    /** Register one reader's hold on `p`; only a fresh position is published. */
    function Queue(p: nat): Shared {
      var n := if p in fetchThrough then fetchThrough[p] + 1 else 1;
      var s := this.(fetchThrough := fetchThrough[p := n], readPos := Max(readPos, p));
      if n == 1 then s.Publish() else s
    }

    /** Release one reader's hold on `p`; only the last holder dequeues it. */
    function Drop(p: nat): Shared {
      if p !in fetchThrough then this
      else if fetchThrough[p] <= 1 then this.(fetchThrough := fetchThrough - {p}).Publish()
      else this.(fetchThrough := fetchThrough[p := fetchThrough[p] - 1])
    }

    /** Lower the end-of-stream ceiling and forget demand at or past it. */
    function MarkEof(at: nat): Shared {
      var b := if eofBelow.Some? then Min(eofBelow.value, at) else at;
      this.(eofBelow := Some(b), fetchThrough := map p | p in fetchThrough && p < b :: fetchThrough[p]).Publish()
    }

    /** Forget demand that is covered or past the ceiling. */
    function Retain(cover: set<nat>): Shared {
      this.(fetchThrough := map p | p in fetchThrough && p !in cover && !PastEof(p) :: fetchThrough[p]).Publish()
    }

    function Terminate(e: StreamError): Shared {
      if life.Live() then this.(life := life.End(e), fetchThrough := map[]).Publish() else this
    }
  }

  function NewShared(now: nat): Shared {
    Shared(NewLife(now), 0, map[], None, 0, 0, None, None)
  }

  /** What the pump should do next. */
  datatype Action =
    | Stop
    | Park(onDemand: bool)
    | Fetch(offset: nat, len: nat, through: bool)

  /** Fully covered under the wire total; the hint is never proof. */
  ghost predicate Whole(cover: set<nat>, total: Option<nat>) {
    total.Some? && Gap(cover, 0, total.value).None?
  }

  /** Smallest queued position. */
  ghost function Least(s: set<nat>): (k: nat)
    requires s != {}
    ensures k in s && forall j :: j in s ==> k <= j
  {
    var x :| x in s;
    if s == {x} then x
    else
      var k := Least(s - {x});
      assert s == (s - {x}) + {x};
      Min(x, k)
  }

  /** `next_action` up to the point where it looks at the shared pool: `None` means no verdict yet. */
  ghost function DecideFirst(sh: Shared, cover: set<nat>, total: Option<nat>, cfg: Config): (Shared, Option<Action>) {
    if !sh.life.Live() then (sh, Some(Stop))
    else if sh.transientError.Some? then (sh, Some(Park(false)))
    else if Whole(cover, total) then (sh, Some(Stop))
    else
      var kept := sh.Retain(cover);
      if kept.fetchThrough.Keys != {} then (kept, Some(Fetch(Least(kept.fetchThrough.Keys), cfg.ProbeLen(), true)))
      else (kept, None)
  }

  /** The fill window `[lo, bound)`. */
  function Window(sh: Shared, total: Option<nat>, hint: Option<nat>, cfg: Config): (nat, nat) {
    var effective := if total.Some? then total else hint;
    var lo := if sh.life.attached then sh.readPos else 0;
    var bound := if sh.life.attached then SatAdd(sh.readPos, cfg.readAhead) else cfg.headBytes;
    var capped := if effective.Some? then Min(bound, effective.value) else bound;
    (lo, if sh.eofBelow.Some? then Min(capped, sh.eofBelow.value) else capped)
  }

  /** The rest of `next_action`, once no demand of its own is queued. */
  ghost function DecideRest(sh: Shared, cover: set<nat>, total: Option<nat>, hint: Option<nat>, cfg: Config,
                            poolDemand: int): Action
  {
    if !sh.life.attached && poolDemand > 0 then Park(true)
    else
      var (lo, bound) := Window(sh, total, hint, cfg);
      GapIsLeast(cover, lo, bound);
      match Gap(cover, lo, bound)
      case None => Park(false)
      case Some(gap) =>
        Fetch(gap, Min(bound - gap, if sh.committed == 0 then cfg.ProbeLen() else cfg.chunkBytes), false)
  }

  /** Every fetch the pump decides starts at an uncovered offset below the ceiling and asks
      for at least one byte. */
  lemma DecisionsAreUseful(sh: Shared, cover: set<nat>, total: Option<nat>, hint: Option<nat>, cfg: Config, demand: int)
    requires cfg.Valid()
    ensures var (kept, first) := DecideFirst(sh, cover, total, cfg);
            first.Some? && first.value.Fetch? ==>
              var f := first.value;
              f.offset in sh.fetchThrough && f.offset !in cover && !sh.PastEof(f.offset) && f.len >= 1
    ensures var a := DecideRest(sh, cover, total, hint, cfg, demand);
            a.Fetch? ==>
              var (lo, bound) := Window(sh, total, hint, cfg);
              && lo <= a.offset && a.offset + a.len <= bound && Span(lo, a.offset) <= cover
              && a.offset !in cover && !sh.PastEof(a.offset) && a.len >= 1
  {
    var (lo, bound) := Window(sh, total, hint, cfg);
    GapIsLeast(cover, lo, bound);
  }

  // ---- the decision, in offsets and fields -----------------------------------------

  /** Queued demand that a fetch can still serve. */
  predicate Wanted(sh: Shared, cover: set<nat>, p: nat) {
    p in sh.fetchThrough && p !in cover && (sh.eofBelow.Some? ==> p < sh.eofBelow.value)
  }

  /** What a fill may reach: read-ahead from the consumer's position, or the head while there is no
      consumer, below the wire total (the hint for want of one) and the ceiling. */
  predicate InReach(sh: Shared, total: Option<nat>, hint: Option<nat>, cfg: Config, p: nat) {
    && (if sh.life.attached then sh.readPos <= p < Min(sh.readPos + cfg.readAhead, U64_MAX) else p < cfg.headBytes)
    && (if total.Some? then p < total.value else hint.Some? ==> p < hint.value)
    && (sh.eofBelow.Some? ==> p < sh.eofBelow.value)
  }

  predicate Hole(sh: Shared, cover: set<nat>, total: Option<nat>, hint: Option<nat>, cfg: Config, p: nat) {
    InReach(sh, total, hint, cfg, p) && p !in cover
  }

  /** A fill starts at the least hole in reach and runs to the end of the reach, or as far as one request
      goes: a probe until something was committed, a chunk from then on. */
  ghost predicate Fills(a: Action, sh: Shared, cover: set<nat>, total: Option<nat>, hint: Option<nat>, cfg: Config) {
    && a.Fetch? && !a.through
    && Hole(sh, cover, total, hint, cfg, a.offset)
    && (forall p: nat :: Hole(sh, cover, total, hint, cfg, p) ==> a.offset <= p)
    && (forall p: nat :: a.offset <= p < a.offset + a.len ==> InReach(sh, total, hint, cfg, p))
    && var longest := if sh.committed == 0 then Min(cfg.probeBytes, cfg.chunkBytes) else cfg.chunkBytes;
       && 1 <= a.len <= longest
       && (a.len == longest || !InReach(sh, total, hint, cfg, a.offset + a.len))
  }

  /** What the pump does next: nothing on a dead session or a whole file, rest on a latched error, demand
      before anything else, yield to other sessions' demand while nobody listens, fill, or rest. */
  ghost predicate Prescribed(a: Action, sh: Shared, cover: set<nat>, total: Option<nat>, hint: Option<nat>, cfg: Config,
                             demand: int)
  {
    if sh.life.terminal.Some? then a == Stop
    else if sh.transientError.Some? then a == Park(false)
    else if total.Some? && forall p :: 0 <= p < total.value ==> p in cover then a == Stop
    else if exists p :: Wanted(sh, cover, p) then
      && a.Fetch? && a == Fetch(a.offset, Min(cfg.probeBytes, cfg.chunkBytes), true)
      && Wanted(sh, cover, a.offset) && forall p :: Wanted(sh, cover, p) ==> a.offset <= p
    else if !sh.life.attached && demand > 0 then a == Park(true)
    else if exists p: nat :: Hole(sh, cover, total, hint, cfg, p) then Fills(a, sh, cover, total, hint, cfg)
    else a == Park(false)
  }

  /** The decision as the code takes it: the two halves one after the other. */
  ghost function Decision(sh: Shared, cover: set<nat>, total: Option<nat>, hint: Option<nat>, cfg: Config,
                          demand: int): Action
  {
    var (kept, first) := DecideFirst(sh, cover, total, cfg);
    if first.Some? then first.value else DecideRest(kept, cover, total, hint, cfg, demand)
  }

  lemma WholeIs(cover: set<nat>, total: Option<nat>)
    ensures Whole(cover, total) <==> total.Some? && forall p :: 0 <= p < total.value ==> p in cover
  {
    if total.Some? {
      GapIsLeast(cover, 0, total.value);
      assert Span(0, total.value) <= cover <==> forall p :: 0 <= p < total.value ==> p in cover;
    }
  }

  lemma WindowIsReach(sh: Shared, total: Option<nat>, hint: Option<nat>, cfg: Config, p: nat)
    ensures var (lo, bound) := Window(sh, total, hint, cfg);
            lo <= p < bound <==> InReach(sh, total, hint, cfg, p)
  {
  }

  lemma RestFills(sh: Shared, cover: set<nat>, total: Option<nat>, hint: Option<nat>, cfg: Config, demand: int)
    requires cfg.Valid() && (sh.life.attached || demand <= 0)
    ensures var a := DecideRest(sh, cover, total, hint, cfg, demand);
            if exists p: nat :: Hole(sh, cover, total, hint, cfg, p) then Fills(a, sh, cover, total, hint, cfg)
            else a == Park(false)
  {
    var (lo, bound) := Window(sh, total, hint, cfg);
    forall p: nat { WindowIsReach(sh, total, hint, cfg, p); }
    GapIsLeast(cover, lo, bound);
    hide Window, InReach, Gap;
    match Gap(cover, lo, bound)
    case None =>
      forall p: nat ensures !Hole(sh, cover, total, hint, cfg, p) {
        assert lo <= p < bound ==> p in Span(lo, bound);
      }
    case Some(gap) =>
      assert Hole(sh, cover, total, hint, cfg, gap);
      forall p: nat | Hole(sh, cover, total, hint, cfg, p) ensures gap <= p {
        assert lo <= p < gap ==> p in Span(lo, gap);
      }
  }

  /** The code's decision is the prescribed one, and no other is. */
  lemma DecisionIsPrescribed(sh: Shared, cover: set<nat>, total: Option<nat>, hint: Option<nat>, cfg: Config,
                             demand: int)
    requires cfg.Valid()
    ensures Prescribed(Decision(sh, cover, total, hint, cfg, demand), sh, cover, total, hint, cfg, demand)
  {
    hide Whole, DecideRest, Fills, Hole;
    WholeIs(cover, total);
    var (kept, first) := DecideFirst(sh, cover, total, cfg);
    assert forall p :: Wanted(sh, cover, p) <==> p in sh.Retain(cover).fetchThrough;
    if first.None? && (sh.life.attached || demand <= 0) {
      RestFills(kept, cover, total, hint, cfg, demand);
      SameReach(sh, kept, cover, total, hint, cfg);
    } else if first.None? {
      RestYields(kept, cover, total, hint, cfg, demand);
    }
  }

  lemma RestYields(sh: Shared, cover: set<nat>, total: Option<nat>, hint: Option<nat>, cfg: Config, demand: int)
    requires !sh.life.attached && demand > 0
    ensures DecideRest(sh, cover, total, hint, cfg, demand) == Park(true)
  {
  }

  /** The queue plays no part in what a fill may reach. */
  lemma SameReach(sh: Shared, kept: Shared, cover: set<nat>, total: Option<nat>, hint: Option<nat>, cfg: Config)
    requires kept == sh.(fetchThrough := kept.fetchThrough, demandPublished := kept.demandPublished)
    ensures forall p: nat :: Hole(kept, cover, total, hint, cfg, p) <==> Hole(sh, cover, total, hint, cfg, p)
    ensures forall a: Action :: Fills(a, kept, cover, total, hint, cfg) <==> Fills(a, sh, cover, total, hint, cfg)
  {
    assert forall p: nat :: InReach(kept, total, hint, cfg, p) <==> InReach(sh, total, hint, cfg, p);
    hide InReach;
  }

  lemma OnlyOnePrescribed(a: Action, b: Action, sh: Shared, cover: set<nat>, total: Option<nat>, hint: Option<nat>,
                          cfg: Config, demand: int)
    requires Prescribed(a, sh, cover, total, hint, cfg, demand) && Prescribed(b, sh, cover, total, hint, cfg, demand)
    ensures a == b
  {
    hide Hole, Fills, Wanted;
    if Fills(a, sh, cover, total, hint, cfg) && Fills(b, sh, cover, total, hint, cfg) {
      OneFill(a, b, sh, cover, total, hint, cfg);
    }
  }

  lemma OneFill(a: Action, b: Action, sh: Shared, cover: set<nat>, total: Option<nat>, hint: Option<nat>, cfg: Config)
    requires Fills(a, sh, cover, total, hint, cfg) && Fills(b, sh, cover, total, hint, cfg)
    ensures a == b
  {
    hide InReach;
    assert a.offset <= b.offset && b.offset <= a.offset;
  }

  // ---- filling a window --------------------------------------------------------------

  /** Uncovered offsets of a window. */
  ghost function Holes(cover: set<nat>, lo: nat, bound: nat): nat {
    |Span(lo, bound) - cover|
  }

  /** Covering an offset shrinks every window it is a hole of. */
  lemma FillShrinks(before: set<nat>, after: set<nat>, lo: nat, bound: nat, gap: nat)
    requires before <= after && gap !in before && gap in after
    ensures Holes(after, lo, bound) + (if lo <= gap < bound then 1 else 0) <= Holes(before, lo, bound)
  {
    var a, b := Span(lo, bound) - after, Span(lo, bound) - before;
    SubsetCard(a, b - {gap});
  }

  lemma {:induction false} SubsetCard(a: set<nat>, b: set<nat>)
    requires a <= b
    ensures |a| <= |b|
  {
    if a != {} {
      var x :| x in a;
      SubsetCard(a - {x}, b - {x});
    }
  }
}
