/** The session as the object the sources mutate: each method is one critical
    section, proved against the pure step it performs. */
module SessionObjects {
  import opened Prelude
  import opened Extents
  import opened SessionState
  import Seam
  import Store = SparseStore

  /** Fetch-through backpressure shared by a registry's sessions. `drains` counts the
      `drained` notifications sent. */
  class PoolSignals {
    var demand: int
    var drains: nat

    constructor ()
      ensures demand == 0 && drains == 0
    {
      demand, drains := 0, 0;
    }
  }

  /** What a resolve names: whose track, in which container and encode. */
  datatype Source = Source(track: nat, provider: nat, mime: nat, itag: Option<nat>)

  /** Mint bookkeeping, and the source the session is pinned to. */
  datatype PumpCore = PumpCore(mintsUsed: nat, zeroProgress: nat, committedAtMint: nat, source: Source)
  {
    /** The source once a re-mint's answer is adopted; an encode named late is not drift. */
    function Adopt(next: Source): Result<PumpCore, StreamError> {
      if next.track != source.track || next.provider != source.provider then Err(InvalidResponse)
      else if next.mime != source.mime then Err(InvalidResponse)
      else if source.itag.Some? && next.itag != source.itag then Err(InvalidResponse)
      else Ok(this.(source := source.(itag := next.itag)))
    }

    /** Re-mints the budget still allows. */
    function Remaining(budget: nat): nat {
      if mintsUsed <= budget then budget - mintsUsed else 0
    }
  }

  /** What the end of a session sets off: its files evicted, its cancel token fired, its pump aborted. */
  datatype Teardown = Teardown(evicted: bool, cancelled: bool, pumping: bool)

  /** A consumer that attaches under `abandon`'s predicate, and may have closed again by its next pass. */
  datatype Rival = Rival(pos: nat, closes: Option<nat>)

  class SessionInner {
    const cfg: Config
    const meta: Store.SidecarMeta
    const store: Store.SparseStore
    const pool: PoolSignals
    var sh: Shared
    var core: PumpCore
    /** Notifications sent to the readers' condvar. */
    var readerNotes: nat
    /** The permit stored in the pump's `Notify`. */
    var permit: bool
    /** The head mark: set once, by the commit or the decision that first finds the head covered. */
    var headReady: bool
    var teardown: Teardown

    ghost predicate Valid() reads this, store {
      store.Valid()
    }

    constructor (cfg: Config, meta: Store.SidecarMeta, pool: PoolSignals, source: Source, hint: Option<nat>, now: nat)
      ensures Valid() && fresh(store)
      ensures this.cfg == cfg && this.meta == meta && this.pool == pool
      ensures sh == NewShared(now) && core == PumpCore(0, 0, 0, source) && store.Content() == map[]
      ensures !headReady && teardown == Teardown(false, false, true)
      ensures store.total == None && store.hintTotal == hint
    {
      this.cfg, this.meta, this.pool := cfg, meta, pool;
      store := new Store.SparseStore(hint);
      sh, core := NewShared(now), PumpCore(0, 0, 0, source);
      readerNotes, permit, headReady := 0, false, false;
      teardown := Teardown(false, false, true);
    }

    // ---- demand ------------------------------------------------------------------

    /** What publishing the difference between two queues does to the shared pool. */
    twostate predicate PoolMoved(before: nat, after: nat)
      reads pool
    {
      && pool.demand == old(pool.demand) + after - before
      && pool.drains == old(pool.drains) + if after != before && pool.demand <= 0 then 1 else 0
    }

    /** Apply this session's queue-size delta to the shared counter. */
    method PublishDemand()
      modifies this`sh, pool
      ensures sh == old(sh).Publish()
      ensures PoolMoved(old(sh.demandPublished), sh.demandPublished)
    {
      var len := |sh.fetchThrough|;
      var delta := len - sh.demandPublished;
      if delta == 0 {
        return;
      }
      sh := sh.(demandPublished := len);
      pool.demand := pool.demand + delta;
      if pool.demand <= 0 {
        pool.drains := pool.drains + 1;
      }
    }

    /** Register a demand read: signal only when the position was not queued. */
    method QueueThrough(pos: nat)
      modifies this`sh, this`permit, pool
      ensures sh == old(sh).Queue(pos)
      ensures PoolMoved(old(sh.demandPublished), sh.demandPublished)
      ensures permit == (old(permit) || pos !in old(sh.fetchThrough) || old(sh.fetchThrough[pos]) == 0)
      ensures sh.readPos == Max(old(sh.readPos), pos)
      ensures sh.fetchThrough
                == old(sh.fetchThrough)[pos := (if pos in old(sh.fetchThrough) then old(sh.fetchThrough[pos])
                                                              else 0) + 1]
    {
      var n := if pos in sh.fetchThrough then sh.fetchThrough[pos] else 0;
      n := n + 1;
      sh := sh.(fetchThrough := sh.fetchThrough[pos := n]);
      sh := sh.(readPos := Max(sh.readPos, pos));
      if n == 1 {
        PublishDemand();
        permit := true;
      }
    }

    /** Release one hold: only the last departing holder dequeues and republishes. */
    method DropThrough(pos: nat)
      modifies this`sh, pool
      ensures sh == old(sh).Drop(pos)
      ensures PoolMoved(old(sh.demandPublished), sh.demandPublished)
    {
      var last := false;
      if pos in sh.fetchThrough {
        var n := sh.fetchThrough[pos];
        n := if n == 0 then 0 else n - 1;
        last := n == 0;
        if !last {
          sh := sh.(fetchThrough := sh.fetchThrough[pos := n]);
        }
      }
      if last {
        sh := sh.(fetchThrough := sh.fetchThrough - {pos});
        PublishDemand();
      }
    }

    method MarkEofBelow(at: nat)
      modifies this`sh, this`readerNotes, this`permit, pool
      ensures sh == old(sh).MarkEof(at)
      ensures sh.eofBelow == Some(if old(sh.eofBelow).Some? then Min(old(sh.eofBelow.value), at) else at)
      ensures forall p :: p in sh.fetchThrough <==> p in old(sh.fetchThrough) && p < sh.eofBelow.value
      ensures PoolMoved(old(sh.demandPublished), sh.demandPublished)
      ensures readerNotes == old(readerNotes) + 1 && permit
    {
      sh := sh.(eofBelow := Some(if sh.eofBelow.Some? then Min(sh.eofBelow.value, at) else at));
      var b := sh.eofBelow.value;
      sh := sh.(fetchThrough := map p | p in sh.fetchThrough && p < b :: sh.fetchThrough[p]);
      assert sh.fetchThrough == old(sh).MarkEof(at).fetchThrough;
      PublishDemand();
      readerNotes, permit := readerNotes + 1, true;
    }

    /** `retain` over the queue, asking the store about each position. */
    method RetainUncovered()
      requires Valid()
      modifies this`sh, pool
      ensures sh == old(sh).Retain(store.Content().Keys)
      ensures sh == old(sh).(fetchThrough := sh.fetchThrough, demandPublished := sh.demandPublished)
      ensures PoolMoved(old(sh.demandPublished), sh.demandPublished)
    {
      var all := sh.fetchThrough;
      var rest, kept := all.Keys, map[];
      while rest != {}
        invariant rest <= all.Keys
        invariant sh == old(sh) && unchanged(pool)
        invariant forall p :: p in kept <==> p in all && p !in rest && p !in store.Content() && !sh.PastEof(p)
        invariant forall p :: p in kept ==> kept[p] == all[p]
        decreases rest
      {
        var p :| p in rest;
        var covered := store.Covers(p);
        if !covered && !sh.PastEof(p) {
          kept := kept[p := all[p]];
        }
        rest := rest - {p};
      }
      assert kept == old(sh).Retain(store.Content().Keys).fetchThrough;
      sh := sh.(fetchThrough := kept);
      PublishDemand();
    }

    // ---- lifecycle -----------------------------------------------------------------

    /** End the session when `allowed` holds: first error wins, its demand is drained, its files go
        under the same locks, and whatever it had running is cancelled. */
    method TerminateIf(e: StreamError, allowed: bool) returns (ran: bool)
      modifies this`sh, this`readerNotes, this`permit, this`teardown, pool
      ensures ran == (old(sh.life.Live()) && allowed)
      ensures sh.life == if ran then old(sh.life).(terminal := Some(e)) else old(sh.life)
      ensures sh == if ran then old(sh).Terminate(e) else old(sh)
      ensures PoolMoved(old(sh.demandPublished), sh.demandPublished)
      ensures readerNotes == old(readerNotes) + (if ran then 1 else 0) && permit == (old(permit) || ran)
      ensures teardown == if ran then Teardown(true, true, false) else old(teardown)
    {
      if sh.life.terminal.Some? || !allowed {
        return false;
      }
      sh := sh.(life := sh.life.(terminal := Some(e)));
      sh := sh.(fetchThrough := map[]);
      PublishDemand();
      teardown := teardown.(evicted := true);
      teardown := teardown.(cancelled := true);
      readerNotes, permit := readerNotes + 1, true;
      teardown := teardown.(pumping := false);
      return true;
    }

    method ClaimIfLive() returns (claimed: bool)
      modifies this`sh
      ensures claimed == old(sh.life.Live())
      ensures sh == if claimed then old(sh).(life := old(sh).life.Claim()) else old(sh)
    {
      if sh.life.terminal.Some? {
        return false;
      }
      sh := sh.(life := sh.life.(claimed := true, abandoned := false));
      return true;
    }

    /** `abandon`: mark an attached session, end a detached one. A consumer that attaches between a
        pass's check and its `terminate_if` wins, and the next pass looks again; `rivals` are those
        that do. */
    method Abandon(rivals: seq<Rival>)
      modifies this`sh, this`readerNotes, this`permit, this`teardown, pool
      ensures sh.life == Abandoned(old(sh).life, rivals)
      ensures sh.life.Live() ==> sh.life.attached && sh.life.abandoned && unchanged(`teardown)
      ensures rivals == [] ==> sh == old(sh).(life := old(sh).life.Abandon(),
                                             fetchThrough := sh.fetchThrough, demandPublished := sh.demandPublished)
      ensures if old(sh.life.Live()) && !sh.life.Live()
              then sh.fetchThrough == map[] && sh.demandPublished == 0 && teardown == Teardown(true, true, false)
              else sh.fetchThrough == old(sh.fetchThrough)
      ensures sh == old(sh).(life := sh.life, fetchThrough := sh.fetchThrough, demandPublished := sh.demandPublished,
                             readPos := sh.readPos, transientError := sh.transientError)
      ensures PoolMoved(old(sh.demandPublished), sh.demandPublished)
    {
      var i := 0;
      while true
        invariant 0 <= i <= |rivals| && (i == 0 ==> sh == old(sh) && unchanged(this))
        invariant sh == old(sh).(life := sh.life, readPos := sh.readPos, transientError := sh.transientError)
        invariant Abandoned(old(sh).life, rivals) == Abandoned(sh.life, rivals[i..])
        invariant sh.life.Live() == old(sh.life.Live())
        invariant sh.fetchThrough == old(sh.fetchThrough) && sh.demandPublished == old(sh.demandPublished)
        invariant pool.demand == old(pool.demand) && pool.drains == old(pool.drains) && teardown == old(teardown)
        decreases |rivals| - i
      {
        if sh.life.terminal.Some? {
          return;
        }
        if sh.life.attached {
          sh := sh.(life := sh.life.(abandoned := true));
          return;
        }
        if i < |rivals| {
          var r := Attach(rivals[i].pos, false);
        }
        var ended := TerminateIf(Cancelled, !sh.life.attached);
        if ended {
          return;
        }
        assert rivals[i..][1..] == rivals[i + 1..];
        if rivals[i].closes.Some? {
          Close(rivals[i].closes.value);
        }
        i := i + 1;
      }
    }

    /** `attach` on a fresh-enough prepare; a stale one ends `Expired`. */
    method Attach(position: nat, stale: bool) returns (r: Result<Option<nat>, StreamError>)
      modifies this`sh, this`readerNotes, this`permit, this`teardown, pool
      ensures old(sh.life.terminal.Some?) ==> r == Err(old(sh.life.terminal.value)) && sh == old(sh)
      ensures old(sh.life.Live()) && stale && !old(sh.life.everAttached) ==>
                r == Err(Expired) && sh == old(sh).Terminate(Expired)
      ensures old(sh.life.Live()) && (!stale || old(sh.life.everAttached)) ==>
                && sh == old(sh).(life := old(sh).life.Attach(), readPos := position, transientError := None)
                && permit
                && var t := if store.total.Some? then store.total else store.hintTotal;
                   r == Ok(if t.Some? then Some(Max(t.value - position, 0)) else None)
      ensures PoolMoved(old(sh.demandPublished), sh.demandPublished)
      ensures r != Err(Expired) ==> unchanged(pool) && unchanged(`teardown)
    {
      if sh.life.terminal.Some? {
        return Err(sh.life.terminal.value);
      }
      if !sh.life.everAttached && stale {
        var ended := TerminateIf(Expired, true);
        return Err(Expired);
      }
      sh := sh.(life := sh.life.(attached := true, detachedSince := None));
      sh := sh.(readPos := position, transientError := None);
      if !sh.life.everAttached {
        sh := sh.(life := sh.life.(everAttached := true));
      }
      permit := true;
      var total := if store.total.Some? then store.total else store.hintTotal;
      return Ok(if total.Some? then Some(Max(total.value - position, 0)) else None);
    }

    method Close(now: nat)
      modifies this`sh, this`readerNotes, this`permit
      ensures sh == old(sh).(life := old(sh).life.Close(now))
      ensures old(sh.life.attached) ==>
                && !sh.life.attached && sh.life.detachedSince == Some(now)
                && sh.life.detachEpoch == old(sh.life.detachEpoch) + 1
                && sh.life.claimed == (old(sh.life.claimed) && !old(sh.life.abandoned)) && permit
      ensures readerNotes == old(readerNotes) + if old(sh.life.attached) then 1 else 0
    {
      if sh.life.attached {
        sh := sh.(life := sh.life.(attached := false, detachedSince := Some(now),
                                   detachEpoch := sh.life.detachEpoch + 1));
        if sh.life.abandoned {
          sh := sh.(life := sh.life.(claimed := false, abandoned := false));
        }
        readerNotes, permit := readerNotes + 1, true;
      }
    }

    method StallTransient(e: StreamError)
      modifies this`sh, this`readerNotes, this`permit
      ensures sh == if old(sh.life.Live()) then old(sh).(transientError := Some(e)) else old(sh)
      ensures readerNotes == old(readerNotes) + if old(sh.life.Live()) then 1 else 0
    {
      if sh.life.terminal.Some? {
        return;
      }
      sh := sh.(transientError := Some(e));
      readerNotes, permit := readerNotes + 1, true;
    }

    /** Record a provider's `Retry-After` window; it only ever extends. */
    method SetCooldown(until: nat)
      modifies this`sh
      ensures sh == old(sh).(notBefore := Some(if old(sh.notBefore).Some? then Max(old(sh.notBefore).value, until)
                                               else until))
    {
      sh := sh.(notBefore := Some(if sh.notBefore.Some? then Max(sh.notBefore.value, until) else until));
    }

    // ---- reads and commits -----------------------------------------------------------

    /** This object seen as a session of the transition system. */
    ghost function View(res: seq<Byte>): Seam.Session
      reads this, store
      requires Valid()
    {
      Seam.NewSession(cfg, res, store.hintTotal, 0).(sh := sh, data := store.Content(), total := store.total,
                                                     permit := permit)
    }

    /** The read is of this attachment of a live session. */
    predicate Reads(rd: Seam.Reader) reads this {
      sh.life.terminal.None? && sh.life.detachEpoch == rd.epoch
    }

    /** The wire has shown that `pos` is at or past the end. */
    predicate AtEnd(pos: nat) reads this, store {
      (store.total.Some? && pos >= store.total.value) || (sh.eofBelow.Some? && pos >= sh.eofBelow.value)
    }

    /** One pass of the read loop: the verdict of the transition system, on the live state. */
    method ReadPass(rd: Seam.Reader, ioFails: bool) returns (out: Option<Seam.Outcome>)
      requires Valid() && rd.maxLen > 0
      modifies this`sh, this`permit
      ensures out == Seam.Verdict(old(View([])), rd, ioFails).1
      ensures View([]) == Seam.Verdict(old(View([])), rd, ioFails).0
      ensures old(sh.life.terminal.Some?) ==> out == Some(Seam.Failure(old(sh.life.terminal.value)))
      ensures old(sh.life.terminal.None? && sh.life.detachEpoch != rd.epoch) ==> out == Some(Seam.Failure(Cancelled))
      ensures old(Reads(rd) && rd.pos in store.Content()) ==>
                out == if ioFails then Some(Seam.Failure(Internal))
                       else Some(Seam.Bytes(Store.Serve(old(store.Content()), rd.pos, rd.maxLen)))
      ensures old(Reads(rd) && rd.pos !in store.Content() && AtEnd(rd.pos)) ==> out == Some(Seam.Bytes([]))
      ensures old(Reads(rd) && rd.pos !in store.Content() && !AtEnd(rd.pos)) ==>
                && out == (if old(sh.transientError).Some? then Some(Seam.Failure(old(sh.transientError.value)))
                           else None)
                && sh == old(sh).(transientError := None) && permit == (old(permit) || out.Some?)
      ensures out.Some? && out.value.Bytes? && out.value.bytes != [] ==>
                permit && sh.readPos >= old(sh.readPos) && sh.readPos >= Min(rd.pos + |out.value.bytes|, U64_MAX)
      ensures old(!Reads(rd) || rd.pos in store.Content() || AtEnd(rd.pos)) ==>
                sh == old(sh).(readPos := sh.readPos) && (permit != old(permit) ==> old(rd.pos in store.Content()))
    {
      if sh.life.terminal.Some? {
        return Some(Seam.Failure(sh.life.terminal.value));
      }
      if sh.life.detachEpoch != rd.epoch {
        return Some(Seam.Failure(Cancelled));
      }
      var covered := store.Covers(rd.pos);
      if covered {
        var served := store.ReadAt(rd.pos, rd.maxLen, ioFails);
        if served.Err? {
          return Some(Seam.Failure(served.error));
        }
        sh := sh.(readPos := Max(sh.readPos, SatAdd(rd.pos, |served.value|)));
        permit := true;
        return Some(Seam.Bytes(served.value));
      }
      if store.total.Some? && rd.pos >= store.total.value {
        return Some(Seam.Bytes([]));
      }
      if sh.eofBelow.Some? && rd.pos >= sh.eofBelow.value {
        return Some(Seam.Bytes([]));
      }
      if sh.transientError.Some? {
        var e := sh.transientError.value;
        sh := sh.(transientError := None);
        permit := true;
        return Some(Seam.Failure(e));
      }
      return None;
    }

    /** Commit fetched bytes: store first, then the marks, then the notify; `kick` asks for the persist
        worker once the head is first complete or a flush is due. */
    method Commit(offset: U64, bytes: seq<Byte>, fault: Option<nat>) returns (r: Result<(), StreamError>, kick: bool)
      requires Valid() && bytes != []
      requires fault.Some? ==> fault.value <= |bytes|
      modifies this`sh, this`readerNotes, this`headReady, store
      ensures Valid() && store.total == old(store.total) && store.hintTotal == old(store.hintTotal)
      ensures r.Ok? <==> fault.None? && offset + |bytes| <= U64_MAX
      ensures r.Ok? ==> store.Content() == old(store.Content()) + Store.Placed(offset, bytes)
      ensures r.Err? ==> r.error == Internal && sh == old(sh)
                         && store.Content() == Store.Overwritten(old(store.Content()), offset,
                                                                 if fault.Some? then bytes[..fault.value] else bytes)
      ensures r.Ok? ==>
                sh == if old(sh.life.Live()) then old(sh).(committed := old(sh).committed + |bytes|) else old(sh)
      ensures readerNotes == old(readerNotes) + if r.Ok? && old(sh.life.Live()) then 1 else 0
      ensures headReady == (old(headReady) || (r.Ok? && old(sh.life.Live()) && HeadCovered()))
      ensures kick <==> r.Ok? && old(sh.life.Live()) && ((HeadCovered() && !old(headReady)) || store.PersistDue())
      ensures r.Ok? ==>
                (store.PersistDue()
                 <==> !old(store.everPersisted) || old(store.dirtyBytes) + |bytes| >= 2 * 1024 * 1024)
    {
      hide Store.SparseStore.Content;
      r := store.Insert(offset, bytes, fault);
      if r.Err? {
        return r, false;
      }
      var headCovered := store.HeadCovered(cfg.headBytes);
      var due := store.PersistDue();
      if sh.life.terminal.Some? {
        return r, false;
      }
      sh := sh.(committed := sh.committed + |bytes|);
      var becameReady := headCovered && !headReady;
      if becameReady {
        headReady := true;
      }
      readerNotes := readerNotes + 1;
      kick := becameReady || due;
    }

    /** Every offset the prepare policy wants at the front is covered. */
    ghost predicate HeadCovered()
      reads this, store
      requires Valid()
    {
      forall p :: 0 <= p < cfg.headBytes ==> p in store.Content()
    }

    // ---- the pump's decision ------------------------------------------------------------

    /** The pump's next action: demand first, then the fill window, then park. */
    method NextAction() returns (a: Action)
      requires Valid()
      modifies this`sh, this`headReady, pool
      ensures var (kept, first) := DecideFirst(old(sh), store.Content().Keys, store.total, cfg);
              && sh == kept
              && a == if first.Some? then first.value
                      else DecideRest(kept, store.Content().Keys, store.total, store.hintTotal, cfg, pool.demand)
      ensures PoolMoved(old(sh.demandPublished), sh.demandPublished)
      ensures headReady == (old(headReady) || (Satisfied(a, sh) && !sh.life.attached))
      ensures cfg.Valid() ==>
                Prescribed(a, old(sh), store.Content().Keys, store.total, store.hintTotal, cfg, pool.demand)
    {
      hide Whole, DecideRest, Least, Shared.Retain, Prescribed;
      ghost var cover := store.Content().Keys;
      if cfg.Valid() {
        DecisionIsPrescribed(sh, cover, store.total, store.hintTotal, cfg, pool.demand);
      }
      if sh.life.terminal.Some? {
        return Stop;
      }
      if sh.transientError.Some? {
        return Park(false);
      }
      var whole := WholeFile();
      if whole {
        headReady := headReady || !sh.life.attached;
        return Stop;
      }
      RetainUncovered();
      if cfg.Valid() {
        DecisionIsPrescribed(old(sh), cover, store.total, store.hintTotal, cfg, pool.demand);
      }
      if sh.fetchThrough.Keys != {} {
        var pos := FirstQueued(sh.fetchThrough.Keys);
        return Fetch(pos, cfg.ProbeLen(), true);
      }
      a := FillOrPark();
    }

    /** The first key of the ordered queue. */
    static method FirstQueued(keys: set<nat>) returns (pos: nat)
      requires keys != {}
      ensures pos == Least(keys)
    {
      ghost var k := Least(keys);
      assert k in keys && forall q :: q in keys ==> k <= q;
      pos :| pos in keys && forall q :: q in keys ==> pos <= q;
      assert pos <= k && k <= pos;
    }

    method WholeFile() returns (whole: bool)
      requires Valid()
      ensures whole <==> Whole(store.Content().Keys, store.total)
    {
      if store.total.None? {
        return false;
      }
      var gap := store.FirstGap(0, store.total.value);
      return gap.None?;
    }

    /** The speculative half: yield to the pool's demand, else fill the window's first hole. */
    method FillOrPark() returns (a: Action)
      requires Valid()
      modifies this`headReady
      ensures a == DecideRest(sh, store.Content().Keys, store.total, store.hintTotal, cfg, pool.demand)
      ensures !a.Stop? && headReady == (old(headReady) || (a == Park(false) && !sh.life.attached))
      ensures cfg.Valid() && (sh.life.attached || pool.demand <= 0) ==>
                var (cover, total, hint) := (store.Content().Keys, store.total, store.hintTotal);
                if exists p: nat :: Hole(sh, cover, total, hint, cfg, p) then Fills(a, sh, cover, total, hint, cfg)
                else a == Park(false)
    {
      hide Fills, Hole;
      if cfg.Valid() && (sh.life.attached || pool.demand <= 0) {
        RestFills(sh, store.Content().Keys, store.total, store.hintTotal, cfg, pool.demand);
      }
      if !sh.life.attached && pool.demand > 0 {
        return Park(true);
      }
      var (lo, bound) := Window(sh, store.total, store.hintTotal, cfg);
      var gap := store.FirstGap(lo, bound);
      if gap.None? {
        headReady := headReady || !sh.life.attached;
        return Park(false);
      }
      GapIsLeast(store.Content().Keys, lo, bound);
      var cap := if sh.committed == 0 then cfg.ProbeLen() else cfg.chunkBytes;
      return Fetch(gap.value, Min(bound - gap.value, cap), false);
    }

    // ---- mints ---------------------------------------------------------------------------

    /** Bookkeep a re-mint attempt against the session's two budgets. */
    method BeginMint() returns (r: Result<(), StreamError>)
      modifies this`core
      ensures (core, r) == MintStep(old(core), sh.committed, cfg)
      ensures r == if Spent(old(core), sh.committed, cfg) then Err(StreamsCapped) else Ok(())
      ensures r.Ok? ==> core.mintsUsed == old(core).mintsUsed + 1 <= cfg.mintBudget
    {
      if core.mintsUsed > 0 {
        if sh.committed == core.committedAtMint {
          core := core.(zeroProgress := core.zeroProgress + 1);
          if core.zeroProgress > cfg.maxZeroProgressMints {
            return Err(StreamsCapped);
          }
        } else {
          core := core.(zeroProgress := 0);
        }
      }
      core := core.(committedAtMint := sh.committed);
      core := core.(mintsUsed := core.mintsUsed + 1);
      if core.mintsUsed > cfg.mintBudget {
        return Err(StreamsCapped);
      }
      return Ok(());
    }
  }

  /** A verdict that leaves a live, unlatched session nothing to fetch. */
  predicate Satisfied(a: Action, sh: Shared) {
    sh.life.Live() && sh.transientError.None? && (a == Stop || a == Park(false))
  }

  /** The lifecycle an `abandon` leaves when these rivals win its races. */
  function Abandoned(life: Life, rivals: seq<Rival>): (after: Life)
    ensures after.Live() ==> life.Live() && after.attached && after.abandoned
    ensures !after.Live() ==> after.terminal == if life.Live() then Some(Cancelled) else life.terminal
    decreases rivals
  {
    if !life.Live() || life.attached || rivals == [] then life.Abandon()
    else
      var taken := life.Attach();
      Abandoned(if rivals[0].closes.Some? then taken.Close(rivals[0].closes.value) else taken, rivals[1..])
  }

  /** One rival that stays keeps the session alive, marked for its close; one that leaves again is as if
      it had come and gone before the cancel. */
  lemma AbandonYields(life: Life, rival: Rival, rest: seq<Rival>)
    requires life.Live() && !life.attached
    ensures rival.closes.None? ==> Abandoned(life, [rival] + rest) == life.Attach().(abandoned := true)
    ensures rival.closes.Some? ==>
              Abandoned(life, [rival] + rest) == Abandoned(life.Attach().Close(rival.closes.value), rest)
  {
    assert ([rival] + rest)[1..] == rest;
  }

  /** What one `begin_mint` does to the counters. */
  function MintStep(core: PumpCore, committed: nat, cfg: Config): (PumpCore, Result<(), StreamError>) {
    var stuck := core.mintsUsed > 0 && committed == core.committedAtMint;
    var zero := if core.mintsUsed == 0 then core.zeroProgress else if stuck then core.zeroProgress + 1 else 0;
    if stuck && zero > cfg.maxZeroProgressMints then (core.(zeroProgress := zero), Err(StreamsCapped))
    else
      (core.(mintsUsed := core.mintsUsed + 1, zeroProgress := zero, committedAtMint := committed),
       if core.mintsUsed + 1 > cfg.mintBudget then Err(StreamsCapped) else Ok(()))
  }

  /** The budgets refuse another mint: all are used, or too many in a row brought no byte. */
  predicate Spent(core: PumpCore, committed: nat, cfg: Config) {
    || core.mintsUsed >= cfg.mintBudget
    || (core.mintsUsed > 0 && committed == core.committedAtMint && core.zeroProgress >= cfg.maxZeroProgressMints)
  }

  /** A mint is granted exactly while the budgets last; it is booked at the byte count it found, and the
      run of fruitless ones goes on only if none was committed since the last. */
  lemma MintGranted(core: PumpCore, committed: nat, cfg: Config)
    ensures var (after, r) := MintStep(core, committed, cfg);
            && r == (if Spent(core, committed, cfg) then Err(StreamsCapped) else Ok(()))
            && after.source == core.source
            && (r.Ok? ==>
                  && after.mintsUsed == core.mintsUsed + 1 && after.committedAtMint == committed
                  && (core.mintsUsed > 0 ==>
                        after.zeroProgress == if committed == core.committedAtMint then core.zeroProgress + 1 else 0)
                  && (core.mintsUsed == 0 ==> after.zeroProgress == core.zeroProgress))
  {
  }
}
