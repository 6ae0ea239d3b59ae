/** No demand is lost or leaked, and no wakeup is lost: the invariants of one session,
    kept by every action. */
module SeamDemand {
  import opened Prelude
  import opened Extents
  import opened SessionState
  import opened Seam
  import SparseStore
  import Wire

  // ---- counting holds ------------------------------------------------------------

  function Holds(rd: Reader, p: nat): nat {
    if rd.holding && rd.pos == p then 1 else 0
  }

  /** How many readers hold a count on `p`. */
  function Holders(rs: seq<Reader>, p: nat): nat {
    if rs == [] then 0 else Holders(rs[..|rs| - 1], p) + Holds(rs[|rs| - 1], p)
  }

  lemma {:induction false} HoldersUpdate(rs: seq<Reader>, r: nat, rd: Reader, p: nat)
    requires r < |rs|
    ensures Holders(rs[r := rd], p) == Holders(rs, p) - Holds(rs[r], p) + Holds(rd, p)
  {
    var n := |rs| - 1;
    if r == n {
      assert rs[r := rd][..n] == rs[..n];
    } else {
      assert rs[r := rd][..n] == rs[..n][r := rd];
      HoldersUpdate(rs[..n], r, rd, p);
    }
  }

  lemma {:induction false} HoldersSame(rs: seq<Reader>, ts: seq<Reader>, p: nat)
    requires |rs| == |ts| && forall i :: 0 <= i < |rs| ==> Holds(rs[i], p) == Holds(ts[i], p)
    ensures Holders(rs, p) == Holders(ts, p)
  {
    if rs != [] {
      HoldersSame(rs[..|rs| - 1], ts[..|ts| - 1], p);
    }
  }

  lemma {:induction false} HoldersPositive(rs: seq<Reader>, r: nat)
    requires r < |rs| && rs[r].holding
    ensures Holders(rs, rs[r].pos) > 0
  {
    if r < |rs| - 1 {
      HoldersPositive(rs[..|rs| - 1], r);
    }
  }

  // ---- the invariant --------------------------------------------------------------

  /** A session whose lock is free, held by exactly the one reader past its check, or by
      the pump mid-decision. */
  ghost predicate LockInv(s: Session) {
    && (s.holder == ByPump <==> s.pump == Picking)
    && (forall r :: 0 <= r < |s.readers| ==> (s.readers[r].pc in {Checked, Queued} <==> s.holder == ByReader(r)))
    && (s.holder.ByReader? ==> s.holder.r < |s.readers|)
  }

  ghost predicate ReaderInv(rd: Reader) {
    && (rd.holding ==> rd.pc in {Checked, Queued, Waiting, Woken})
    && (rd.pc in {Queued, Waiting, Woken} ==> rd.holding)
    && (rd.pc != Done ==> rd.maxLen > 0)
    && (rd.pc == Done <==> rd.out.Some?)
  }

  /** Past its check a reader knows, while it holds the lock, that nothing else answers it;
      only a store write can still cover its position, and then a notify is owed. */
  ghost predicate CheckHolds(s: Session, rd: Reader) {
    && s.sh.life.Live() && rd.epoch == s.sh.life.detachEpoch && s.sh.transientError.None?
    && !s.sh.PastEof(rd.pos)
    && (rd.pos in s.data ==> s.stored != multiset{})
    && (rd.pc == Queued ==> rd.pos in s.sh.fetchThrough)
    && (rd.pos in s.sh.fetchThrough || Holders(s.readers, rd.pos) == 0)
  }

  /** The queue entry of `p` counts its holders exactly, or is gone because `p` is answerable. */
  ghost predicate Balanced(s: Session, p: nat) {
    if p in s.sh.fetchThrough then s.sh.fetchThrough[p] == Holders(s.readers, p) > 0
    else Holders(s.readers, p) == 0 || p in s.data || s.sh.PastEof(p)
  }

  ghost predicate DemandInv(s: Session) {
    && s.sh.demandPublished == |s.sh.fetchThrough|
    && (if s.sh.life.Live() then forall p: nat :: Balanced(s, p) else s.sh.fetchThrough == map[])
  }

  /** Something has happened that a parked reader must learn about. */
  ghost predicate MustWake(s: Session, rd: Reader) {
    || !s.sh.life.Live()
    || rd.epoch != s.sh.life.detachEpoch
    || s.sh.transientError.Some?
    || s.sh.PastEof(rd.pos)
    || rd.pos in s.data
  }

  /** A notify is still to come: owed outright, or by a commit that will mark and then notify. */
  ghost predicate NotifyComing(s: Session) {
    s.notes > 0 || (s.sh.life.Live() && s.stored != multiset{})
  }

  /** No lost wakeup: a parked reader is only ever parked on something that still holds, or a
      notify is on its way. */
  ghost predicate WakeInv(s: Session) {
    forall r :: 0 <= r < |s.readers| ==>
      && (s.readers[r].pc == Waiting && MustWake(s, s.readers[r]) ==> NotifyComing(s))
      && (s.readers[r].pc == Waiting && MustWake(s, s.readers[r]) && s.readers[r].pos !in s.data ==> s.notes > 0)
      && (s.readers[r].pc in {Checked, Queued} ==> CheckHolds(s, s.readers[r]))
  }

  /** A pump that stopped on a live session left the whole resource behind. */
  ghost predicate StopInv(s: Session) {
    s.pump == Stopped && s.sh.life.Live() ==> Whole(s.data.Keys, s.total)
  }

  /** A pump that parked, for whatever reason, on a live session with demand of its own and no latched
      error has a permit waiting for it. */
  ghost predicate PermitInv(s: Session) {
    s.sh.life.Live() && s.sh.transientError.None? && s.sh.fetchThrough.Keys != {} ==>
      && (Resting(s.pump) ==> s.permit)
      && s.pump != Picking
  }

  /** Parked, or on its way into the park that yields to other sessions' demand. */
  predicate Resting(pump: PumpPc) {
    pump.Parked? || pump.DrainDecided? || pump.DrainListening? || pump.DrainWaiting?
  }

  ghost predicate Inv(s: Session) {
    && LockInv(s)
    && (forall r :: 0 <= r < |s.readers| ==> ReaderInv(s.readers[r]))
    && DemandInv(s)
    && WakeInv(s)
    && StopInv(s)
    && PermitInv(s)
  }

  lemma InitInv(cfg: Config, res: seq<Byte>, hint: Option<nat>, now: nat)
    ensures Inv(NewSession(cfg, res, hint, now))
  {
  }

  // ---- readers ---------------------------------------------------------------------

  lemma BeginKeeps(s: Session, pos: nat, maxLen: nat)
    requires Inv(s)
    ensures Inv(DoReadBegin(s, pos, maxLen))
  {
    var t := DoReadBegin(s, pos, maxLen);
    forall p: nat ensures Holders(t.readers, p) == Holders(s.readers, p) {
      assert t.readers[..|t.readers| - 1] == s.readers;
    }
    assert forall p: nat :: Balanced(s, p) ==> Balanced(t, p);
  }

  /** Leaving `read` releases exactly this reader's hold. */
  lemma FinishKeeps(s: Session, r: nat, rd: Reader, out: Outcome)
    requires Inv(s) && r < |s.readers|
    requires s.holder == Free || s.holder == ByReader(r)
    requires rd.pos == s.readers[r].pos && rd.holding == s.readers[r].holding && rd.maxLen == s.readers[r].maxLen
    ensures Inv(Finish(s, r, rd, out))
  {
    var t := Finish(s, r, rd, out);
    forall p: nat ensures Holders(t.readers, p) == Holders(s.readers, p) - Holds(s.readers[r], p) {
      HoldersUpdate(s.readers, r, t.readers[r], p);
    }
    forall p: nat | s.sh.life.Live() ensures Balanced(t, p) {
      assert Balanced(s, p);
    }
    assert forall q :: 0 <= q < |t.readers| && q != r ==> t.readers[q] == s.readers[q];
  }

  lemma CheckKeeps(s: Session, r: nat, ioFails: bool)
    requires Inv(s) && Enabled(s, ReadCheck(r, ioFails))
    ensures Inv(DoReadCheck(s, r, ioFails))
  {
    var rd := Anchored(s, s.readers[r]);
    var (t, out) := Verdict(s, rd, ioFails);
    if out.Some? {
      InvIgnores(s, t);
      FinishKeeps(t, r, rd, out.value);
    } else {
      ParkCandidate(s, r);
    }
  }

  /** Read position, permit and hint play no part, and clearing a latch only removes a reason to wake. */
  lemma InvIgnores(s: Session, t: Session)
    requires Inv(s) && s.holder == Free
    requires t == s.(sh := s.sh.(readPos := t.sh.readPos, transientError := t.sh.transientError),
                     permit := t.permit, hint := t.hint)
    requires t.sh.transientError in {s.sh.transientError, None}
    requires Prods(s, t)
    ensures Inv(t)
  {
    assert forall p: nat :: Balanced(s, p) ==> Balanced(t, p);
  }

  /** A step that leaves the pump where it is takes no permit back, and unlatching stores one. */
  predicate Prods(s: Session, t: Session) {
    t.permit || (!s.permit && (t.sh.transientError.Some? || s.sh.transientError.None?))
  }

  lemma ParkCandidate(s: Session, r: nat)
    requires Inv(s) && s.holder == Free && ReaderAt(s, r, {Entering, Woken})
    requires s.sh.life.Live() && s.sh.transientError.None? && s.readers[r].pos !in s.data
    requires !s.sh.PastEof(s.readers[r].pos)
    requires Anchored(s, s.readers[r]).epoch == s.sh.life.detachEpoch
    ensures Inv(SetReader(s.(holder := ByReader(r)), r, Anchored(s, s.readers[r]).(pc := Checked)))
  {
    var t := SetReader(s.(holder := ByReader(r)), r, Anchored(s, s.readers[r]).(pc := Checked));
    forall p: nat ensures Holders(t.readers, p) == Holders(s.readers, p) {
      HoldersUpdate(s.readers, r, t.readers[r], p);
    }
    assert Balanced(s, s.readers[r].pos);
    forall p: nat ensures Balanced(t, p) {
      assert Balanced(s, p);
    }
    assert forall q :: 0 <= q < |t.readers| && q != r ==> t.readers[q] == s.readers[q];
  }

  lemma QueueKeeps(s: Session, r: nat)
    requires Inv(s) && ReaderAt(s, r, {Checked})
    ensures Inv(DoReadQueue(s, r))
  {
    var t := DoReadQueue(s, r);
    var pos := s.readers[r].pos;
    forall p: nat ensures Holders(t.readers, p) ==
                          Holders(s.readers, p) - Holds(s.readers[r], p) + Holds(t.readers[r], p) {
      HoldersUpdate(s.readers, r, t.readers[r], p);
    }
    assert CheckHolds(s, s.readers[r]);
    if s.readers[r].holding {
      HoldersPositive(s.readers, r);
    }
    forall p: nat ensures Balanced(t, p) {
      assert Balanced(s, p);
    }
    if pos in s.sh.fetchThrough {
      assert t.sh.fetchThrough.Keys == s.sh.fetchThrough.Keys;
    }
    assert forall q :: 0 <= q < |t.readers| && q != r ==> t.readers[q] == s.readers[q];
  }

  lemma ParkKeeps(s: Session, r: nat, expired: bool)
    requires Inv(s) && ReaderAt(s, r, {Queued})
    ensures Inv(DoReadPark(s, r, expired))
  {
    if expired {
      FinishKeeps(s, r, s.readers[r], Failure(Transient));
    } else {
      var t := DoReadPark(s, r, expired);
      forall p: nat ensures Holders(t.readers, p) == Holders(s.readers, p) {
        HoldersUpdate(s.readers, r, t.readers[r], p);
      }
      assert CheckHolds(s, s.readers[r]);
      forall p: nat ensures Balanced(t, p) {
        assert Balanced(s, p);
      }
      assert forall q :: 0 <= q < |t.readers| && q != r ==> t.readers[q] == s.readers[q];
    }
  }

  /** Waking readers, one or all, for whatever reason. */
  lemma StirKeeps(s: Session, t: Session)
    requires Inv(s)
    requires t == s.(readers := t.readers, notes := t.notes) && |t.readers| == |s.readers|
    requires forall q :: 0 <= q < |s.readers| ==> t.readers[q] in {s.readers[q], Stirred(s.readers[q])}
    requires t.notes < s.notes ==> forall q :: 0 <= q < |s.readers| ==> t.readers[q] == Stirred(s.readers[q])
    ensures Inv(t)
  {
    forall p: nat ensures Holders(t.readers, p) == Holders(s.readers, p) {
      HoldersSame(s.readers, t.readers, p);
    }
    assert forall p: nat :: Balanced(s, p) ==> Balanced(t, p);
  }

  // ---- producers --------------------------------------------------------------------

  lemma CommitStoreKeeps(s: Session, off: nat, bytes: seq<Byte>)
    requires Inv(s) && Enabled(s, CommitStore(off, bytes))
    ensures Inv(DoCommitStore(s, off, bytes))
  {
    var t := DoCommitStore(s, off, bytes);
    assert |bytes| in t.stored;
    assert t.data.Keys >= s.data.Keys;
    assert forall p: nat :: Balanced(s, p) ==> Balanced(t, p);
    WholeGrows(s.data.Keys, t.data.Keys, s.total);
  }

  lemma WholeGrows(cover: set<nat>, more: set<nat>, total: Option<nat>)
    requires cover <= more
    ensures Whole(cover, total) ==> Whole(more, total)
  {
    if total.Some? {
      GapIsLeast(cover, 0, total.value);
      GapIsLeast(more, 0, total.value);
    }
  }

  lemma CommitMarkKeeps(s: Session, len: nat)
    requires Inv(s) && Enabled(s, CommitMark(len))
    ensures Inv(DoCommitMark(s, len))
  {
    var t := DoCommitMark(s, len);
    assert forall p: nat :: Balanced(s, p) ==> Balanced(t, p);
  }

  lemma SetTotalKeeps(s: Session, total: nat)
    requires Inv(s) && Enabled(s, SetTotal(total))
    ensures Inv(s.(total := Some(total)))
  {
    var t := s.(total := Some(total));
    assert forall p: nat :: Balanced(s, p) ==> Balanced(t, p);
  }

  /** Lowering the ceiling forgets only demand that the ceiling now answers. */
  lemma MarkEofKeeps(s: Session, at: nat)
    requires Inv(s) && s.holder == Free
    ensures Inv(DoMarkEof(s, at))
  {
    var t := DoMarkEof(s, at);
    forall p: nat | s.sh.life.Live() ensures Balanced(t, p) {
      assert Balanced(s, p);
    }
  }

  /** Any change that leaves demand alone and owes a notify. */
  lemma NotedKeeps(s: Session, t: Session)
    requires Inv(s) && s.holder == Free
    requires t == s.(sh := s.sh.(life := t.sh.life, readPos := t.sh.readPos, transientError := t.sh.transientError),
                     notes := s.notes + 1, permit := t.permit)
    requires t.sh.life.terminal == s.sh.life.terminal && Prods(s, t)
    ensures Inv(t)
  {
    assert forall p: nat :: Balanced(s, p) ==> Balanced(t, p);
  }

  /** Any change that leaves demand alone and gives no reader a reason to wake. */
  lemma QuietKeeps(s: Session, t: Session)
    requires Inv(s) && s.holder == Free
    requires t == s.(sh := s.sh.(life := t.sh.life, readPos := t.sh.readPos, transientError := t.sh.transientError),
                     permit := t.permit)
    requires t.sh.life.terminal == s.sh.life.terminal && t.sh.life.detachEpoch == s.sh.life.detachEpoch
    requires t.sh.transientError in {s.sh.transientError, None} && Prods(s, t)
    ensures Inv(t)
  {
    assert forall p: nat :: Balanced(s, p) ==> Balanced(t, p);
  }

  lemma TerminateKeeps(s: Session, e: StreamError)
    requires Inv(s) && Enabled(s, Terminate(e))
    ensures Inv(s.(sh := s.sh.Terminate(e), notes := s.notes + 1, permit := true))
  {
  }

  // ---- the pump ----------------------------------------------------------------------

  /** A pump step that leaves demand, marks and data alone. */
  lemma PumpMoves(s: Session, t: Session)
    requires Inv(s)
    requires t == s.(pump := t.pump, holder := t.holder, permit := t.permit)
    requires t.holder == s.holder || {s.holder, t.holder} == {Free, ByPump}
    requires t.holder == ByPump <==> t.pump == Picking
    requires t.pump == Stopped && s.sh.life.Live() ==> Whole(s.data.Keys, s.total)
    requires PermitInv(t)
    ensures Inv(t)
  {
    assert forall p: nat :: Balanced(s, p) ==> Balanced(t, p);
  }

  lemma RetainKeeps(s: Session)
    requires Inv(s) && s.holder == Free && s.sh.life.Live()
    ensures Inv(s.(sh := s.sh.Retain(s.data.Keys)))
  {
    var t := s.(sh := s.sh.Retain(s.data.Keys));
    forall p: nat ensures Balanced(t, p) {
      assert Balanced(s, p);
    }
  }

  lemma DecideKeeps(s: Session)
    requires Inv(s) && Enabled(s, PumpDecide)
    ensures Inv(DoPumpDecide(s))
  {
    var (sh, first) := DecideFirst(s.sh, s.data.Keys, s.total, s.cfg);
    if sh == s.sh {
      PumpMoves(s, DoPumpDecide(s));
    } else {
      RetainKeeps(s);
      PumpMoves(s.(sh := sh), DoPumpDecide(s));
    }
  }

  /** Every action keeps the invariant. */
  lemma ActKeeps(s: Session, a: Act, demand: int)
    requires Inv(s) && Enabled(s, a)
    ensures Inv(Do(s, a, demand))
  {
    hide Inv, Enabled, DoReadBegin, DoReadCheck, DoReadQueue, DoReadPark, DoCommitStore, DoCommitMark;
    match a
    case ReadBegin(pos, maxLen) => BeginKeeps(s, pos, maxLen);
    case ReadCheck(r, ioFails) => CheckKeeps(s, r, ioFails);
    case ReadQueue(r) => EnabledReader(s, a); QueueKeeps(s, r);
    case ReadPark(r, expired) => EnabledReader(s, a); ParkKeeps(s, r, expired);
    case CommitStore(off, bytes) => CommitStoreKeeps(s, off, bytes);
    case CommitMark(len) => CommitMarkKeeps(s, len);
    case Terminate(e) => TerminateKeeps(s, e);
    case PumpDecide => PumpKeeps(s, a, demand);
    case PumpPick => PumpKeeps(s, a, demand);
    case PumpListen => PumpKeeps(s, a, demand);
    case PumpRecheck => PumpKeeps(s, a, demand);
    case PumpWake => PumpKeeps(s, a, demand);
    case PumpFetched => PumpKeeps(s, a, demand);
    case PumpEof(_) => PumpEofKeeps(s, a, demand);
    case PumpExit => PumpKeeps(s, a, demand);
    case _ => SmallActKeeps(s, a, demand);
  }

  lemma EnabledReader(s: Session, a: Act)
    requires Enabled(s, a)
    ensures a.ReadQueue? ==> ReaderAt(s, a.r, {Checked})
    ensures a.ReadPark? ==> ReaderAt(s, a.r, {Queued})
  {
  }

  /** The pump's own end of stream: the mark, and back to deciding. */
  lemma PumpEofKeeps(s: Session, a: Act, demand: int)
    requires Inv(s) && Enabled(s, a) && a.PumpEof?
    ensures Inv(Do(s, a, demand))
  {
    MarkEofKeeps(s, s.pump.offset);
    PumpMoves(DoMarkEof(s, s.pump.offset), Do(s, a, demand));
  }

  lemma RestNeverStops(s: Session, demand: int)
    ensures !DecideRest(s.sh, s.data.Keys, s.total, s.hint, s.cfg, demand).Stop?
  {
  }

  lemma PumpKeeps(s: Session, a: Act, demand: int)
    requires Inv(s) && Enabled(s, a)
    requires a in {PumpDecide, PumpPick, PumpListen, PumpRecheck, PumpWake, PumpFetched, PumpExit}
    ensures Inv(Do(s, a, demand))
  {
    hide DoReadBegin, DoReadCheck, DoReadQueue, DoReadPark, DoNotify, DoCommitStore, DoCommitMark, DoStall, DoAttach,
      DoClose, DoPumpDecide, DecideRest;
    if a == PumpDecide {
      DecideKeeps(s);
    } else {
      RestNeverStops(s, demand);
      PumpMoves(s, Do(s, a, demand));
    }
  }

  lemma SmallActKeeps(s: Session, a: Act, demand: int)
    requires Inv(s) && Enabled(s, a)
    requires a.ReadStir? || a.NotifyReaders? || a.SetTotal? || a.SetHint? || a.MarkEof? || a.Stall? || a.Attach?
               || a.Close?
             || a.Claim? || a.MarkAbandoned?
    ensures Inv(Do(s, a, demand))
  {
    hide DoReadBegin, DoReadCheck, DoReadQueue, DoReadPark, DoCommitStore, DoCommitMark, DoPumpDecide, DoPumpPick,
      Shared.MarkEof, Shared.Terminate;
    if a.ReadStir? || a.NotifyReaders? {
      StirKeeps(s, Do(s, a, demand));
    } else if a.SetTotal? {
      SetTotalKeeps(s, a.total);
    } else if a.SetHint? {
      InvIgnores(s, Do(s, a, demand));
    } else if a.MarkEof? {
      MarkEofKeeps(s, a.at);
    } else if a.Stall? {
      if s.sh.life.Live() { NotedKeeps(s, Do(s, a, demand)); }
    } else if a.Close? {
      if s.sh.life.attached { NotedKeeps(s, Do(s, a, demand)); }
    } else {
      QuietKeeps(s, Do(s, a, demand));
    }
  }
}
