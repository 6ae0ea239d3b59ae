/** The streaming seam as a transition system: any number of sessions, each with
    parked readers, a pump, committers and teardowns, sharing one demand counter.
    One action is one critical section, or one step between two of them. */
module Seam {
  import opened Prelude
  import opened Extents
  import opened SessionState
  import SparseStore
  import Wire

  /** Where a `read` call stands. `Checked` and `Queued` hold the `shared` lock: the store
      was consulted and the reader has not parked yet. `Woken` was notified, timed out or
      woke spuriously, and must take the lock again. */
  datatype ReaderPc = Entering | Checked | Queued | Waiting | Woken | Done

  datatype Outcome = Bytes(bytes: seq<Byte>) | Failure(error: StreamError)

  datatype Reader = Reader(
    pc: ReaderPc,
    pos: nat,
    maxLen: nat,
    epoch: nat,
    holding: bool,
    out: Option<Outcome>)

  /** Who holds `shared` between two actions. */
  datatype Holder = Free | ByReader(r: nat) | ByPump

  /** Where the pump task stands. `Picking` holds `shared` and `store` mid-decision; the
      three `Drain` states are the park that yields to cross-session demand. */
  datatype PumpPc =
    | Deciding
    | Picking
    | Parked
    | DrainDecided
    | DrainListening(notified: bool)
    | DrainWaiting(notified: bool)
    | Fetching(offset: nat, len: nat, through: bool)
    | Stopped
    | Exited

  /** One session. `res` is the resource behind it and is never consulted by the code.
      `stored` counts commits that reached the store but not yet `shared`; `notes` counts
      threads that still owe the readers a notify. */
  datatype Session = Session(
    cfg: Config,
    res: seq<Byte>,
    sh: Shared,
    data: map<nat, Byte>,
    total: Option<nat>,
    hint: Option<nat>,
    readers: seq<Reader>,
    holder: Holder,
    stored: multiset<nat>,
    notes: nat,
    pump: PumpPc,
    permit: bool)

  function NewSession(cfg: Config, res: seq<Byte>, hint: Option<nat>, now: nat): Session {
    Session(cfg, res, NewShared(now), map[], None, hint, [], Free, multiset{}, 0, Deciding, false)
  }

  datatype Act =
    | ReadBegin(pos: nat, maxLen: nat)
    | ReadCheck(r: nat, ioFails: bool)
    | ReadQueue(r: nat)
    | ReadPark(r: nat, expired: bool)
    | ReadStir(r: nat)
    | CommitStore(off: nat, bytes: seq<Byte>)
    | CommitMark(len: nat)
    | NotifyReaders
    | SetTotal(total: nat)
    | SetHint(hint: nat)
    | MarkEof(at: nat)
    | Stall(error: StreamError)
    | Terminate(error: StreamError)
    | Attach(pos: nat)
    | Close(now: nat)
    | Claim
    | MarkAbandoned
    | PumpDecide
    | PumpPick
    | PumpListen
    | PumpRecheck
    | PumpWake
    | PumpFetched
    | PumpEof(reminted: bool)
    | PumpExit

  // ---- readers -------------------------------------------------------------------

  function SetReader(s: Session, r: nat, rd: Reader): Session
    requires r < |s.readers|
  {
    s.(readers := s.readers[r := rd])
  }

  /** Leave `read`: release the hold, give up the lock, return `out`. */
  function Finish(s: Session, r: nat, rd: Reader, out: Outcome): Session
    requires r < |s.readers|
  {
    SetReader(s.(sh := if rd.holding then s.sh.Drop(rd.pos) else s.sh, holder := Free), r,
              rd.(pc := Done, holding := false, out := Some(out)))
  }

  function DoReadBegin(s: Session, pos: nat, maxLen: nat): Session {
    var rd := if maxLen == 0 then Reader(Done, pos, 0, 0, false, Some(Bytes([])))
              else Reader(Entering, pos, maxLen, 0, false, None);
    s.(readers := s.readers + [rd])
  }

  /** The reader's epoch is fixed by its first critical section. */
  function Anchored(s: Session, rd: Reader): Reader {
    if rd.pc == Entering then rd.(epoch := s.sh.life.detachEpoch) else rd
  }

  /** One pass of the read loop: what it leaves behind and its verdict; `None` means park. */
  ghost function Verdict(s: Session, rd: Reader, ioFails: bool): (Session, Option<Outcome>)
    requires rd.maxLen > 0
  {
    if s.sh.life.terminal.Some? then (s, Some(Failure(s.sh.life.terminal.value)))
    else if rd.epoch != s.sh.life.detachEpoch then (s, Some(Failure(Cancelled)))
    else if rd.pos in s.data then
      if ioFails then (s, Some(Failure(Internal)))
      else
        var bytes := SparseStore.Serve(s.data, rd.pos, rd.maxLen);
        (s.(sh := s.sh.(readPos := Max(s.sh.readPos, SatAdd(rd.pos, |bytes|))), permit := true), Some(Bytes(bytes)))
    else if s.total.Some? && rd.pos >= s.total.value then (s, Some(Bytes([])))
    else if s.sh.PastEof(rd.pos) then (s, Some(Bytes([])))
    else if s.sh.transientError.Some? then
      (s.(sh := s.sh.(transientError := None), permit := true), Some(Failure(s.sh.transientError.value)))
    else (s, None)
  }

  /** The critical section of one pass: leave with the verdict, or keep the lock to park. */
  ghost function DoReadCheck(s: Session, r: nat, ioFails: bool): (t: Session)
    requires r < |s.readers| && s.readers[r].maxLen > 0
    ensures |t.readers| == |s.readers|
  {
    var rd := Anchored(s, s.readers[r]);
    var (t, out) := Verdict(s, rd, ioFails);
    if out.Some? then Finish(t, r, rd, out.value)
    else SetReader(t.(holder := ByReader(r)), r, rd.(pc := Checked))
  }

  function DoReadQueue(s: Session, r: nat): Session
    requires r < |s.readers|
  {
    var rd := s.readers[r];
    if rd.holding then SetReader(s, r, rd.(pc := Queued))
    else SetReader(s.(sh := s.sh.Queue(rd.pos), permit := s.permit || rd.pos !in s.sh.fetchThrough), r,
                   rd.(pc := Queued, holding := true))
  }

  function DoReadPark(s: Session, r: nat, expired: bool): Session
    requires r < |s.readers|
  {
    if expired then Finish(s, r, s.readers[r], Failure(Transient))
    else SetReader(s.(holder := Free), r, s.readers[r].(pc := Waiting))
  }

  function Stirred(rd: Reader): Reader {
    if rd.pc == Waiting then rd.(pc := Woken) else rd
  }

  function DoNotify(s: Session): Session
    requires s.notes > 0
  {
    s.(notes := s.notes - 1, readers := seq(|s.readers|, i requires 0 <= i < |s.readers| => Stirred(s.readers[i])))
  }

  // ---- producers ----------------------------------------------------------------

  /** A body piece that is true to the resource at its place. */
  predicate BodyTrue(res: seq<Byte>, off: nat, bytes: seq<Byte>) {
    off + |bytes| <= |res| && bytes == res[off..off + |bytes|]
  }

  ghost function DoCommitStore(s: Session, off: nat, bytes: seq<Byte>): Session {
    s.(data := s.data + SparseStore.Placed(off, bytes), stored := s.stored + multiset{|bytes|})
  }

  /** The second half of a commit; a session that ended meanwhile is left alone. */
  function DoCommitMark(s: Session, len: nat): Session {
    var t := s.(stored := s.stored - multiset{len});
    if s.sh.life.Live() then t.(sh := s.sh.(committed := s.sh.committed + len), notes := s.notes + 1) else t
  }

  function DoStall(s: Session, e: StreamError): Session {
    if s.sh.life.Live() then s.(sh := s.sh.(transientError := Some(e)), notes := s.notes + 1, permit := true) else s
  }

  function DoAttach(s: Session, pos: nat): Session {
    s.(sh := s.sh.(life := s.sh.life.Attach(), readPos := pos, transientError := None), permit := true)
  }

  function DoClose(s: Session, now: nat): Session {
    if s.sh.life.attached then s.(sh := s.sh.(life := s.sh.life.Close(now)), notes := s.notes + 1, permit := true)
    else s
  }

  function DoMarkEof(s: Session, at: nat): Session {
    s.(sh := s.sh.MarkEof(at), notes := s.notes + 1, permit := true)
  }

  // ---- the pump -------------------------------------------------------------------

  function PumpFor(a: Action): PumpPc {
    match a
    case Stop => Stopped
    case Park(onDemand) => if onDemand then DrainDecided else Parked
    case Fetch(offset, len, through) => Fetching(offset, len, through)
  }

  ghost function DoPumpDecide(s: Session): Session {
    var (sh, first) := DecideFirst(s.sh, s.data.Keys, s.total, s.cfg);
    if first.Some? then s.(sh := sh, pump := PumpFor(first.value))
    else s.(sh := sh, pump := Picking, holder := ByPump)
  }

  ghost function DoPumpPick(s: Session, demand: int): Session {
    s.(pump := PumpFor(DecideRest(s.sh, s.data.Keys, s.total, s.hint, s.cfg, demand)), holder := Free)
  }

  /** Which wake reached a parked pump: a drain notify, the stored permit, or the cancel token. */
  predicate Wakeable(s: Session) {
    match s.pump
    case Parked => s.permit || !s.sh.life.Live()
    case DrainWaiting(notified) => notified || s.permit || !s.sh.life.Live()
    case _ => false
  }

  // ---- dispatch ---------------------------------------------------------------------

  predicate ReaderAt(s: Session, r: nat, pcs: set<ReaderPc>) {
    r < |s.readers| && s.readers[r].pc in pcs
  }

  ghost predicate Enabled(s: Session, a: Act) {
    match a
    case ReadBegin(_, _) => true
    case ReadCheck(r, _) => s.holder == Free && ReaderAt(s, r, {Entering, Woken}) && s.readers[r].maxLen > 0
    case ReadQueue(r) => ReaderAt(s, r, {Checked})
    case ReadPark(r, _) => ReaderAt(s, r, {Queued})
    case ReadStir(r) => ReaderAt(s, r, {Waiting})
    case CommitStore(off, bytes) => s.holder != ByPump && bytes != [] && BodyTrue(s.res, off, bytes)
    case CommitMark(len) => s.holder == Free && len in s.stored
    case NotifyReaders => s.notes > 0
    case SetTotal(t) => s.holder != ByPump && Wire.CheckTotal(s.total, t).Ok?
    case SetHint(_) => s.holder == Free
    // A refusal that names a total marks it once `check_total` has let it in.
    case MarkEof(at) => s.holder == Free && s.total == Some(at)
    case Stall(_) => s.holder == Free
    case Terminate(_) => s.holder == Free && s.sh.life.Live()
    case Attach(_) => s.holder == Free && s.sh.life.Live()
    case Close(_) => s.holder == Free
    case Claim => s.holder == Free
    case MarkAbandoned => s.holder == Free && s.sh.life.Live() && s.sh.life.attached
    case PumpDecide => s.holder == Free && s.pump == Deciding
    case PumpPick => s.pump == Picking
    case PumpListen => s.pump == DrainDecided
    case PumpRecheck => s.pump.DrainListening?
    case PumpWake => Wakeable(s)
    case PumpFetched => s.pump.Fetching?
    // A cycle ends on a bare refusal only of a URL minted since it began, or at or past the total.
    case PumpEof(reminted) =>
      s.pump.Fetching? && s.holder == Free && (reminted || (s.total.Some? && s.pump.offset >= s.total.value))
    case PumpExit => s.pump.Fetching? && !s.sh.life.Live()
  }

  ghost function Do(s: Session, a: Act, demand: int): Session
    requires Enabled(s, a)
  {
    match a
    case ReadBegin(pos, maxLen) => DoReadBegin(s, pos, maxLen)
    case ReadCheck(r, ioFails) => DoReadCheck(s, r, ioFails)
    case ReadQueue(r) => DoReadQueue(s, r)
    case ReadPark(r, expired) => DoReadPark(s, r, expired)
    case ReadStir(r) => SetReader(s, r, Stirred(s.readers[r]))
    case CommitStore(off, bytes) => DoCommitStore(s, off, bytes)
    case CommitMark(len) => DoCommitMark(s, len)
    case NotifyReaders => DoNotify(s)
    case SetTotal(t) => s.(total := Wire.CheckTotal(s.total, t).value)
    case SetHint(h) => s.(hint := Some(h))
    case MarkEof(at) => DoMarkEof(s, at)
    case Stall(e) => DoStall(s, e)
    case Terminate(e) => s.(sh := s.sh.Terminate(e), notes := s.notes + 1, permit := true)
    case Attach(pos) => DoAttach(s, pos)
    case Close(now) => DoClose(s, now)
    case Claim => s.(sh := s.sh.(life := s.sh.life.Claim()))
    case MarkAbandoned => s.(sh := s.sh.(life := s.sh.life.Abandon()))
    case PumpDecide => DoPumpDecide(s)
    case PumpPick => DoPumpPick(s, demand)
    case PumpListen => s.(pump := DrainListening(false))
    case PumpRecheck => s.(pump := if demand == 0 then Deciding else DrainWaiting(s.pump.notified))
    case PumpWake => s.(pump := Deciding, permit := false)
    case PumpFetched => s.(pump := Deciding)
    case PumpEof(_) => DoMarkEof(s, s.pump.offset).(pump := Deciding)
    case PumpExit => s.(pump := Exited)
  }

  // ---- all sessions of a registry ------------------------------------------------------

  /** `demand` is the shared counter; `drains` counts threads that moved it to zero and
      still owe the parked pumps a `drained` notify. */
  datatype World = World(demand: int, drains: nat, sessions: seq<Session>)

  datatype Step =
    | Open(cfg: Config, res: seq<Byte>, hint: Option<nat>, now: nat)
    | Local(i: nat, act: Act)
    | DrainNotify

  function Drained(s: Session): Session {
    match s.pump
    case DrainListening(_) => s.(pump := DrainListening(true))
    case DrainWaiting(_) => s.(pump := DrainWaiting(true))
    case _ => s
  }

  ghost predicate StepEnabled(w: World, step: Step) {
    match step
    case Open(cfg, _, _, _) => cfg.Valid()
    case Local(i, act) => i < |w.sessions| && Enabled(w.sessions[i], act)
    case DrainNotify => w.drains > 0
  }

  ghost function Next(w: World, step: Step): World
    requires StepEnabled(w, step)
  {
    match step
    case Open(cfg, res, hint, now) => w.(sessions := w.sessions + [NewSession(cfg, res, hint, now)])
    case Local(i, act) =>
      var s := Do(w.sessions[i], act, w.demand);
      var delta := s.sh.demandPublished - w.sessions[i].sh.demandPublished;
      World(w.demand + delta,
            if delta != 0 && w.demand + delta <= 0 then w.drains + 1 else w.drains,
            w.sessions[i := s])
    case DrainNotify =>
      World(w.demand, w.drains - 1,
            seq(|w.sessions|, i requires 0 <= i < |w.sessions| => Drained(w.sessions[i])))
  }
}
