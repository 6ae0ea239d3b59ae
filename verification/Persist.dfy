/** The durability chain of one session as a state machine: committers that dirty the store and
    kick, workers that snapshot, sync and persist, terminations that evict, a disk that may
    flush early and a crash that may come at any step. */
module Persist {
  import opened Prelude

  const PERSIST_EVERY_BYTES: nat := 2 * 1024 * 1024

  // ---- state --------------------------------------------------------------------------

  /** Where one `commit` call stands. */
  datatype Committer =
    | Resting
    | Stored(due: bool, headCovered: bool)
    | Kicking

  /** Where one persist worker stands; `job` is the extent snapshot it carries. */
  datatype Worker =
    | Snapshotting
    | Syncing(job: set<nat>)
    | Queued(job: set<nat>)
    | Locked(job: set<nat>)
    | Claiming(job: set<nat>)
    | Renaming(job: set<nat>)
    | Releasing(job: set<nat>)
    | Rechecking
    | Failing
    | Draining
    | Clearing
    | Cleared
    | ReadDue(due: bool)
    | Rekicking
    | Gone

  /** Who holds `persist_lock`. */
  datatype Holder = Free | Held(worker: nat) | Evicting(stage: Stage)

  /** Which file the eviction removes next; it also holds `shared`. */
  datatype Stage = DataFile | SidecarFile | TmpFile

  /** The session's files: the data file as written and as a crash would leave it, whether it is
      still linked, and the two sidecar files. */
  datatype Disk = Disk(
    volatile: map<nat, Byte>,
    durable: map<nat, Byte>,
    linked: bool,
    sidecar: Option<set<nat>>,
    tmp: Option<set<nat>>)

  /** The in-memory store's account of the file. */
  datatype Book = Book(cover: set<nat>, dirty: nat, everPersisted: bool)
  {
    predicate Due() {
      !everPersisted || dirty >= PERSIST_EVERY_BYTES
    }
  }

  datatype State = State(
    disk: Disk,
    book: Book,
    headMarked: bool,
    live: bool,
    running: bool,
    lock: Holder,
    committers: seq<Committer>,
    workers: seq<Worker>)
  {
    /** `shared` is held only across an eviction; every other section under it is one step. */
    predicate SharedFree() {
      !lock.Evicting?
    }
  }

  function Start(committers: nat): State {
    State(Disk(map[], map[], true, None, None), Book({}, 0, false), false, true, false, Free,
          seq(committers, _ => Resting), [])
  }

  // ---- steps --------------------------------------------------------------------------

  datatype Act =
    | Write(c: nat, bytes: map<nat, Byte>, landed: bool, headCovered: bool)
    | Mark(c: nat)
    | Kick(c: nat)
    | Step(i: nat, fails: bool)
    | Terminate
    | Evict
    | Flush(offsets: set<nat>)

  predicate Enabled(s: State, a: Act) {
    match a
    case Write(c, bytes, landed, _) => c < |s.committers| && s.committers[c].Resting? && bytes != map[]
    case Mark(c) => c < |s.committers| && s.committers[c].Stored? && s.SharedFree()
    case Kick(c) => c < |s.committers| && s.committers[c].Kicking?
    case Step(i, _) => i < |s.workers| && WorkerMayStep(s, s.workers[i])
    case Terminate => s.live && s.lock.Free?
    case Evict => s.lock.Evicting?
    case Flush(offsets) => offsets <= s.disk.volatile.Keys
  }

  predicate WorkerMayStep(s: State, w: Worker) {
    match w
    case Queued(_) => s.lock.Free?
    case Failing => s.lock.Free?
    case Draining => s.SharedFree()
    case Locked(_) => s.SharedFree()
    case ReadDue(_) => s.SharedFree()
    case Gone => false
    case _ => true
  }

  /** A worker's next program point. */
  function NextPc(s: State, w: Worker, fails: bool): Worker {
    match w
    case Snapshotting => if fails then Failing else Syncing(s.book.cover)
    case Syncing(job) => if fails then Failing else Queued(job)
    case Queued(job) => Locked(job)
    case Locked(job) => if s.live then Claiming(job) else Clearing
    case Claiming(job) => if fails then Failing else Renaming(job)
    case Renaming(job) => if fails then Failing else Releasing(job)
    case Releasing(_) => Rechecking
    case Rechecking => if s.book.Due() then Snapshotting else Clearing
    case Failing => if s.live then Draining else Clearing
    case Draining => Clearing
    case Clearing => Cleared
    case Cleared => ReadDue(s.book.Due())
    case ReadDue(due) => if due && s.live then Rekicking else Gone
    case Rekicking => Gone
    case Gone => Gone
  }

  /** What the step writes: the sync makes the file durable, the claim goes to the temp file and
      a rename installs it. */
  function NextDisk(d: Disk, w: Worker, fails: bool): Disk {
    if fails then d
    else if w.Syncing? then d.(durable := d.durable + d.volatile)
    else if w.Claiming? then d.(tmp := Some(w.job))
    else if w.Renaming? then d.(sidecar := d.tmp, tmp := None)
    else d
  }

  function NextBook(b: Book, w: Worker, fails: bool): Book {
    if w.Snapshotting? && !fails then Book(b.cover, 0, true) else b
  }

  /** `persist_lock` spans the liveness check and the claim; a failed worker terminates, which
      takes it for the eviction. */
  function NextLock(s: State, i: nat, w: Worker, fails: bool): Holder {
    match w
    case Queued(_) => Held(i)
    case Locked(_) => if s.live then s.lock else Free
    case Claiming(_) => if fails then Free else s.lock
    case Renaming(_) => if fails then Free else s.lock
    case Releasing(_) => Free
    case Failing => if s.live then Evicting(DataFile) else s.lock
    case _ => s.lock
  }

  /** `kick_persist`: only the swap that finds no worker spawns one. */
  function Spawn(running: bool): seq<Worker> {
    if running then [] else [Snapshotting]
  }

  function DoStep(s: State, i: nat, fails: bool): State
    requires i < |s.workers|
  {
    var w := s.workers[i];
    State(NextDisk(s.disk, w, fails), NextBook(s.book, w, fails), s.headMarked,
          s.live && !w.Failing?,
          if w.Clearing? then false else s.running || w.Rekicking?,
          NextLock(s, i, w, fails), s.committers,
          s.workers[i := NextPc(s, w, fails)] + if w.Rekicking? then Spawn(s.running) else [])
  }

  /** The eviction unlinks the data file first, then the sidecar, then the temp file. */
  function DoEvict(s: State): State
    requires s.lock.Evicting?
  {
    match s.lock.stage
    case DataFile => s.(disk := s.disk.(linked := false), lock := Evicting(SidecarFile))
    case SidecarFile => s.(disk := s.disk.(sidecar := None), lock := Evicting(TmpFile))
    case TmpFile => s.(disk := s.disk.(tmp := None), lock := Free)
  }

  /** The store section of `commit`; a write that fails part-way leaves bytes but no extent. */
  function DoWrite(s: State, c: nat, bytes: map<nat, Byte>, landed: bool, headCovered: bool): State
    requires c < |s.committers|
  {
    var d := s.disk.(volatile := s.disk.volatile + bytes);
    if !landed then s.(disk := d)
    else
      var b := s.book.(cover := s.book.cover + bytes.Keys, dirty := s.book.dirty + |bytes|);
      s.(disk := d, book := b, committers := s.committers[c := Stored(b.Due(), headCovered)])
  }

  /** The `shared` section of `commit`: on a dead session the write was all there is. */
  function DoMark(s: State, c: nat): State
    requires c < |s.committers| && s.committers[c].Stored?
  {
    var ready := s.committers[c].headCovered && !s.headMarked;
    if !s.live then s.(committers := s.committers[c := Resting])
    else s.(headMarked := s.headMarked || ready,
            committers := s.committers[c := if ready || s.committers[c].due then Kicking else Resting])
  }

  function Do(s: State, a: Act): State
    requires Enabled(s, a)
  {
    match a
    case Write(c, bytes, landed, headCovered) => DoWrite(s, c, bytes, landed, headCovered)
    case Mark(c) => DoMark(s, c)
    case Kick(c) =>
      s.(committers := s.committers[c := Resting], workers := s.workers + Spawn(s.running), running := true)
    case Step(i, fails) => DoStep(s, i, fails)
    case Terminate => s.(live := false, lock := Evicting(DataFile))
    case Evict => DoEvict(s)
    case Flush(offsets) => s.(disk := Flushed(s.disk, offsets))
  }

  /** The system may write any of the file back at any time. */
  function Flushed(d: Disk, offsets: set<nat>): Disk {
    d.(durable := d.durable + map p | p in offsets && p in d.volatile :: d.volatile[p])
  }

  // ---- what every state keeps ------------------------------------------------------------

  ghost predicate TrueTo(m: map<nat, Byte>, res: seq<Byte>) {
    forall p :: p in m ==> p < |res| && m[p] == res[p]
  }

  /** The bytes on disk are the resource's, and the extents never run ahead of the file. */
  ghost predicate Bytes(d: Disk, b: Book, res: seq<Byte>) {
    TrueTo(d.volatile, res) && TrueTo(d.durable, res) && b.cover <= d.volatile.Keys
  }

  /** A snapshot never runs ahead of what it may claim yet: the extents before the sync, the
      durable bytes after it. */
  ghost predicate JobOk(w: Worker, cover: set<nat>, safe: set<nat>) {
    && (w.Syncing? ==> w.job <= cover)
    && (w.Queued? || w.Locked? || w.Claiming? ==> ClaimOk(Some(w.job), cover, safe))
  }

  ghost predicate ClaimOk(claim: Option<set<nat>>, cover: set<nat>, safe: set<nat>) {
    claim.Some? ==> claim.value <= cover && claim.value <= safe
  }

  ghost predicate Jobs(d: Disk, b: Book, workers: seq<Worker>) {
    && (forall i :: 0 <= i < |workers| ==> JobOk(workers[i], b.cover, d.durable.Keys))
    && ClaimOk(d.sidecar, b.cover, d.durable.Keys) && ClaimOk(d.tmp, b.cover, d.durable.Keys)
  }

  /** Holding `persist_lock`. */
  predicate Holds(w: Worker) {
    w.Locked? || Past(w)
  }

  /** Past the liveness check of a persist. */
  predicate Past(w: Worker) {
    w.Claiming? || w.Renaming? || w.Releasing?
  }

  /** A worker holds the lock exactly when it is named, claims only for a live session, and has
      written what it renames. */
  ghost predicate LockOk(s: State, i: nat, w: Worker) {
    && (Holds(w) <==> s.lock == Held(i))
    && (Past(w) ==> s.live)
    && (w.Draining? ==> !s.live)
    && (w.Renaming? ==> s.disk.tmp == Some(w.job))
    && (w.Releasing? ==> s.disk.sidecar == Some(w.job))
  }

  /** Each file is gone once the eviction passed it. */
  ghost predicate Unlinked(d: Disk, live: bool, lock: Holder) {
    && (lock.Evicting? ==> !live)
    && (d.linked <==> live || lock == Evicting(DataFile))
    && (!live && lock != Evicting(DataFile) && lock != Evicting(SidecarFile) ==> d.sidecar.None?)
    && (!live && !lock.Evicting? ==> d.tmp.None?)
  }

  ghost predicate Locks(s: State) {
    && (forall i :: 0 <= i < |s.workers| ==> LockOk(s, i, s.workers[i]))
    && (s.lock.Held? ==> s.lock.worker < |s.workers|)
    && Unlinked(s.disk, s.live, s.lock)
  }

  /** Still before the worker's flag clear. */
  predicate Active(w: Worker) {
    !(w.Cleared? || w.ReadDue? || w.Rekicking? || w.Gone?)
  }

  /** About to kick if the store is due. */
  predicate WillKick(w: Worker) {
    w.Cleared? || w.Rekicking? || (w.ReadDue? && w.due)
  }

  /** The running flag is set exactly while some worker has yet to clear it, and that is one
      worker at most. */
  ghost predicate OneWorker(running: bool, workers: seq<Worker>) {
    && (forall i, j :: 0 <= i < j < |workers| ==> !(Active(workers[i]) && Active(workers[j])))
    && (running <==> exists i :: 0 <= i < |workers| && Active(workers[i]))
  }

  ghost predicate Kicker(c: Committer) {
    c.Kicking? || (c.Stored? && c.due)
  }

  /** Some committer or some finishing worker is on its way to kick. */
  ghost predicate Pending(committers: seq<Committer>, workers: seq<Worker>) {
    || (exists c :: 0 <= c < |committers| && Kicker(committers[c]))
    || (exists i :: 0 <= i < |workers| && WillKick(workers[i]))
  }

  /** A due store with bytes always has someone about to flush it or to kick. */
  ghost predicate NoLostFlush(s: State) {
    s.live && s.book.Due() && s.book.cover != {} ==> s.running || Pending(s.committers, s.workers)
  }

  ghost predicate Inv(s: State, res: seq<Byte>) {
    && Bytes(s.disk, s.book, res) && Jobs(s.disk, s.book, s.workers) && Locks(s)
    && OneWorker(s.running, s.workers) && NoLostFlush(s)
  }

  /** What a commit writes is the resource's. */
  ghost predicate Honest(a: Act, res: seq<Byte>) {
    a.Write? ==> TrueTo(a.bytes, res)
  }

  lemma StartInv(n: nat, res: seq<Byte>)
    ensures Inv(Start(n), res)
  {
  }

  lemma StepBytes(d: Disk, b: Book, w: Worker, fails: bool, res: seq<Byte>)
    requires Bytes(d, b, res)
    ensures Bytes(NextDisk(d, w, fails), NextBook(b, w, fails), res)
  {
  }

  lemma BytesKept(s: State, a: Act, res: seq<Byte>)
    requires Bytes(s.disk, s.book, res) && Enabled(s, a) && Honest(a, res)
    ensures Bytes(Do(s, a).disk, Do(s, a).book, res)
  {
    hide NextPc, NextLock, WorkerMayStep, Spawn, DoMark, DoEvict, DoWrite, Flushed, Bytes, NextDisk, NextBook, Honest;
    match a
    case Step(i, fails) => StepBytes(s.disk, s.book, s.workers[i], fails, res);
    case Write(c, bytes, landed, headCovered) => WriteBytes(s, c, bytes, landed, headCovered, res);
    case Mark(c) => MarkLeaves(s, c);
    case Kick(c) =>
    case Terminate =>
    case Evict => EvictLeaves(s, res);
    case Flush(offsets) => FlushBytes(s.disk, s.book, offsets, res);
  }

  lemma WriteBytes(s: State, c: nat, bytes: map<nat, Byte>, landed: bool, headCovered: bool, res: seq<Byte>)
    requires Bytes(s.disk, s.book, res) && c < |s.committers|
    requires Honest(Write(c, bytes, landed, headCovered), res)
    ensures var t := DoWrite(s, c, bytes, landed, headCovered); Bytes(t.disk, t.book, res)
  {
  }

  lemma FlushBytes(d: Disk, b: Book, offsets: set<nat>, res: seq<Byte>)
    requires Bytes(d, b, res)
    ensures Bytes(Flushed(d, offsets), b, res)
    ensures d.durable.Keys <= Flushed(d, offsets).durable.Keys
  {
  }

  lemma MarkLeaves(s: State, c: nat)
    requires c < |s.committers| && s.committers[c].Stored?
    ensures DoMark(s, c) == s.(headMarked := DoMark(s, c).headMarked, committers := DoMark(s, c).committers)
  {
  }

  lemma EvictLeaves(s: State, res: seq<Byte>)
    requires s.lock.Evicting?
    ensures var t := DoEvict(s);
            && t == s.(disk := t.disk, lock := t.lock)
            && t.disk.volatile == s.disk.volatile && t.disk.durable == s.disk.durable
            && (t.disk.sidecar == s.disk.sidecar || t.disk.sidecar.None?)
            && (t.disk.tmp == s.disk.tmp || t.disk.tmp.None?)
    ensures Bytes(s.disk, s.book, res) ==> Bytes(DoEvict(s).disk, s.book, res)
  {
  }

  lemma WriteLeaves(s: State, c: nat, bytes: map<nat, Byte>, landed: bool, headCovered: bool)
    requires c < |s.committers|
    ensures var t := DoWrite(s, c, bytes, landed, headCovered);
            && t == s.(disk := t.disk, book := t.book, committers := t.committers)
            && t.disk == s.disk.(volatile := t.disk.volatile) && s.book.cover <= t.book.cover
  {
  }

  lemma StepJobs(s: State, i: nat, fails: bool, res: seq<Byte>)
    requires Bytes(s.disk, s.book, res) && Jobs(s.disk, s.book, s.workers) && i < |s.workers|
    ensures var t := DoStep(s, i, fails); Jobs(t.disk, t.book, t.workers)
  {
    hide NextLock;
  }

  lemma StepLocks(s: State, i: nat, fails: bool)
    requires Locks(s) && Enabled(s, Step(i, fails))
    ensures Locks(DoStep(s, i, fails))
  {
  }

  lemma StepOneWorker(s: State, i: nat, fails: bool)
    requires OneWorker(s.running, s.workers) && Enabled(s, Step(i, fails))
    ensures OneWorker(DoStep(s, i, fails).running, DoStep(s, i, fails).workers)
  {
    var t, w := DoStep(s, i, fails), s.workers[i];
    assert t.workers[i] == NextPc(s, w, fails);
    forall k | 0 <= k < |t.workers| && Active(t.workers[k]) ensures t.running {
      assert k < |s.workers| ==> Active(s.workers[k]);
    }
    if t.running {
      if s.running {
        var k :| 0 <= k < |s.workers| && Active(s.workers[k]);
        assert Active(t.workers[k]);
      } else {
        assert t.workers[|s.workers|] == Snapshotting;
      }
    }
  }

  lemma StepNoLostFlush(s: State, i: nat, fails: bool)
    requires OneWorker(s.running, s.workers) && NoLostFlush(s) && Enabled(s, Step(i, fails))
    ensures NoLostFlush(DoStep(s, i, fails))
  {
    var t, w := DoStep(s, i, fails), s.workers[i];
    assert t.workers[i] == NextPc(s, w, fails);
    if t.live && t.book.Due() && t.book.cover != {} && !t.running {
      assert s.live && s.book.Due() && s.book == t.book;
      if s.running {
        assert WillKick(t.workers[i]);
      } else if exists k :: 0 <= k < |s.workers| && WillKick(s.workers[k]) {
        var k :| 0 <= k < |s.workers| && WillKick(s.workers[k]);
        assert WillKick(t.workers[k]);
      }
    }
  }

  /** A committer that moves on leaves the rest as they were. */
  lemma CommitterMoves(s: State, c: nat, now: Committer)
    requires c < |s.committers| && NoLostFlush(s)
    requires Kicker(s.committers[c]) ==> Kicker(now)
    ensures NoLostFlush(s.(committers := s.committers[c := now]))
  {
    var t := s.(committers := s.committers[c := now]);
    if exists k :: 0 <= k < |s.committers| && Kicker(s.committers[k]) {
      var k :| 0 <= k < |s.committers| && Kicker(s.committers[k]);
      assert Kicker(t.committers[k]);
    }
  }

  lemma SpawnOne(running: bool, workers: seq<Worker>)
    requires OneWorker(running, workers)
    ensures OneWorker(true, workers + Spawn(running))
  {
    var t := workers + Spawn(running);
    if running {
      assert t == workers;
    } else {
      assert Active(t[|workers|]);
    }
  }

  lemma FlushKept(s: State, a: Act)
    requires OneWorker(s.running, s.workers) && NoLostFlush(s) && Enabled(s, a)
    ensures OneWorker(Do(s, a).running, Do(s, a).workers) && NoLostFlush(Do(s, a))
  {
    hide DoStep, OneWorker;
    match a
    case Write(c, bytes, landed, headCovered) => WriteFlush(s, c, bytes, landed, headCovered);
    case Mark(c) =>
      if s.live {
        CommitterMoves(s, c, Do(s, a).committers[c]);
      }
    case Kick(c) => SpawnOne(s.running, s.workers);
    case Step(i, fails) =>
      StepOneWorker(s, i, fails);
      StepNoLostFlush(s, i, fails);
    case Terminate =>
    case Evict =>
    case Flush(_) =>
  }

  lemma WriteFlush(s: State, c: nat, bytes: map<nat, Byte>, landed: bool, headCovered: bool)
    requires NoLostFlush(s) && Enabled(s, Write(c, bytes, landed, headCovered))
    ensures NoLostFlush(DoWrite(s, c, bytes, landed, headCovered))
  {
    var t := DoWrite(s, c, bytes, landed, headCovered);
    if landed && t.book.Due() {
      assert Kicker(t.committers[c]);
    }
  }

  lemma JobsGrow(d: Disk, b: Book, e: Disk, c: Book, workers: seq<Worker>)
    requires Jobs(d, b, workers) && b.cover <= c.cover && d.durable.Keys <= e.durable.Keys
    requires e.sidecar == d.sidecar || e.sidecar.None?
    requires e.tmp == d.tmp || e.tmp.None?
    ensures Jobs(e, c, workers)
  {
  }

  lemma JobsKept(s: State, a: Act, res: seq<Byte>)
    requires Bytes(s.disk, s.book, res) && Jobs(s.disk, s.book, s.workers) && Enabled(s, a)
    ensures Jobs(Do(s, a).disk, Do(s, a).book, Do(s, a).workers)
  {
    hide DoStep, Bytes, Jobs, WorkerMayStep, DoWrite, DoMark, DoEvict, Flushed, Spawn;
    match a
    case Step(i, fails) => StepJobs(s, i, fails, res);
    case Write(c, bytes, landed, headCovered) =>
      WriteLeaves(s, c, bytes, landed, headCovered);
      JobsGrow(s.disk, s.book, Do(s, a).disk, Do(s, a).book, s.workers);
    case Mark(c) => MarkLeaves(s, c);
    case Kick(c) => SpawnJobs(s);
    case Terminate =>
    case Evict =>
      EvictLeaves(s, res);
      JobsGrow(s.disk, s.book, Do(s, a).disk, s.book, s.workers);
    case Flush(offsets) =>
      FlushBytes(s.disk, s.book, offsets, res);
      FlushLeaves(s.disk, offsets);
      JobsGrow(s.disk, s.book, Do(s, a).disk, s.book, s.workers);
  }

  lemma FlushLeaves(d: Disk, offsets: set<nat>)
    ensures Flushed(d, offsets) == d.(durable := Flushed(d, offsets).durable)
  {
  }

  lemma SpawnJobs(s: State)
    requires Jobs(s.disk, s.book, s.workers)
    ensures Jobs(s.disk, s.book, s.workers + Spawn(s.running))
  {
  }

  lemma LocksKept(s: State, a: Act)
    requires Locks(s) && Enabled(s, a)
    ensures Locks(Do(s, a))
  {
    hide DoStep, DoWrite, DoMark, DoEvict, Flushed, WorkerMayStep, Locks;
    match a
    case Step(i, fails) => StepLocks(s, i, fails);
    case Write(c, bytes, landed, headCovered) =>
      WriteLeaves(s, c, bytes, landed, headCovered);
      SameLocks(s, Do(s, a));
    case Mark(c) =>
      MarkLeaves(s, c);
      SameLocks(s, Do(s, a));
    case Kick(c) => SpawnLocks(s, Do(s, a));
    case Terminate => EndLocks(s, Do(s, a));
    case Evict => EvictLocks(s);
    case Flush(offsets) =>
      FlushLeaves(s.disk, offsets);
      SameLocks(s, Do(s, a));
  }

  lemma SameLocks(s: State, t: State)
    requires Locks(s) && t.workers == s.workers && t.lock == s.lock && t.live == s.live
    requires t.disk.linked == s.disk.linked && t.disk.sidecar == s.disk.sidecar && t.disk.tmp == s.disk.tmp
    ensures Locks(t)
  {
  }

  lemma SpawnLocks(s: State, t: State)
    requires Locks(s) && t.workers == s.workers + Spawn(s.running)
    requires t.lock == s.lock && t.live == s.live && t.disk == s.disk
    ensures Locks(t)
  {
  }

  lemma EndLocks(s: State, t: State)
    requires Locks(s) && s.live && s.lock.Free? && t == s.(live := false, lock := Evicting(DataFile))
    ensures Locks(t)
  {
    forall i | 0 <= i < |t.workers| ensures LockOk(t, i, t.workers[i]) {
      assert LockOk(s, i, s.workers[i]);
    }
  }

  lemma EvictLocks(s: State)
    requires Locks(s) && s.lock.Evicting?
    ensures Locks(DoEvict(s))
  {
    var t := DoEvict(s);
    forall i | 0 <= i < |t.workers| ensures LockOk(t, i, t.workers[i]) {
      assert LockOk(s, i, s.workers[i]);
    }
  }

  lemma ActKeeps(s: State, a: Act, res: seq<Byte>)
    requires Inv(s, res) && Enabled(s, a) && Honest(a, res)
    ensures Inv(Do(s, a), res)
  {
    hide Do, Bytes, Jobs, Locks, OneWorker, NoLostFlush, Enabled;
    BytesKept(s, a, res);
    JobsKept(s, a, res);
    LocksKept(s, a);
    FlushKept(s, a);
  }

  // ---- runs ---------------------------------------------------------------------------------

  /** `acts` runs from `s` to `t`, with honest writes. */
  ghost predicate Run(s: State, acts: seq<Act>, t: State, res: seq<Byte>)
    decreases acts
  {
    if acts == [] then s == t
    else Enabled(s, acts[0]) && Honest(acts[0], res) && Run(Do(s, acts[0]), acts[1..], t, res)
  }

  lemma {:induction false} RunKeeps(s: State, acts: seq<Act>, t: State, res: seq<Byte>)
    requires Inv(s, res) && Run(s, acts, t, res)
    ensures Inv(t, res)
    decreases acts
  {
    if acts != [] {
      ActKeeps(s, acts[0], res);
      RunKeeps(Do(s, acts[0]), acts[1..], t, res);
    }
  }

  /** What a crash at `s` leaves: the bytes of the data file, if it is still linked. */
  function Left(s: State): map<nat, Byte> {
    if s.disk.linked then s.disk.durable else map[]
  }

  /** A surviving sidecar names bytes the surviving data file holds, and they are right. */
  ghost predicate CrashHonest(s: State, res: seq<Byte>) {
    s.disk.sidecar.Some? ==>
      forall p :: p in s.disk.sidecar.value ==> p in Left(s) && p < |res| && Left(s)[p] == res[p]
  }

  /** At every crash point of every run the sidecar is honest, except exactly while an eviction
      has removed the data file and not yet a sidecar that names anything. */
  lemma SidecarNeverLies(n: nat, acts: seq<Act>, s: State, res: seq<Byte>)
    requires Run(Start(n), acts, s, res)
    ensures CrashHonest(s, res) <==>
            !(s.lock == Evicting(SidecarFile) && s.disk.sidecar.Some? && s.disk.sidecar.value != {})
    ensures s.disk.sidecar.Some? ==> s.disk.sidecar.value <= s.book.cover
  {
    StartInv(n, res);
    RunKeeps(Start(n), acts, s, res);
    if s.lock == Evicting(SidecarFile) && s.disk.sidecar.Some? && s.disk.sidecar.value != {} {
      var p :| p in s.disk.sidecar.value;
      assert p !in Left(s);
    }
  }

  /** A terminal session has no sidecar, temp file or data file once the eviction released
      `persist_lock`, and nothing a worker or a late commit does brings one back. */
  lemma NothingResurrects(n: nat, acts: seq<Act>, s: State, later: seq<Act>, t: State, res: seq<Byte>)
    requires Run(Start(n), acts, s, res) && !s.live && !s.lock.Evicting?
    requires Run(s, later, t, res)
    ensures !t.live && !t.lock.Evicting?
    ensures !t.disk.linked && t.disk.sidecar.None? && t.disk.tmp.None?
  {
    StartInv(n, res);
    RunKeeps(Start(n), acts, s, res);
    StaysEvicted(s, later, t, res);
  }

  lemma {:induction false} StaysEvicted(s: State, acts: seq<Act>, t: State, res: seq<Byte>)
    requires Inv(s, res) && !s.live && !s.lock.Evicting? && Run(s, acts, t, res)
    ensures Inv(t, res) && !t.live && !t.lock.Evicting?
    ensures !t.disk.linked && t.disk.sidecar.None? && t.disk.tmp.None?
    decreases acts
  {
    if acts != [] {
      ActKeeps(s, acts[0], res);
      StaysEvicted(Do(s, acts[0]), acts[1..], t, res);
    }
  }

  /** No flush is lost: a live, due store that holds bytes has a worker running unless some
      thread is mid-kick. */
  lemma FlushNeverLost(n: nat, acts: seq<Act>, s: State, res: seq<Byte>)
    requires Run(Start(n), acts, s, res)
    requires s.live && s.book.Due() && s.book.cover != {} && !Pending(s.committers, s.workers)
    ensures exists i :: 0 <= i < |s.workers| && Active(s.workers[i])
  {
    StartInv(n, res);
    RunKeeps(Start(n), acts, s, res);
  }

  /** Between its snapshot and its release a worker carries one job. */
  predicate Carries(w: Worker) {
    w.Syncing? || w.Queued? || w.Locked? || w.Claiming? || w.Renaming? || w.Releasing?
  }

  /** All along a run worker `i` is between the two. */
  ghost predicate CarriesOn(s: State, acts: seq<Act>, i: nat)
    decreases acts
  {
    && i < |s.workers| && Carries(s.workers[i])
    && (acts != [] && Enabled(s, acts[0]) ==> CarriesOn(Do(s, acts[0]), acts[1..], i))
  }

  lemma {:induction false} SameJob(s: State, acts: seq<Act>, t: State, i: nat, res: seq<Byte>)
    requires Run(s, acts, t, res) && CarriesOn(s, acts, i)
    ensures i < |t.workers| && Carries(t.workers[i]) && t.workers[i].job == s.workers[i].job
    decreases acts
  {
    if acts != [] {
      SameJob(Do(s, acts[0]), acts[1..], t, i, res);
    }
  }

  /** A flush that comes through leaves a sidecar that names exactly what was covered when it took its
      snapshot, all of it durable; and its snapshot is the one thing that resets the flush budget. */
  lemma FlushedIsPersisted(n: nat, past: seq<Act>, s: State, i: nat, later: seq<Act>, t: State, res: seq<Byte>)
    requires Run(Start(n), past, s, res) && i < |s.workers| && s.workers[i].Snapshotting?
    requires Run(DoStep(s, i, false), later, t, res) && CarriesOn(DoStep(s, i, false), later, i)
    requires i < |t.workers| && t.workers[i].Releasing?
    ensures t.disk.sidecar == Some(s.book.cover) && s.book.cover <= t.disk.durable.Keys
    ensures DoStep(s, i, false).book == Book(s.book.cover, 0, true)
  {
    StartInv(n, res);
    RunKeeps(Start(n), past, s, res);
    ActKeeps(s, Step(i, false), res);
    SameJob(DoStep(s, i, false), later, t, i, res);
    RunKeeps(DoStep(s, i, false), later, t, res);
    assert LockOk(t, i, t.workers[i]);
  }

  /** A commit asks for a worker when its bytes made a flush due, and when it first completes the head. */
  lemma CommitKicks(s: State, c: nat)
    requires Enabled(s, Mark(c)) && s.live
    ensures var (k, t) := (s.committers[c], Do(s, Mark(c)));
            && (t.committers[c].Kicking? <==> k.due || (k.headCovered && !s.headMarked))
            && t.headMarked == (s.headMarked || k.headCovered)
  {
  }

  /** One more step of a run. */
  lemma {:induction false} Then(s: State, acts: seq<Act>, t: State, a: Act, res: seq<Byte>)
    requires Run(s, acts, t, res) && Enabled(t, a) && Honest(a, res)
    ensures Run(s, acts + [a], Do(t, a), res)
    decreases acts
  {
    if acts == [] {
      assert Run(Do(s, a), [], Do(t, a), res);
      assert (acts + [a])[1..] == [];
    } else {
      Then(Do(s, acts[0]), acts[1..], t, a, res);
      assert (acts + [a])[1..] == acts[1..] + [a];
    }
  }

  /** One byte committed and a worker spawned for it. */
  lemma FirstKick(res: seq<Byte>) returns (acts: seq<Act>, s: State)
    requires res != []
    ensures Run(Start(1), acts, s, res)
    ensures s.workers == [Snapshotting] && s.book.cover == {0} && s.live && s.lock.Free? && s.disk.linked
  {
    hide Run;
    var byte := map[0 := res[0]];
    assert 0 in byte && byte.Keys == {0};
    s := Start(1);
    acts := StartRun(s, res);
    s, acts := Take(Start(1), acts, s, Write(0, byte, true, false), res);
    s, acts := Take(Start(1), acts, s, Mark(0), res);
    s, acts := Take(Start(1), acts, s, Kick(0), res);
  }

  lemma StartRun(s: State, res: seq<Byte>) returns (acts: seq<Act>)
    ensures Run(s, acts, s, res)
  {
    acts := [];
  }

  /** A lone worker's way from its snapshot to the installed claim. */
  lemma FirstPersist(res: seq<Byte>) returns (acts: seq<Act>, s: State)
    requires res != []
    ensures Run(Start(1), acts, s, res)
    ensures s.live && s.lock.Free? && s.disk.linked && s.disk.sidecar == Some({0})
  {
    hide Run, Start, Honest;
    acts, s := FirstKick(res);
    s, acts := Go(acts, s, res);
    s, acts := Go(acts, s, res);
    s, acts := Go(acts, s, res);
    s, acts := Go(acts, s, res);
    s, acts := Go(acts, s, res);
    s, acts := Go(acts, s, res);
    s, acts := Go(acts, s, res);
  }

  lemma Go(acts: seq<Act>, s: State, res: seq<Byte>) returns (t: State, longer: seq<Act>)
    requires Run(Start(1), acts, s, res) && |s.workers| == 1 && !s.workers[0].Rekicking? && Enabled(s, Step(0, false))
    ensures Run(Start(1), longer, t, res) && t == DoStep(s, 0, false)
    ensures t.workers == [NextPc(s, s.workers[0], false)]
  {
    t, longer := Take(Start(1), acts, s, Step(0, false), res);
  }

  lemma Take(from: State, acts: seq<Act>, s: State, a: Act, res: seq<Byte>) returns (t: State, longer: seq<Act>)
    requires Run(from, acts, s, res) && Enabled(s, a) && Honest(a, res)
    ensures Run(from, longer, t, res) && t == Do(s, a)
  {
    Then(from, acts, s, a, res);
    t, longer := Do(s, a), acts + [a];
  }

  /** The eviction window is real: one byte persisted, then a termination caught between its
      first two unlinks. */
  lemma EvictWindowIsReachable(res: seq<Byte>) returns (acts: seq<Act>, s: State)
    requires res != []
    ensures Run(Start(1), acts, s, res) && !CrashHonest(s, res)
  {
    acts, s := FirstPersist(res);
    s, acts := Take(Start(1), acts, s, Terminate, res);
    s, acts := Take(Start(1), acts, s, Evict, res);
    assert 0 in s.disk.sidecar.value && 0 !in Left(s);
  }
}
