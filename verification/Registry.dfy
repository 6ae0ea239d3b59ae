/** The session map under concurrent prepares, adoptions, consumers, reaper and shutdown. Every
    critical section is one step; only one prepare, adoption or shutdown is inside
    `prepare_lock`, and everything else interleaves freely. */
module Registry {
  import opened Prelude
  import opened SessionState

  type Handle = nat

  /** What coalescing keys on: provider and source reference. */
  type Key = nat

  /** One session: what it was minted for, whether any slot ever claimed it, and when its URL expires. */
  datatype Entry = Entry(life: Life, key: Key, everClaimed: bool, expires: Option<U64>)
  {
    /** A speculative session nobody has taken up yet. */
    predicate Fresh() {
      life.Live() && !life.everAttached && !everClaimed
    }

    ghost predicate Sane() {
      life.Sane() && (life.claimed ==> everClaimed)
    }
  }

  /** What the caller inside `prepare_lock` wants: a session for `key`, sparing `except`, the
      survivor of a coalesced prepare. */
  datatype Job = Job(key: Key, except: Option<Handle>)

  /** How far it has come. `list` is what it will report as superseded. */
  datatype Phase =
    | Idle
    | Entered(key: Key, adopt: bool)
    | Scanning(job: Job, todo: set<Handle>, doomed: set<Handle>)
    | Pruning(job: Job, todo: set<Handle>, doomed: set<Handle>, list: seq<Handle>)
    | Striking(job: Job, doomed: set<Handle>, list: seq<Handle>)
    | Inserting(key: Key, handle: Handle, list: seq<Handle>)
    | Sweeping(todo: set<Handle>)

  /** What a prepare or an adoption returned. */
  datatype Prepared = Prepared(key: Key, handle: Handle, superseded: seq<Handle>)

  datatype State = State(
    all: map<Handle, Entry>,
    present: set<Handle>,
    next: Handle,
    shutdown: bool,
    down: bool,
    phase: Phase,
    results: seq<Prepared>)

  function Start(): State {
    State(map[], {}, 0, false, false, Idle, [])
  }

  /** What consumers, owners, the pump and the reaper may do to a session at any moment. */
  datatype Op =
    | Attach
    | Close
    | Claim
    | ClaimIfLive
    | Abandon
    | CancelIfUnattached
    | End(error: StreamError)
    | Remint(expires: Option<U64>)

  function Apply(e: Entry, op: Op, now: nat): Entry {
    match op
    case Attach => if e.life.Live() then e.(life := e.life.Attach()) else e
    case Close => e.(life := e.life.Close(now))
    case Claim => e.(life := e.life.Claim(), everClaimed := true)
    case ClaimIfLive => if e.life.Live() then e.(life := e.life.Claim(), everClaimed := true) else e
    case Abandon => e.(life := e.life.Abandon())
    case CancelIfUnattached => if e.life.Unowned() then e.(life := e.life.End(Cancelled)) else e
    case End(error) => e.(life := e.life.End(error))
    case Remint(expires) => e.(expires := expires)
  }

  datatype Act =
    | Enter(key: Key, adopt: bool)
    | Reuse(h: Handle)
    | NoReuse
    | Inspect(h: Handle, doom: bool)
    | Inspected
    | Prune(h: Handle)
    | Pruned
    | Strike(h: Handle)
    | Finish(now: nat, expires: Option<U64>)
    | Insert
    | EnterShutdown
    | Sweep(h: Handle)
    | Swept
    | Run(h: Handle, op: Op, now: nat)
    | Reap(h: Handle, now: nat, ttl: nat)

  /** A coalescing candidate: live, unattached, still fresh by the clock, same key. */
  predicate Reusable(s: State, h: Handle, key: Key) {
    h in s.present && h in s.all && s.all[h].life.Live() && !s.all[h].life.attached && s.all[h].key == key
  }

  /** The map lock is held across a scan and a prune. */
  predicate MapFree(s: State) {
    !s.phase.Scanning? && !s.phase.Pruning?
  }

  predicate Enabled(s: State, a: Act) {
    match a
    case Enter(_, _) => s.phase.Idle?
    case Reuse(h) => s.phase.Entered? && Reusable(s, h, s.phase.key)
    case NoReuse => s.phase.Entered?
    case Inspect(h, doom) =>
      // The three flags are read in three sections, so a pick may be stale; passing a session
      // over needs one of them seen set, or the exemption.
      && s.phase.Scanning? && h in s.phase.todo && h in s.all
      && (doom || s.phase.job.except == Some(h) || !s.all[h].life.Unowned() || !s.all[h].life.Live())
      && (doom ==> s.phase.job.except != Some(h))
    case Inspected => s.phase.Scanning? && s.phase.todo == {}
    case Prune(h) => s.phase.Pruning? && h in s.phase.todo && h in s.all
    case Pruned => s.phase.Pruning? && s.phase.todo == {}
    case Strike(h) => s.phase.Striking? && h in s.phase.doomed && h in s.all
    case Finish(_, _) => s.phase.Striking? && s.phase.doomed == {}
    case Insert => s.phase.Inserting? && s.phase.handle in s.all
    case EnterShutdown => s.phase.Idle?
    case Sweep(h) => s.phase.Sweeping? && h in s.phase.todo && h in s.all
    case Swept => s.phase.Sweeping? && s.phase.todo == {}
    case Run(h, _, _) => h in s.all
    case Reap(h, _, _) => h in s.all && h in s.present && MapFree(s)
  }

  /** `terminate_if` with the guard of every unattached-only teardown. */
  function Supersede(e: Entry): Entry {
    if e.life.Unowned() then e.(life := e.life.End(Superseded)) else e
  }

  /** The sessions after a step. */
  function NextAll(s: State, a: Act): map<Handle, Entry>
    requires Enabled(s, a)
  {
    match a
    case Strike(h) => s.all[h := Supersede(s.all[h])]
    case Finish(now, expires) =>
      if s.phase.job.except.None? then s.all[s.next := Entry(NewLife(now), s.phase.job.key, false, expires)] else s.all
    case Sweep(h) => s.all[h := Apply(s.all[h], End(Cancelled), 0)]
    case Run(h, op, now) => s.all[h := Apply(s.all[h], op, now)]
    case Reap(h, now, ttl) =>
      if s.all[h].life.Stale(now, ttl) then s.all[h := Apply(s.all[h], End(Evicted), now)] else s.all
    case _ => s.all
  }

  /** The map's handles after a step. */
  function NextPresent(s: State, a: Act): set<Handle>
    requires Enabled(s, a)
  {
    match a
    case Prune(h) => if Prunes(s, h) then s.present - {h} else s.present
    case Insert => s.present + {s.phase.handle}
    case Reap(h, now, ttl) =>
      if s.all[h].life.Live() && s.all[h].life.Stale(now, ttl) then s.present - {h} else s.present
    case _ => s.present
  }

  predicate Prunes(s: State, h: Handle)
    requires s.phase.Pruning? && h in s.all
  {
    !s.all[h].life.Live() && s.phase.job.except != Some(h)
  }

  function NextPhase(s: State, a: Act): Phase
    requires Enabled(s, a)
  {
    match a
    // A prepare re-checks the flag under the lock; an adoption looked at it before.
    case Enter(key, adopt) => if s.shutdown && !adopt then Idle else Entered(key, adopt)
    case Reuse(h) => Scanning(Job(s.phase.key, Some(h)), s.present, {})
    case NoReuse => if s.phase.adopt then Idle else Scanning(Job(s.phase.key, None), s.present, {})
    case Inspect(h, doom) =>
      Scanning(s.phase.job, s.phase.todo - {h}, s.phase.doomed + if doom then {h} else {})
    case Inspected => Pruning(s.phase.job, s.present, s.phase.doomed, [])
    case Prune(h) =>
      Pruning(s.phase.job, s.phase.todo - {h}, s.phase.doomed, s.phase.list + if Prunes(s, h) then [h] else [])
    case Pruned => Striking(s.phase.job, s.phase.doomed, s.phase.list)
    case Strike(h) =>
      Striking(s.phase.job, s.phase.doomed - {h},
               s.phase.list + if Supersede(s.all[h]).life.Live() then [] else [h])
    case Finish(_, _) => if s.phase.job.except.None? then Inserting(s.phase.job.key, s.next, s.phase.list) else Idle
    case Insert => Idle
    case EnterShutdown => Sweeping(s.present)
    case Sweep(h) => Sweeping(s.phase.todo - {h})
    case Swept => Idle
    case Run(_, _, _) => s.phase
    case Reap(_, _, _) => s.phase
  }

  function NextResults(s: State, a: Act): seq<Prepared>
    requires Enabled(s, a)
  {
    if a.Finish? && s.phase.job.except.Some? then
      s.results + [Prepared(s.phase.job.key, s.phase.job.except.value, s.phase.list)]
    else if a.Insert? then s.results + [Prepared(s.phase.key, s.phase.handle, s.phase.list)]
    else s.results
  }

  function Do(s: State, a: Act): State
    requires Enabled(s, a)
  {
    State(NextAll(s, a), NextPresent(s, a),
          if a.Finish? && s.phase.job.except.None? then s.next + 1 else s.next,
          s.shutdown || a.EnterShutdown?, s.down || a.Swept?, NextPhase(s, a), NextResults(s, a))
  }

  // ---- what every state keeps -----------------------------------------------------------

  /** Bookkeeping that ties the map to the sessions ever created. */
  ghost predicate Known(s: State) {
    && s.present <= s.all.Keys
    && (forall h :: h in s.all ==> h < s.next && s.all[h].Sane())
    && (s.phase.Scanning? || s.phase.Pruning? || s.phase.Sweeping? ==> s.phase.todo <= s.all.Keys)
    && (s.phase.Scanning? || s.phase.Pruning? || s.phase.Striking? ==> s.phase.doomed <= s.all.Keys)
  }

  /** A live session is in the map, or on its way in. */
  ghost predicate LiveMapped(s: State) {
    forall h :: h in s.all && s.all[h].life.Live() ==> h in s.present || (s.phase.Inserting? && h == s.phase.handle)
  }

  /** At most one live session that was never attached and never claimed. */
  ghost predicate OneFresh(all: map<Handle, Entry>) {
    forall h, g :: h in all && g in all && all[h].Fresh() && all[g].Fresh() ==> h == g
  }

  /** Where a fresh session may stand while a scan is under way. */
  predicate Caught(phase: Phase, h: Handle) {
    match phase
    case Scanning(job, todo, doomed) => job.except == Some(h) || h in todo || h in doomed
    case Pruning(job, _, doomed, _) => job.except == Some(h) || h in doomed
    case Striking(job, doomed, _) => job.except == Some(h) || h in doomed
    case Inserting(_, handle, _) => h == handle
    case _ => true
  }

  /** No fresh session escapes the scan that precedes an insertion. */
  ghost predicate ScanCovers(s: State) {
    forall h :: h in s.all && s.all[h].Fresh() ==> Caught(s.phase, h)
  }

  /** Everything on a superseded list has ended, and is not the survivor. */
  ghost predicate ListDead(all: map<Handle, Entry>, except: Option<Handle>, list: seq<Handle>) {
    forall i :: 0 <= i < |list| ==> list[i] in all && !all[list[i]].life.Live() && except != Some(list[i])
  }

  ghost predicate ListsDead(s: State) {
    && (s.phase.Scanning? || s.phase.Pruning? || s.phase.Striking? ==>
          forall h :: h in s.phase.doomed ==> s.phase.job.except != Some(h))
    && (s.phase.Pruning? || s.phase.Striking? ==> ListDead(s.all, s.phase.job.except, s.phase.list))
    && (s.phase.Inserting? ==> ListDead(s.all, Some(s.phase.handle), s.phase.list))
    && (forall i :: 0 <= i < |s.results| ==> ListDead(s.all, Some(s.results[i].handle), s.results[i].superseded))
  }

  /** No phase that may create a session runs once the flag is up, and a completed sweep left
      nothing alive. */
  ghost predicate ShutdownHolds(s: State) {
    && (s.down ==> s.shutdown)
    && (s.shutdown ==> match s.phase
                       case Entered(_, adopt) => adopt
                       case Scanning(job, _, _) => job.except.Some?
                       case Pruning(job, _, _, _) => job.except.Some?
                       case Striking(job, _, _) => job.except.Some?
                       case Inserting(_, _, _) => false
                       case _ => true)
    && (s.phase.Sweeping? ==> s.shutdown && forall h :: h in s.all && s.all[h].life.Live() ==> h in s.phase.todo)
    && (s.down ==> forall h :: h in s.all ==> !s.all[h].life.Live())
  }

  /** A survivor or a new session was minted for the key it is returned for. */
  ghost predicate KeyOf(all: map<Handle, Entry>, h: Handle, key: Key) {
    h in all && all[h].key == key
  }

  ghost predicate KeysMatch(s: State) {
    && (s.phase.Scanning? || s.phase.Pruning? || s.phase.Striking? ==>
          s.phase.job.except.Some? ==> KeyOf(s.all, s.phase.job.except.value, s.phase.job.key))
    && (s.phase.Inserting? ==> KeyOf(s.all, s.phase.handle, s.phase.key))
    && (forall i :: 0 <= i < |s.results| ==> KeyOf(s.all, s.results[i].handle, s.results[i].key))
  }

  ghost predicate Inv(s: State) {
    KeysMatch(s) && Known(s) && LiveMapped(s) && OneFresh(s.all) && ScanCovers(s) && ListsDead(s) && ShutdownHolds(s)
  }

  /** No step revives a session, unattaches its history or unclaims it; at most one session is
      created, and it is the next handle. */
  ghost predicate Ages(a: Entry, b: Entry) {
    && (!a.life.Live() ==> !b.life.Live())
    && (a.Sane() ==> b.Sane())
    && (b.Fresh() ==> a.Fresh())
    && b.key == a.key
  }

  lemma ApplyAges(e: Entry, op: Op, now: nat)
    ensures Ages(e, Apply(e, op, now))
  {
  }

  lemma EntriesAge(s: State, a: Act)
    requires Known(s) && Enabled(s, a)
    ensures var t := NextAll(s, a);
            && (forall h :: h in s.all ==> h in t && Ages(s.all[h], t[h]))
            && (forall h :: h in t && h !in s.all ==> a.Finish? && s.phase.job.except.None? && h == s.next)
  {
    match a
    case Run(h, op, now) => ApplyAges(s.all[h], op, now);
    case Sweep(h) => ApplyAges(s.all[h], End(Cancelled), 0);
    case Reap(h, now, _) => ApplyAges(s.all[h], End(Evicted), now);
    case Strike(h) =>
    case Finish(now, expires) =>
    case _ =>
  }

  lemma KnownKept(s: State, a: Act)
    requires Known(s) && Enabled(s, a)
    ensures Known(Do(s, a))
  {
    hide Apply, Supersede, Reusable, MapFree, NextResults, Entry.Sane, Prunes;
    EntriesAge(s, a);
    NewIsSane(s, a);
  }

  lemma NewIsSane(s: State, a: Act)
    requires Known(s) && Enabled(s, a)
    ensures a.Finish? && s.phase.job.except.None? ==> NextAll(s, a)[s.next].Sane() && NextAll(s, a)[s.next].Fresh()
  {
  }

  lemma LiveMappedKept(s: State, a: Act)
    requires Known(s) && LiveMapped(s) && Enabled(s, a)
    ensures LiveMapped(Do(s, a))
  {
    EntriesAge(s, a);
    hide Apply, Supersede, Reusable, MapFree, NextResults, Known;
  }

  lemma OneFreshKept(s: State, a: Act)
    requires Known(s) && OneFresh(s.all) && ScanCovers(s) && Enabled(s, a)
    ensures OneFresh(Do(s, a).all)
  {
    hide Apply, Supersede, Reusable, MapFree, NextResults, NextPhase, NextPresent, NextAll, Known;
    EntriesAge(s, a);
  }

  lemma ScanCoversKept(s: State, a: Act)
    requires Known(s) && LiveMapped(s) && ScanCovers(s) && Enabled(s, a)
    ensures ScanCovers(Do(s, a))
  {
    EntriesAge(s, a);
  }

  lemma ListsDeadKept(s: State, a: Act)
    requires Known(s) && ListsDead(s) && Enabled(s, a)
    ensures ListsDead(Do(s, a))
  {
    hide Reusable, MapFree, NextPresent, Entry.Sane, Entry.Fresh, Apply;
    EntriesAge(s, a);
  }

  lemma ShutdownKept(s: State, a: Act)
    requires Known(s) && LiveMapped(s) && ShutdownHolds(s) && Enabled(s, a)
    ensures ShutdownHolds(Do(s, a))
  {
    hide Reusable, MapFree, NextPresent, NextResults, Entry.Sane, Entry.Fresh;
    EntriesAge(s, a);
  }

  lemma KeysMatchKept(s: State, a: Act)
    requires Known(s) && KeysMatch(s) && Enabled(s, a)
    ensures KeysMatch(Do(s, a))
  {
    EntriesAge(s, a);
  }

  lemma ActKeeps(s: State, a: Act)
    requires Inv(s) && Enabled(s, a)
    ensures Inv(Do(s, a))
  {
    hide Known, LiveMapped, OneFresh, ScanCovers, ListsDead, ShutdownHolds, KeysMatch, Do, Enabled;
    KeysMatchKept(s, a);
    KnownKept(s, a);
    LiveMappedKept(s, a);
    OneFreshKept(s, a);
    ScanCoversKept(s, a);
    ListsDeadKept(s, a);
    ShutdownKept(s, a);
  }

  // ---- runs -------------------------------------------------------------------------------

  ghost predicate Runs(s: State, acts: seq<Act>, t: State)
    decreases acts
  {
    if acts == [] then s == t
    else Enabled(s, acts[0]) && Runs(Do(s, acts[0]), acts[1..], t)
  }

  lemma {:induction false} RunKeeps(s: State, acts: seq<Act>, t: State)
    requires Inv(s) && Runs(s, acts, t)
    ensures Inv(t) && (s.down ==> t.down)
    decreases acts
  {
    hide Inv, NextAll, NextPhase, NextPresent, NextResults, Enabled;
    if acts != [] {
      ActKeeps(s, acts[0]);
      RunKeeps(Do(s, acts[0]), acts[1..], t);
    }
  }

  lemma Reached(acts: seq<Act>, s: State)
    requires Runs(Start(), acts, s)
    ensures Inv(s)
  {
    assert Inv(Start());
    RunKeeps(Start(), acts, s);
  }

  /** However prepares, adoptions and consumers interleave, at most one live session has never
      been attached and never claimed. */
  lemma AtMostOneFresh(acts: seq<Act>, s: State, h: Handle, g: Handle)
    requires Runs(Start(), acts, s)
    requires h in s.all && g in s.all && s.all[h].Fresh() && s.all[g].Fresh()
    ensures h == g
  {
    Reached(acts, s);
  }

  /** Whatever a prepare or an adoption returned: a session minted for the key asked, and a list
      of sessions that have all ended and never include it. */
  lemma ReturnsAreSound(acts: seq<Act>, s: State, i: nat)
    requires Runs(Start(), acts, s) && i < |s.results|
    ensures var r := s.results[i];
            && KeyOf(s.all, r.handle, r.key) && r.handle !in r.superseded
            && (forall h :: h in r.superseded ==> h in s.all && !s.all[h].life.Live())
  {
    Reached(acts, s);
    var r := s.results[i];
    assert ListDead(s.all, Some(r.handle), r.superseded);
  }

  // ---- one scan, from wherever it stands to its return ----------------------------------------

  /** A scan is under way and means to end `h`. */
  predicate Doomed(phase: Phase, h: Handle) {
    (phase.Scanning? || phase.Pruning? || phase.Striking?) && h in phase.doomed
  }

  /** The run of everything up to the return of the prepare or adoption under way: `prepare_lock`
      is held throughout, and the last step gives it up. */
  ghost predicate Returns(s: State, acts: seq<Act>, t: State)
    decreases acts
  {
    && acts != [] && Enabled(s, acts[0])
    && var u := Do(s, acts[0]);
       if u.phase.Idle? then acts[1..] == [] && u == t else Returns(u, acts[1..], t)
  }

  /** The actions of sessions and of the reaper, which no scan takes. */
  predicate Outside(a: Act) {
    a.Run? || a.Reap?
  }

  /** Attached, or in somebody's slot. */
  predicate Owned(e: Entry) {
    e.life.Live() && !e.life.Unowned()
  }

  /** No step of the scan itself changes `h`, all along a run. */
  ghost predicate Spared(s: State, acts: seq<Act>, h: Handle)
    decreases acts
  {
    acts != [] && Enabled(s, acts[0]) ==>
      && (!Outside(acts[0]) && h in s.all ==> h in Do(s, acts[0]).all && Do(s, acts[0]).all[h] == s.all[h])
      && Spared(Do(s, acts[0]), acts[1..], h)
  }

  /** Already on the list of the scan under way. */
  predicate Listed(phase: Phase, h: Handle) {
    (phase.Pruning? || phase.Striking? || phase.Inserting?) && h in phase.list
  }

  /** Only its strike touches a session the scan means to end, and only its strike or a prune of
      its remains lists it. */
  lemma DoomStays(s: State, a: Act, h: Handle)
    requires Known(s) && Enabled(s, a) && Doomed(s.phase, h) && a != Strike(h)
    ensures Doomed(Do(s, a).phase, h)
    ensures !Outside(a) ==> h in Do(s, a).all && Do(s, a).all[h] == s.all[h]
    ensures Do(s, a).results == s.results
    ensures Listed(Do(s, a).phase, h) ==> Listed(s.phase, h) || !s.all[h].life.Live()
  {
    hide Reusable, MapFree, Apply, Supersede, Entry.Sane, NextPresent;
  }

  /** Past its strike the scan is done with it: it stays as it is, listed or not. */
  predicate Done(phase: Phase, h: Handle) {
    (phase.Striking? && h !in phase.doomed) || phase.Inserting?
  }

  lemma DoneStays(s: State, a: Act, h: Handle)
    requires Known(s) && Enabled(s, a) && h in s.all && Done(s.phase, h)
    ensures a != Strike(h)
    ensures !Outside(a) ==> h in Do(s, a).all && Do(s, a).all[h] == s.all[h]
    ensures var t := Do(s, a);
            if t.phase.Idle? then
              |t.results| == |s.results| + 1 && t.results[..|s.results|] == s.results
              && (h in t.results[|s.results|].superseded <==> Listed(s.phase, h))
            else
              t.results == s.results && Done(t.phase, h) && (Listed(t.phase, h) <==> Listed(s.phase, h))
  {
    hide Reusable, MapFree, Apply, Supersede, Entry.Sane, NextPresent;
  }

  /** What a strike leaves: an owned session as it was, an unowned one ended. */
  predicate StruckTo(e: Entry, all: map<Handle, Entry>, h: Handle) {
    h in all && all[h] == if Owned(e) then e else e.(life := e.life.End(Superseded))
  }

  /** The strike: an owner keeps the session as it is and off the list. */
  lemma StrikeDecides(s: State, h: Handle)
    requires Inv(s) && Enabled(s, Strike(h))
    requires Listed(s.phase, h) ==> !s.all[h].life.Live()
    ensures var t := Do(s, Strike(h));
            && Done(t.phase, h) && !t.phase.Idle? && t.results == s.results && h in t.all
            && StruckTo(s.all[h], t.all, h) && (Owned(s.all[h]) ==> t.all[h] == s.all[h])
            && (Listed(t.phase, h) <==> !Owned(s.all[h]))
  {
    hide Known, LiveMapped, OneFresh, ScanCovers, ShutdownHolds, KeysMatch;
  }

  /** From past the strike to the return. */
  lemma {:induction false} AfterStrike(s: State, acts: seq<Act>, t: State, h: Handle)
    requires Inv(s) && Returns(s, acts, t) && h in s.all && Done(s.phase, h)
    ensures Strike(h) !in acts && Spared(s, acts, h)
    ensures |t.results| == |s.results| + 1 && t.results[..|s.results|] == s.results
    ensures h in t.results[|s.results|].superseded <==> Listed(s.phase, h)
    decreases acts
  {
    hide Do, Enabled, Listed, Done, Inv, Outside;
    var a, u := acts[0], Do(s, acts[0]);
    assert Known(s) by {
      InvKnows(s);
    }
    DoneStays(s, a, h);
    assert h in u.all by {
      StillKnown(s, a, h);
    }
    ActKeeps(s, a);
    if !u.phase.Idle? {
      AfterStrike(u, acts[1..], t, h);
    }
  }

  lemma DoomedLives(s: State, h: Handle)
    requires Inv(s) && Doomed(s.phase, h)
    ensures h in s.all && (Listed(s.phase, h) ==> !s.all[h].life.Live())
  {
    if Listed(s.phase, h) {
      assert ListDead(s.all, s.phase.job.except, s.phase.list);
    }
  }

  lemma InvKnows(s: State)
    requires Inv(s)
    ensures Known(s)
  {
  }

  lemma StillKnown(s: State, a: Act, h: Handle)
    requires Known(s) && Enabled(s, a) && h in s.all
    ensures h in Do(s, a).all
  {
    EntriesAge(s, a);
  }

  /** From wherever the scan stands to its return. */
  lemma {:induction false} StruckOnce(s: State, acts: seq<Act>, t: State, h: Handle) returns (k: nat, u: State)
    requires Inv(s) && Returns(s, acts, t) && Doomed(s.phase, h) && h in s.all
    requires Listed(s.phase, h) ==> !s.all[h].life.Live()
    ensures k < |acts| && acts[k] == Strike(h) && Runs(s, acts[..k], u)
    ensures forall j :: 0 <= j < |acts| && acts[j] == Strike(h) ==> j == k
    ensures Enabled(u, Strike(h)) && h in u.all && StruckTo(u.all[h], Do(u, Strike(h)).all, h)
    ensures |t.results| == |s.results| + 1 && t.results[..|s.results|] == s.results
    ensures h in t.results[|s.results|].superseded <==> !Owned(u.all[h])
    ensures Owned(u.all[h]) ==> Spared(s, acts, h)
    decreases acts
  {
    hide Do, Enabled, Listed, Done, Inv, Outside, Owned, Doomed, StruckTo;
    var a, v := acts[0], Do(s, acts[0]);
    InvKnows(s);
    ActKeeps(s, a);
    if a == Strike(h) {
      k, u := 0, s;
      assert acts[..0] == [];
      StrikeDecides(s, h);
      AfterStrike(v, acts[1..], t, h);
    } else {
      DoomStays(s, a, h);
      StillKnown(s, a, h);
      assert !v.phase.Idle? by {
        DoomBusy(v.phase, h);
      }
      assert Listed(v.phase, h) ==> !v.all[h].life.Live() by {
        EntriesAge(s, a);
        SameAll(s, a);
      }
      k, u := StruckOnce(v, acts[1..], t, h);
      assert acts[..k + 1] == [a] + acts[1..][..k];
      RunsOn(s, a, acts[1..][..k], u);
      k := k + 1;
    }
  }

  lemma SameAll(s: State, a: Act)
    requires Enabled(s, a)
    ensures Do(s, a).all == NextAll(s, a)
  {
  }

  lemma DoomBusy(phase: Phase, h: Handle)
    requires Doomed(phase, h)
    ensures !phase.Idle?
  {
  }

  lemma RunsOn(s: State, a: Act, acts: seq<Act>, t: State)
    requires Enabled(s, a) && Runs(Do(s, a), acts, t)
    ensures Runs(s, [a] + acts, t)
  {
    hide Do, Enabled;
    assert ([a] + acts)[1..] == acts;
  }

  /** An attach or a claim racing a scan wins. Take any reachable state in which a scan means to end
      `h`, and any way on to that prepare's return: `h` is struck exactly once, and what the prepare
      returns names it exactly if nobody owned it alive at that moment. If somebody did, then no step
      of the scan, before the strike, at it or after it, changed the session. */
  lemma RacingOwnerWins(past: seq<Act>, s: State, acts: seq<Act>, t: State, h: Handle) returns (k: nat, u: State)
    requires Runs(Start(), past, s) && Doomed(s.phase, h) && Returns(s, acts, t)
    ensures k < |acts| && acts[k] == Strike(h) && Runs(s, acts[..k], u)
    ensures forall j :: 0 <= j < |acts| && acts[j] == Strike(h) ==> j == k
    ensures Enabled(u, Strike(h)) && h in u.all && StruckTo(u.all[h], Do(u, Strike(h)).all, h)
    ensures |t.results| == |s.results| + 1 && t.results[..|s.results|] == s.results
    ensures h in t.results[|s.results|].superseded <==> !Owned(u.all[h])
    ensures Owned(u.all[h]) ==> Spared(s, acts, h)
  {
    hide Returns, Owned, Spared, Inv, StruckTo;
    Reached(past, s);
    DoomedLives(s, h);
    k, u := StruckOnce(s, acts, t, h);
  }

  /** A dead session in the map, as far as the scan has got with it: still to be pruned, or pruned and
      listed. */
  predicate Reports(s: State, h: Handle) {
    && h in s.all && !s.all[h].life.Live()
    && match s.phase
       case Scanning(job, _, _) => h in s.present && job.except != Some(h)
       case Pruning(job, todo, _, list) =>
         (h in s.present && h in todo && job.except != Some(h)) || (h !in s.present && h in list)
       case Striking(_, _, list) => h !in s.present && h in list
       case Inserting(_, handle, list) => h !in s.present && h in list && h != handle
       case _ => false
  }

  lemma ReportsOn(s: State, a: Act, h: Handle)
    requires Known(s) && Enabled(s, a) && Reports(s, h)
    ensures var t := Do(s, a);
            if t.phase.Idle? then
              |t.results| == |s.results| + 1 && h in t.results[|s.results|].superseded && h !in t.present
            else t.results == s.results && Reports(t, h)
  {
    hide Reusable, Supersede, Apply, Entry.Sane;
    EntriesAge(s, a);
  }

  lemma {:induction false} PrunedFrom(s: State, acts: seq<Act>, t: State, h: Handle)
    requires Inv(s) && Returns(s, acts, t) && Reports(s, h)
    ensures |t.results| == |s.results| + 1 && h in t.results[|s.results|].superseded && h !in t.present
    decreases acts
  {
    hide Do, Enabled, Reports, Inv;
    assert Known(s) by {
      InvKnows(s);
    }
    ReportsOn(s, acts[0], h);
    ActKeeps(s, acts[0]);
    if !Do(s, acts[0]).phase.Idle? {
      PrunedFrom(Do(s, acts[0]), acts[1..], t, h);
    }
  }

  /** Whatever was dead in the map when a scan began, but for the survivor, is out of it and on the list
      when that prepare or adoption returns, whatever happens meanwhile. */
  lemma DeadAreReported(past: seq<Act>, s: State, acts: seq<Act>, t: State, h: Handle)
    requires Runs(Start(), past, s) && s.phase.Scanning? && Returns(s, acts, t)
    requires h in s.present && h in s.all && !s.all[h].life.Live() && s.phase.job.except != Some(h)
    ensures |t.results| == |s.results| + 1 && h in t.results[|s.results|].superseded && h !in t.present
  {
    hide Returns, Inv;
    Reached(past, s);
    PrunedFrom(s, acts, t, h);
  }

  /** The reaper evicts exactly what has been detached for the whole ttl, and forgets it. */
  lemma ReaperTakesStale(s: State, h: Handle, now: nat, ttl: nat)
    requires Known(s) && Enabled(s, Reap(h, now, ttl)) && s.all[h].life.terminal.None?
    ensures var t, since := Do(s, Reap(h, now, ttl)), s.all[h].life.detachedSince;
            if since.Some? && now - since.value >= ttl then
              && t.all == s.all[h := s.all[h].(life := s.all[h].life.(terminal := Some(Evicted)))]
              && t.present == s.present - {h}
            else t.all == s.all && t.present == s.present
  {
  }

  /** The reaper's recheck: a session a consumer holds is never evicted. */
  lemma ReaperSparesAttached(acts: seq<Act>, s: State, h: Handle, now: nat, ttl: nat)
    requires Runs(Start(), acts, s) && Enabled(s, Reap(h, now, ttl)) && s.all[h].life.attached
    ensures Do(s, Reap(h, now, ttl)).all == s.all && Do(s, Reap(h, now, ttl)).present == s.present
  {
    Reached(acts, s);
    assert s.all[h].Sane();
  }

  /** Once a shutdown has completed no session is ever live again. */
  lemma ShutdownIsFinal(acts: seq<Act>, s: State, later: seq<Act>, t: State, h: Handle)
    requires Runs(Start(), acts, s) && s.down && Runs(s, later, t) && h in t.all
    ensures !t.all[h].life.Live()
  {
    Reached(acts, s);
    RunKeeps(s, later, t);
  }

  /** A live session can always be found by its handle once its prepare returned. */
  lemma LiveIsFindable(acts: seq<Act>, s: State, h: Handle)
    requires Runs(Start(), acts, s) && h in s.all && s.all[h].life.Live() && !s.phase.Inserting?
    ensures h in s.present
  {
    Reached(acts, s);
  }
}
