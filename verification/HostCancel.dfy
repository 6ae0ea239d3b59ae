/** Cancel is never lost: for ids that are not reused, a cancel that came after the start
    returned. */
module HostCancel {
  import opened Prelude
  import opened SessionState
  import opened Host
  import opened HostOwnership
  import opened HostRuns

  /** The id was started at most once. */
  ghost predicate Solo(tasks: seq<Task>, id: Id) {
    forall i, j :: 0 <= i < |tasks| && 0 <= j < |tasks| && tasks[i].id == id && tasks[j].id == id ==> i == j
  }

  /** Its start has returned, and if it has yet to decide on a commit its token is spent. */
  predicate NeverCommits(cancels: map<Id, LiveRequest>, t: Task) {
    Returned(t) && (PreCommit(t) ==> t.id in cancels && cancels[t.id].cancelled)
  }

  ghost predicate Started(tasks: seq<Task>, id: Id) {
    exists i :: 0 <= i < |tasks| && tasks[i].id == id
  }

  /** What one cancel has achieved so far: after its first look no commit can follow it, an idle
      id has no slot mid-delivery, and once it took the slot the id never has one again. */
  ghost predicate CancelOk(s: State, c: Canceler) {
    !c.pc.Begin? && !c.early && Solo(s.tasks, c.id) ==>
      && Started(s.tasks, c.id)
      && (forall i :: 0 <= i < |s.tasks| && s.tasks[i].id == c.id ==> NeverCommits(s.cancels, s.tasks[i]))
      && (c.pc.IdleSeen? && c.id in s.slots ==> s.slots[c.id].delivered)
      && (c.pc.Taken? || c.pc.Done? ==> c.id !in s.slots)
  }

  ghost predicate CancelsOk(s: State) {
    forall c :: 0 <= c < |s.cancelers| ==> CancelOk(s, s.cancelers[c])
  }

  // ---- what a step leaves of a cancel's work -------------------------------------------------

  /** A request that cannot commit any more never can again. */
  lemma StaysUncommitted(s: State, t: Task, ch: Choice)
    requires NeverCommits(s.cancels, t) && Placed(s.slots, s.cancels, s.nextGen, t) && Held(s.lives, t)
    ensures NeverCommits(NextCancels(s, t, ch), NextTask(s, t, ch)) && !Commits(s, t)
  {
    hide Duplicate, AdmitTask, LiveAt, Spendable, Pruned, Grounded;
  }

  /** A step touches no other id's entry. */
  lemma EntriesElsewhere(s: State, t: Task, ch: Choice, id: Id)
    requires id != t.id
    ensures id in NextCancels(s, t, ch) <==> id in s.cancels
    ensures id in s.cancels ==> NextCancels(s, t, ch)[id] == s.cancels[id]
  {
  }

  lemma StepKeepsCancel(s: State, i: nat, ch: Choice, c: Canceler)
    requires Inv(s) && CancelOk(s, c) && Enabled(s, Step(i, ch))
    ensures CancelOk(DoStep(s, i, ch), c)
  {
    hide NextTask, NextSlots, NextCancels, NextLives, NextStones, NextInFlight, NextBusy, Placed, Held, NeverCommits,
      MayStep, Commits, Unique, BusyOk, SlotsOk, ClaimsOk;
    var u, t := DoStep(s, i, ch), s.tasks[i];
    KindKept(s, t, ch);
    SlotsAfter(s, t);
    if !c.pc.Begin? && !c.early && Solo(u.tasks, c.id) {
      SoloBefore(s.tasks, i, u.tasks, c.id);
      var k :| 0 <= k < |s.tasks| && s.tasks[k].id == c.id;
      assert u.tasks[k].id == c.id;
      forall j | 0 <= j < |u.tasks| && u.tasks[j].id == c.id ensures NeverCommits(u.cancels, u.tasks[j]) {
        assert NeverCommits(s.cancels, s.tasks[j]);
        if j == i {
          assert Placed(s.slots, s.cancels, s.nextGen, t) && Held(s.lives, t);
          StaysUncommitted(s, t, ch);
        } else {
          assert t.id != c.id;
          EntriesElsewhere(s, t, ch, c.id);
          SameEntry(s.cancels, u.cancels, s.tasks[j]);
        }
      }
      if t.id == c.id {
        assert Placed(s.slots, s.cancels, s.nextGen, t) && Held(s.lives, t);
        StaysUncommitted(s, t, ch);
      }
    }
  }

  lemma SameEntry(a: map<Id, LiveRequest>, b: map<Id, LiveRequest>, t: Task)
    requires NeverCommits(a, t) && (t.id in a ==> t.id in b && (a[t.id].cancelled ==> b[t.id].cancelled))
    ensures NeverCommits(b, t)
  {
  }

  lemma SoloBefore(a: seq<Task>, i: nat, b: seq<Task>, id: Id)
    requires i < |a| && |b| >= |a| && (forall k :: 0 <= k < |a| ==> b[k].id == a[k].id) && Solo(b, id)
    ensures Solo(a, id)
  {
    forall j, k | 0 <= j < |a| && 0 <= k < |a| && a[j].id == id && a[k].id == id ensures j == k {
      assert b[j].id == id && b[k].id == id;
    }
  }

  /** The first look spends the token of a prepare that has yet to decide. */
  lemma FirstLook(s: State, k: Canceler)
    requires Inv(s) && k.pc.Begin? && !NextCanceler(s, k).early
    ensures Started(s.tasks, k.id)
    ensures forall i :: 0 <= i < |s.tasks| && s.tasks[i].id == k.id ==> NeverCommits(CancelCancels(s, k), s.tasks[i])
  {
    forall i | 0 <= i < |s.tasks| && s.tasks[i].id == k.id ensures NeverCommits(CancelCancels(s, k), s.tasks[i]) {
      assert Placed(s.slots, s.cancels, s.nextGen, s.tasks[i]);
    }
  }

  lemma OwnCancel(s: State, k: Canceler, u: State)
    requires Inv(s) && Counted(s) && CancelOk(s, k) && MayCancel(s, k)
    requires u.tasks == s.tasks && u.cancels == CancelCancels(s, k)
    requires u.slots == if Takes(s, k) then s.slots - {k.id} else s.slots
    ensures CancelOk(u, NextCanceler(s, k))
  {
    hide NeverCommits, ClaimsOk, AllReturned, TasksOk, SlotsOk, Counted;
    var n := NextCanceler(s, k);
    if !n.early && Solo(s.tasks, n.id) {
      if k.pc.Begin? {
        FirstLook(s, k);
      } else {
        assert u.cancels == s.cancels;
        if k.pc.Waiting? && k.id in s.slots && !s.slots[k.id].delivered {
          Undelivered(s, k.id);
        }
      }
    }
  }

  lemma Undelivered(s: State, id: Id)
    requires Inv(s) && Counted(s) && id in s.slots && !s.slots[id].delivered
    ensures InFlight(s.inFlight, id) > 0
  {
    var i :| 0 <= i < |s.tasks| && Committer(s.lives, s.tasks[i], id, s.slots[id]);
    TicketsPositive(s.tasks, i);
    assert InFlight(s.inFlight, id) == Tickets(s.tasks, id);
  }

  /** Another cancel only removes slots and spends tokens. */
  lemma OtherCancel(s: State, k: Canceler, u: State, c: Canceler)
    requires CancelOk(s, c)
    requires u.tasks == s.tasks && u.cancels == CancelCancels(s, k)
    requires u.slots == if Takes(s, k) then s.slots - {k.id} else s.slots
    ensures CancelOk(u, c)
  {
    hide NeverCommits;
    forall i | 0 <= i < |s.tasks| && NeverCommits(s.cancels, s.tasks[i]) ensures NeverCommits(u.cancels, s.tasks[i]) {
      SameEntry(s.cancels, u.cancels, s.tasks[i]);
    }
  }

  lemma CancelStepKeeps(s: State, a: nat, room: bool, swept: set<Id>)
    requires Inv(s) && Counted(s) && CancelsOk(s) && Enabled(s, CancelStep(a, room, swept))
    ensures CancelsOk(DoCancelStep(s, a, room, swept))
  {
    hide Inv, Counted, CancelOk, NextCanceler, CancelLives, CancelCancels, CancelStones, Takes, MayCancel;
    var u, k := DoCancelStep(s, a, room, swept), s.cancelers[a];
    forall c | 0 <= c < |u.cancelers| ensures CancelOk(u, u.cancelers[c]) {
      assert CancelOk(s, s.cancelers[c]);
      if c == a {
        OwnCancel(s, k, u);
      } else {
        OtherCancel(s, k, u, s.cancelers[c]);
      }
    }
  }

  lemma CancelsKept(s: State, a: Act)
    requires Inv(s) && Counted(s) && CancelsOk(s) && Enabled(s, a)
    ensures CancelsOk(Do(s, a))
  {
    hide Inv, Counted, CancelOk, MayStep, MayCancel, DoCancelStep, DoStep;
    match a
    case Call(id, prepare) =>
      forall c | 0 <= c < |s.cancelers| ensures CancelOk(Do(s, a), s.cancelers[c]) {
        CallKeepsCancel(s, Do(s, a).tasks[|s.tasks|], s.cancelers[c]);
      }
    case Step(i, ch) =>
      StepLeaves(s, i, ch);
      forall c | 0 <= c < |s.cancelers| ensures CancelOk(DoStep(s, i, ch), s.cancelers[c]) {
        StepKeepsCancel(s, i, ch, s.cancelers[c]);
      }
    case Cancel(id) =>
      forall c | 0 <= c < |s.cancelers| + 1 ensures CancelOk(Do(s, a), Do(s, a).cancelers[c]) {
        NewCancel(s, Do(s, a), Do(s, a).cancelers[c]);
      }
    case CancelStep(c, room, swept) => CancelStepKeeps(s, c, room, swept);
    case Create(h) =>
      forall c | 0 <= c < |s.cancelers| ensures CancelOk(Do(s, a), s.cancelers[c]) {
        NewCancel(s, Do(s, a), s.cancelers[c]);
      }
    case Session(h, op) =>
      forall c | 0 <= c < |s.cancelers| ensures CancelOk(Do(s, a), s.cancelers[c]) {
        NewCancel(s, Do(s, a), s.cancelers[c]);
      }
    case DropSlots(h) =>
      forall c | 0 <= c < |s.cancelers| ensures CancelOk(Do(s, a), s.cancelers[c]) {
        DropKeepsCancel(s, Do(s, a), s.cancelers[c]);
      }
  }

  lemma StepLeaves(s: State, i: nat, ch: Choice)
    requires i < |s.tasks|
    ensures DoStep(s, i, ch).cancelers == s.cancelers
  {
  }

  lemma NewCancel(s: State, t: State, c: Canceler)
    requires c.pc.Begin? || CancelOk(s, c)
    requires t.tasks == s.tasks && t.slots == s.slots && t.cancels == s.cancels
    ensures CancelOk(t, c)
  {
  }

  lemma DropKeepsCancel(s: State, t: State, c: Canceler)
    requires CancelOk(s, c) && t.tasks == s.tasks && t.cancels == s.cancels
    requires forall id :: id in t.slots ==> id in s.slots && t.slots[id] == s.slots[id]
    ensures CancelOk(t, c)
  {
  }

  lemma CallKeepsCancel(s: State, t: Task, c: Canceler)
    requires CancelOk(s, c)
    ensures CancelOk(s.(tasks := s.tasks + [t]), c)
  {
    var u := s.(tasks := s.tasks + [t]);
    if !c.pc.Begin? && !c.early && Solo(u.tasks, c.id) {
      forall j, k | 0 <= j < |s.tasks| && 0 <= k < |s.tasks| && s.tasks[j].id == c.id && s.tasks[k].id == c.id
        ensures j == k
      {
        assert u.tasks[j].id == c.id && u.tasks[k].id == c.id;
      }
      var i :| 0 <= i < |s.tasks| && s.tasks[i].id == c.id;
      assert u.tasks[i].id == c.id;
      assert u.tasks[|s.tasks|] == t;
    }
  }

  lemma {:induction false} RunKeepsCancels(s: State, acts: seq<Act>, t: State)
    requires Inv(s) && Counted(s) && CancelsOk(s) && Run(s, acts, t)
    ensures CancelsOk(t)
    decreases acts
  {
    hide Inv, Counted, CancelsOk, Do, Enabled;
    if acts != [] {
      ActKeeps(s, acts[0]);
      CountKept(s, acts[0]);
      CancelsKept(s, acts[0]);
      RunKeepsCancels(Do(s, acts[0]), acts[1..], t);
    }
  }

  lemma AllReached(acts: seq<Act>, s: State)
    requires Run(Start(), acts, s)
    ensures Inv(s) && Counted(s) && CancelsOk(s)
  {
    assert Inv(Start()) && Counted(Start()) && CancelsOk(Start());
    Reached(acts, s);
    RunKeepsCancels(Start(), acts, s);
  }

  // ---- what becomes of a session a cancel let go ------------------------------------------

  /** What a cancel of `id` owes the session it let go: it has ended, or a consumer has it, or it is
      in another id's slot. */
  predicate Kept(s: State, id: Id, h: Handle) {
    !LiveAt(s.lives, h) || s.lives[h].attached || OwnedBesides(s.slots, id, h)
  }

  /** Live with neither a consumer nor an owner. */
  predicate Stray(lives: map<Handle, Life>, h: Handle) {
    LiveAt(lives, h) && lives[h].Unowned()
  }

  /** The consumer of a live session closes it when no slot names it. */
  ghost predicate LetsGo(s: State, a: Act, h: Handle) {
    a.Session? && a.h == h && a.op.Close? && LiveAt(s.lives, h) && s.lives[h].attached && !Named(s.slots, h)
  }

  /** Somebody attaches, ends or commits the session, or drops it as unowned. */
  predicate TakesUp(s: State, a: Act, h: Handle) {
    || (a.Session? && a.h == h && !a.op.Close?)
    || (a.Step? && a.i < |s.tasks| && s.tasks[a.i].handle == h
        && (Commits(s, s.tasks[a.i]) || s.tasks[a.i].pc.Stoned? || s.tasks[a.i].pc.Aborting?))
  }

  /** From here on nobody takes `h` up again. */
  ghost predicate LeftAlone(s: State, acts: seq<Act>, h: Handle)
    decreases acts
  {
    acts != [] && Enabled(s, acts[0]) ==> !TakesUp(s, acts[0], h) && LeftAlone(Do(s, acts[0]), acts[1..], h)
  }

  /** Somewhere along the run its consumer closes `h` while no slot names it, and nobody takes it
      up again after that. */
  ghost predicate ClosedForGood(s: State, acts: seq<Act>, h: Handle)
    decreases acts
  {
    && acts != [] && Enabled(s, acts[0])
    && (|| (LetsGo(s, acts[0], h) && LeftAlone(Do(s, acts[0]), acts[1..], h))
        || ClosedForGood(Do(s, acts[0]), acts[1..], h))
  }

  /** A session appears, and nobody has taken it up since. */
  ghost predicate NeverTakenUp(s: State, acts: seq<Act>, h: Handle)
    decreases acts
  {
    && acts != [] && Enabled(s, acts[0])
    && (|| (acts[0] == Create(h) && LeftAlone(Do(s, acts[0]), acts[1..], h))
        || NeverTakenUp(Do(s, acts[0]), acts[1..], h))
  }

  // ---- what makes a session stray, and what ends it ------------------------------------------

  lemma SessionStrays(s: State, h: Handle, op: Op, g: Handle)
    requires Inv(s) && g in s.lives
    ensures var l := s.lives[g := Apply(s.lives[g], op)];
            Stray(l, h) <==> (Stray(s.lives, h) && !TakesUp(s, Session(g, op), h)) || LetsGo(s, Session(g, op), h)
  {
    if g == h && LiveAt(s.lives, h) {
      if Named(s.slots, h) {
        var id :| id in s.slots && s.slots[id].handle == h;
        assert Claimed(s.lives, s.slots[id].handle);
      }
    }
  }

  lemma StepStrays(s: State, i: nat, ch: Choice, h: Handle)
    requires Inv(s) && Enabled(s, Step(i, ch))
    ensures Stray(NextLives(s, s.tasks[i]), h) <==> Stray(s.lives, h) && !TakesUp(s, Step(i, ch), h)
  {
    hide TasksOk, SlotsOk, ClaimsOk;
  }

  /** A cancel lets go of a session by ending it, or by marking an attached one. */
  lemma CancelStrays(s: State, k: Canceler, h: Handle)
    requires Inv(s)
    ensures Stray(CancelLives(s, k), h) <==> Stray(s.lives, h)
  {
    if Takes(s, k) && k.id in s.slots {
      assert Claimed(s.lives, s.slots[k.id].handle);
    }
  }

  /** A live session is stray after an action exactly if it was and nobody took it up, or it was
      just created, or its consumer just closed it when no slot named it. */
  lemma ActStrays(s: State, a: Act, h: Handle)
    requires Inv(s) && Enabled(s, a)
    ensures Stray(Do(s, a).lives, h) <==> (Stray(s.lives, h) && !TakesUp(s, a, h)) || LetsGo(s, a, h) || a == Create(h)
  {
    hide Inv, NextLives, CancelLives, NextSlots, NextCancels, NextTask, NextStones, NextInFlight, NextBusy,
      NextCanceler, CancelCancels, CancelStones, Apply, MayStep, MayCancel, Stray, Commits;
    match a
    case Call(_, _) =>
    case Step(i, ch) => StepStrays(s, i, ch, h);
    case Cancel(_) =>
    case CancelStep(c, _, _) => CancelStrays(s, s.cancelers[c], h);
    case Create(g) => CreateStrays(s, g, h);
    case Session(g, op) => SessionStrays(s, h, op, g);
    case DropSlots(_) =>
  }

  lemma CreateStrays(s: State, g: Handle, h: Handle)
    requires g !in s.lives
    ensures Stray(s.lives[g := NewLife(0)], h) <==> Stray(s.lives, h) || g == h
  {
  }

  /** Over a run from any state that keeps the invariant. */
  lemma {:induction false} RunStrays(s: State, acts: seq<Act>, t: State, h: Handle)
    requires Inv(s) && Run(s, acts, t)
    ensures Stray(t.lives, h) <==>
              (Stray(s.lives, h) && LeftAlone(s, acts, h)) || ClosedForGood(s, acts, h) || NeverTakenUp(s, acts, h)
    decreases acts
  {
    hide Inv, Do, Enabled, Stray, TakesUp, LetsGo;
    if acts != [] {
      ActKeeps(s, acts[0]);
      ActStrays(s, acts[0], h);
      RunStrays(Do(s, acts[0]), acts[1..], t, h);
    }
  }

  /** A session is created once. */
  lemma {:induction false} KnownIsOld(s: State, acts: seq<Act>, h: Handle)
    requires h in s.lives
    ensures !NeverTakenUp(s, acts, h)
    decreases acts
  {
    if acts != [] && Enabled(s, acts[0]) {
      LivesStay(s, acts[0], h);
      KnownIsOld(Do(s, acts[0]), acts[1..], h);
    }
  }

  lemma LivesStay(s: State, a: Act, h: Handle)
    requires Enabled(s, a) && h in s.lives
    ensures h in Do(s, a).lives && (s.lives[h].everAttached ==> Do(s, a).lives[h].everAttached)
    ensures !TakesUp(s, a, h) && !s.lives[h].everAttached ==> !Do(s, a).lives[h].everAttached
  {
    hide NextSlots, NextCancels, NextTask, NextStones, NextInFlight, NextBusy, NextCanceler, CancelCancels,
      CancelStones, MayStep, MayCancel;
  }

  lemma {:induction false} AloneStaysFresh(s: State, acts: seq<Act>, t: State, h: Handle)
    requires Run(s, acts, t) && h in s.lives && !s.lives[h].everAttached && LeftAlone(s, acts, h)
    ensures h in t.lives && !t.lives[h].everAttached
    decreases acts
  {
    hide Do, Enabled, TakesUp;
    if acts != [] {
      LivesStay(s, acts[0], h);
      AloneStaysFresh(Do(s, acts[0]), acts[1..], t, h);
    }
  }

  /** What nobody ever took up was never attached. */
  lemma {:induction false} FreshIfNeverTakenUp(s: State, acts: seq<Act>, t: State, h: Handle)
    requires Run(s, acts, t) && NeverTakenUp(s, acts, h)
    ensures h in t.lives && !t.lives[h].everAttached
    decreases acts
  {
    hide Enabled, TakesUp;
    if acts[0] == Create(h) && LeftAlone(Do(s, acts[0]), acts[1..], h) {
      AloneStaysFresh(Do(s, acts[0]), acts[1..], t, h);
    } else {
      FreshIfNeverTakenUp(Do(s, acts[0]), acts[1..], t, h);
    }
  }

  /** Once `id` has no slot, what it let go is kept exactly unless it strays. */
  lemma KeptUnlessStray(s: State, id: Id, h: Handle)
    requires Inv(s) && id !in s.slots
    ensures Kept(s, id, h) <==> !Stray(s.lives, h)
  {
    if LiveAt(s.lives, h) && s.lives[h].claimed && !s.lives[h].attached {
      assert s.lives[h].Sane() && Named(s.slots, h);
      var j :| j in s.slots && s.slots[j].handle == h;
      assert OwnedBesides(s.slots, id, h);
    }
    if OwnedBesides(s.slots, id, h) {
      var j :| j in s.slots && j != id && s.slots[j].handle == h;
      assert Claimed(s.lives, s.slots[j].handle);
    }
  }

  // ---- the promises -------------------------------------------------------------------------

  /** Cancel is never lost. Once a cancel of a once-started id and its delivery have both finished,
      either the outcome was a failure, or the session delivered has ended, or is attached, or another
      id's slot owns it: unless, and only unless, its consumer closed it when no slot named it and
      nobody has attached, ended or committed it since. Then it is unclaimed, for the reaper or the
      next prepare to retire. */
  lemma CancelNeverLost(acts: seq<Act>, s: State, c: nat, i: nat)
    requires Run(Start(), acts, s) && c < |s.cancelers| && i < |s.tasks|
    requires s.cancelers[c].pc.Done? && !s.cancelers[c].early && Solo(s.tasks, s.cancelers[c].id)
    requires s.tasks[i].id == s.cancelers[c].id && s.tasks[i].prepare && s.tasks[i].pc.Finished?
    ensures s.tasks[i].id !in s.slots
    ensures s.tasks[i].out.Some? && s.tasks[i].out.value.Prepared? ==>
              var h := s.tasks[i].out.value.handle;
              && h in s.lives
              && (Kept(s, s.tasks[i].id, h) <==> !ClosedForGood(Start(), acts, h))
              && (!Kept(s, s.tasks[i].id, h) ==> !s.lives[h].claimed && s.lives[h].everAttached)
  {
    hide Inv, Counted, ClosedForGood, NeverTakenUp, LeftAlone, Run, Kept;
    AllReached(acts, s);
    CancelledIsOut(s, c, i);
    if s.tasks[i].out.Some? && s.tasks[i].out.value.Prepared? {
      var h := s.tasks[i].out.value.handle;
      assert Inv(Start()) by {
        StartOk();
      }
      RunStrays(Start(), acts, s, h);
      KeptUnlessStray(s, s.tasks[i].id, h);
      if NeverTakenUp(Start(), acts, h) {
        FreshIfNeverTakenUp(Start(), acts, s, h);
      }
    }
  }

  lemma StartOk()
    ensures Inv(Start())
  {
  }

  /** A cancel that is done left its id no slot, and a delivered session was attached if nobody
      claims it. */
  lemma CancelledIsOut(s: State, c: nat, i: nat)
    requires Inv(s) && CancelsOk(s) && c < |s.cancelers| && i < |s.tasks|
    requires (s.cancelers[c].pc.Done? || s.cancelers[c].pc.Taken?) && !s.cancelers[c].early
    requires Solo(s.tasks, s.cancelers[c].id) && s.tasks[i].id == s.cancelers[c].id
    ensures s.tasks[i].id !in s.slots
    ensures s.tasks[i].out.Some? && s.tasks[i].out.value.Prepared? ==>
              var h := s.tasks[i].out.value.handle;
              h in s.lives && (LiveAt(s.lives, h) && !s.lives[h].claimed ==> s.lives[h].everAttached)
  {
    assert CancelOk(s, s.cancelers[c]) && Held(s.lives, s.tasks[i]);
  }

  /** At the moment a cancel takes its slot, the session that stays live is attached, marked for
      its consumer's close to release, or another id's slot owns it. */
  lemma TakeLeavesNoOrphan(acts: seq<Act>, s: State, c: nat, room: bool, swept: set<Id>)
    requires Run(Start(), acts, s) && Enabled(s, CancelStep(c, room, swept))
    requires Takes(s, s.cancelers[c]) && s.cancelers[c].id in s.slots
    ensures var h, u := s.slots[s.cancelers[c].id].handle, DoCancelStep(s, c, room, swept);
            h in u.lives && (u.lives[h].Live() ==> OwnedBesides(u.slots, s.cancelers[c].id, h)
                                                   || (u.lives[h].attached && u.lives[h].abandoned))
  {
    Reached(acts, s);
    var k := s.cancelers[c];
    var h := s.slots[k.id].handle;
    assert Claimed(s.lives, h);
    if OwnedBesides(s.slots, k.id, h) {
      var j :| j in s.slots && j != k.id && s.slots[j].handle == h;
      assert j in s.slots - {k.id} && (s.slots - {k.id})[j].handle == h;
    }
  }

  /** Cancels keep their place, their id and their verdict on the start. */
  lemma CancelerStays(s: State, a: Act, c: nat)
    requires Enabled(s, a) && c < |s.cancelers| && (s.cancelers[c].pc.Taken? || s.cancelers[c].pc.Done?)
    ensures var d := Do(s, a).cancelers;
            c < |d| && d[c].id == s.cancelers[c].id && d[c].early == s.cancelers[c].early
                && (d[c].pc.Taken? || d[c].pc.Done?)
  {
    hide NextSlots, NextCancels, NextTask, NextStones, NextInFlight, NextBusy, NextLives, CancelLives, CancelCancels,
      CancelStones, MayStep, MayCancel;
  }

  lemma {:induction false} CancelerStaysRun(s: State, acts: seq<Act>, t: State, c: nat)
    requires Run(s, acts, t) && c < |s.cancelers| && (s.cancelers[c].pc.Taken? || s.cancelers[c].pc.Done?)
    ensures c < |t.cancelers| && t.cancelers[c].id == s.cancelers[c].id && t.cancelers[c].early == s.cancelers[c].early
    ensures t.cancelers[c].pc.Taken? || t.cancelers[c].pc.Done?
    decreases acts
  {
    hide Do, Enabled;
    if acts != [] {
      CancelerStays(s, acts[0], c);
      CancelerStaysRun(Do(s, acts[0]), acts[1..], t, c);
    }
  }

  lemma {:induction false} NoCloseNoLoss(s: State, acts: seq<Act>, h: Handle)
    requires forall a :: a in acts && a.Session? && a.h == h ==> !a.op.Close?
    ensures !ClosedForGood(s, acts, h)
    decreases acts
  {
    hide Do, Enabled, LeftAlone;
    if acts != [] && Enabled(s, acts[0]) {
      assert acts[0] in acts;
      NoCloseNoLoss(Do(s, acts[0]), acts[1..], h);
    }
  }

  /** From the moment such a cancel takes its slot, over any continuation at all: the session it let
      go is ended, attached or owned by another id, unless and only unless a close while no slot named
      it was the last thing to happen to it. With no close in the continuation the promise holds. */
  lemma TakenStaysKept(acts: seq<Act>, s: State, c: nat, room: bool, swept: set<Id>, later: seq<Act>, t: State)
    requires Run(Start(), acts, s) && Enabled(s, CancelStep(c, room, swept))
    requires Takes(s, s.cancelers[c]) && s.cancelers[c].id in s.slots && !s.cancelers[c].early
    requires Run(DoCancelStep(s, c, room, swept), later, t) && Solo(t.tasks, s.cancelers[c].id)
    ensures var id, h, u := s.cancelers[c].id, s.slots[s.cancelers[c].id].handle, DoCancelStep(s, c, room, swept);
            && (Kept(t, id, h) <==> !ClosedForGood(u, later, h))
            && ((forall a :: a in later && a.Session? && a.h == h ==> !a.op.Close?) ==> Kept(t, id, h))
  {
    hide Inv, Counted, CancelsOk, ClosedForGood, NeverTakenUp, LeftAlone, Run, Kept, Takes, Do, DoCancelStep,
      NextCanceler;
    var id, h, u := s.cancelers[c].id, s.slots[s.cancelers[c].id].handle, DoCancelStep(s, c, room, swept);
    AllReached(acts, s);
    var a := CancelStep(c, room, swept);
    assert Do(s, a) == u by {
      DoCancels(s, c, room, swept);
    }
    ActKeeps(s, a);
    CountKept(s, a);
    CancelsKept(s, a);
    TakeLeavesNoOrphan(acts, s, c, room, swept);
    JustTaken(s, c, room, swept);
    CancelerStaysRun(u, later, t, c);
    RunKeeps(u, later, t);
    RunKeepsCancels(u, later, t);
    NoSlotSince(t, c);
    KeptUnlessStray(t, id, h);
    NotStray(u, id, h);
    RunStrays(u, later, t, h);
    KnownIsOld(u, later, h);
    if forall a :: a in later && a.Session? && a.h == h ==> !a.op.Close? {
      NoCloseNoLoss(u, later, h);
    }
  }

  lemma DoCancels(s: State, c: nat, room: bool, swept: set<Id>)
    requires Enabled(s, CancelStep(c, room, swept))
    ensures Do(s, CancelStep(c, room, swept)) == DoCancelStep(s, c, room, swept)
  {
  }

  lemma JustTaken(s: State, c: nat, room: bool, swept: set<Id>)
    requires Enabled(s, CancelStep(c, room, swept)) && Takes(s, s.cancelers[c])
    ensures var d := DoCancelStep(s, c, room, swept).cancelers;
            c < |d| && d[c].pc.Taken? && d[c].id == s.cancelers[c].id && d[c].early == s.cancelers[c].early
  {
  }

  lemma NoSlotSince(t: State, c: nat)
    requires CancelsOk(t) && c < |t.cancelers| && (t.cancelers[c].pc.Taken? || t.cancelers[c].pc.Done?)
    requires !t.cancelers[c].early && Solo(t.tasks, t.cancelers[c].id)
    ensures t.cancelers[c].id !in t.slots
  {
    assert CancelOk(t, t.cancelers[c]);
  }

  lemma NotStray(u: State, id: Id, h: Handle)
    requires Inv(u) && h in u.lives
    requires u.lives[h].Live() ==> OwnedBesides(u.slots, id, h) || (u.lives[h].attached && u.lives[h].abandoned)
    ensures !Stray(u.lives, h)
  {
    if OwnedBesides(u.slots, id, h) {
      var j :| j in u.slots && j != id && u.slots[j].handle == h;
      assert Claimed(u.lives, u.slots[j].handle);
    }
  }

  /** And it never reaches into a delivery: the session such a cancel ends is named by no slot
      whose outcome is still on its way. */
  lemma CancelSparesDeliveries(acts: seq<Act>, s: State, c: nat, room: bool, swept: set<Id>, h: Handle, id: Id)
    requires Run(Start(), acts, s) && Enabled(s, CancelStep(c, room, swept))
    requires var k := s.cancelers[c]; !NextCanceler(s, k).early && Solo(s.tasks, k.id)
    requires h in s.lives && DoCancelStep(s, c, room, swept).lives[h] != s.lives[h]
    requires id in s.slots && s.slots[id].handle == h
    ensures id == s.cancelers[c].id && s.slots[id].delivered
    ensures s.lives[h].Live() ==>
              exists i :: 0 <= i < |s.tasks| && s.tasks[i].id == id && s.tasks[i].out.Some?
                          && s.tasks[i].gen == s.slots[id].gen
  {
    AllReached(acts, s);
    var k := s.cancelers[c];
    assert CancelOk(s, k);
    if id != k.id {
      CancelSpares(s, c, room, swept, id);
    } else {
      var i :| 0 <= i < |s.tasks| && Committer(s.lives, s.tasks[i], id, s.slots[id]);
      assert s.slots[id].delivered;
    }
  }
}
