/** The host protocol over whole runs: the invariant of every action, delivery tickets, and what
    a request's bookkeeping may touch. */
module HostRuns {
  import opened Prelude
  import opened SessionState
  import opened Host
  import opened HostOwnership

  // ---- the other actions -----------------------------------------------------------------

  /** What a session does on its own never takes an ownership away from a live session, nor
      makes one up. */
  ghost predicate Ages(a: Life, b: Life) {
    && (a.Sane() ==> b.Sane())
    && (!a.Live() ==> !b.Live())
    && (a.claimed && !a.abandoned ==> b.claimed && (b.Live() ==> !b.abandoned))
    && (a.Sane() && b.Live() && b.claimed && !b.abandoned ==> a.claimed && !a.abandoned)
    && (a.Sane() && b.Live() && !b.claimed && a.claimed ==> b.everAttached)
    && (a.everAttached ==> b.everAttached)
  }

  lemma OpAges(l: Life, op: Op)
    ensures Ages(l, Apply(l, op))
  {
  }

  /** Actions that only let one session age. */
  lemma SessionKeeps(s: State, h: Handle, op: Op)
    requires Inv(s) && h in s.lives
    ensures Inv(s.(lives := s.lives[h := Apply(s.lives[h], op)]))
  {
    hide Apply, Placed, Shape, Unique, BusyOk;
    OpAges(s.lives[h], op);
    var t := s.(lives := s.lives[h := Apply(s.lives[h], op)]);
    forall i | 0 <= i < |s.tasks| ensures Held(t.lives, s.tasks[i]) {
      assert Held(s.lives, s.tasks[i]);
    }
    forall id | id in t.slots
      ensures Claimed(t.lives, t.slots[id].handle)
      ensures exists i :: 0 <= i < |t.tasks| && Committer(t.lives, t.tasks[i], id, t.slots[id])
    {
      var i :| 0 <= i < |s.tasks| && Committer(s.lives, s.tasks[i], id, s.slots[id]);
      assert Committer(t.lives, t.tasks[i], id, t.slots[id]);
    }
    assert ClaimsOk(t.lives, t.slots) by {
      forall g | g in t.lives && t.lives[g].Live() && t.lives[g].claimed && !t.lives[g].abandoned
        ensures Named(t.slots, g)
      {
        assert Named(s.slots, g);
      }
    }
  }

  lemma CreateKeeps(s: State, h: Handle)
    requires Inv(s) && h !in s.lives
    ensures Inv(s.(lives := s.lives[h := NewLife(0)]))
  {
    hide Placed, Unique, BusyOk;
    var t := s.(lives := s.lives[h := NewLife(0)]);
    forall i | 0 <= i < |s.tasks| ensures Held(t.lives, s.tasks[i]) {
      assert Held(s.lives, s.tasks[i]);
    }
    forall id | id in t.slots
      ensures Claimed(t.lives, t.slots[id].handle)
      ensures exists i :: 0 <= i < |t.tasks| && Committer(t.lives, t.tasks[i], id, t.slots[id])
    {
      var i :| 0 <= i < |s.tasks| && Committer(s.lives, s.tasks[i], id, s.slots[id]);
      assert Committer(t.lives, t.tasks[i], id, t.slots[id]);
    }
    assert ClaimsOk(t.lives, t.slots) by {
      forall g | g in t.lives && t.lives[g].Live() && t.lives[g].claimed && !t.lives[g].abandoned
        ensures Named(t.slots, g)
      {
        assert Named(s.slots, g);
      }
    }
  }

  lemma CallKeeps(s: State, t: Task)
    requires Inv(s) && t.pc.New? && !t.committed && t.out.None?
    ensures Inv(s.(tasks := s.tasks + [t]))
  {
    hide Placed, Held, ClaimsOk;
    var u := s.(tasks := s.tasks + [t]);
    assert Placed(s.slots, s.cancels, s.nextGen, t) && Held(s.lives, t) by {
      NewIsPlaced(s, t);
    }
    forall id | id in u.slots
      ensures exists i :: 0 <= i < |u.tasks| && Committer(u.lives, u.tasks[i], id, u.slots[id])
    {
      var i :| 0 <= i < |s.tasks| && Committer(s.lives, s.tasks[i], id, s.slots[id]);
      assert Committer(u.lives, u.tasks[i], id, u.slots[id]);
    }
  }

  lemma NewIsPlaced(s: State, t: Task)
    requires t.pc.New? && !t.committed && t.out.None?
    ensures Placed(s.slots, s.cancels, s.nextGen, t) && Held(s.lives, t)
  {
  }

  /** Slots may only disappear with their owner's leave: `m` keeps every slot of a live session
      `l` does not release. */
  lemma FewerSlots(s: State, m: map<Id, Slot>, l: map<Handle, Life>, c: map<Id, LiveRequest>)
    requires Inv(s)
    requires forall id :: id in m ==> id in s.slots && m[id] == s.slots[id]
    requires l.Keys == s.lives.Keys && forall h :: h in l ==> l[h] == s.lives[h] || l[h] == s.lives[h].Abandon()
    requires forall id :: id in m && m[id].handle in l ==> l[m[id].handle] == s.lives[m[id].handle]
    requires forall h :: h in l && l[h].Live() && l[h].claimed && !l[h].abandoned && Named(s.slots, h) ==> Named(m, h)
    requires c.Keys == s.cancels.Keys && forall id :: id in c ==> c[id] == s.cancels[id].(cancelled := c[id].cancelled)
    ensures Inv(s.(slots := m, lives := l, cancels := c))
  {
    hide Unique, BusyOk, Shape, HasGen, HasEntry, PreCommit, InWindow, CommittedPc, NamesSession, Holding, Committer,
      Placed, Grounded;
    var t := s.(slots := m, lives := l, cancels := c);
    forall i | 0 <= i < |s.tasks| ensures Held(l, s.tasks[i]) && Placed(m, c, s.nextGen, s.tasks[i]) {
      assert Held(s.lives, s.tasks[i]) && Placed(s.slots, s.cancels, s.nextGen, s.tasks[i]);
      AbandonGrounds(s.lives, l, s.tasks[i]);
      FewerPlaced(s.slots, m, s.cancels, c, s.nextGen, s.tasks[i]);
    }
    forall id | id in m
      ensures Claimed(l, m[id].handle)
      ensures exists i :: 0 <= i < |t.tasks| && Committer(l, t.tasks[i], id, m[id])
    {
      var i :| 0 <= i < |s.tasks| && Committer(s.lives, s.tasks[i], id, s.slots[id]);
      CommitterStays(s.lives, l, s.tasks[i], id, m[id]);
      assert Committer(l, t.tasks[i], id, m[id]);
    }
    assert ClaimsOk(l, m);
  }

  /** An abandon ends a session or marks it; it never unclaims one. */
  lemma AbandonGrounds(a: map<Handle, Life>, b: map<Handle, Life>, t: Task)
    requires Grounded(a, t) && b.Keys == a.Keys && forall h :: h in b ==> b[h] == a[h] || b[h] == a[h].Abandon()
    ensures Grounded(b, t)
  {
  }

  lemma FewerPlaced(a: map<Id, Slot>, b: map<Id, Slot>, c: map<Id, LiveRequest>, d: map<Id, LiveRequest>, g: Gen,
                    t: Task)
    requires Placed(a, c, g, t) && b.Keys <= a.Keys && d.Keys == c.Keys
    requires forall id :: id in d ==> d[id] == c[id].(cancelled := d[id].cancelled)
    ensures Placed(b, d, g, t)
  {
  }

  lemma DropSlotsKeeps(s: State, h: Handle)
    requires Inv(s) && !LiveAt(s.lives, h)
    ensures Inv(s.(slots := map id | id in s.slots && s.slots[id].handle != h :: s.slots[id]))
  {
    hide TasksOk, SlotsOk, ClaimsOk;
    var m := map id | id in s.slots && s.slots[id].handle != h :: s.slots[id];
    forall g | g in s.lives && s.lives[g].Live() && Named(s.slots, g) ensures Named(m, g) {
      var id :| id in s.slots && s.slots[id].handle == g;
      assert m[id].handle == g;
    }
    FewerSlots(s, m, s.lives, s.cancels);
    assert s.(slots := m) == s.(slots := m, lives := s.lives, cancels := s.cancels);
  }

  lemma CancelKeeps(s: State, c: nat, room: bool, swept: set<Id>)
    requires Inv(s) && Enabled(s, CancelStep(c, room, swept))
    ensures Inv(DoCancelStep(s, c, room, swept))
  {
    hide TasksOk, SlotsOk, ClaimsOk, NextCanceler, CancelStones, MayCancel;
    var k := s.cancelers[c];
    var m := if Takes(s, k) then s.slots - {k.id} else s.slots;
    var l := CancelLives(s, k);
    forall h | h in l && l[h].Live() && l[h].claimed && !l[h].abandoned && Named(s.slots, h) ensures Named(m, h) {
      var id :| id in s.slots && s.slots[id].handle == h;
      if id != k.id {
        assert m[id].handle == h;
      } else if Takes(s, k) {
        assert OwnedBesides(s.slots, k.id, h) by {
          AbandonDisowns(s.lives[h]);
        }
        var j :| j in s.slots && j != k.id && s.slots[j].handle == h;
        assert m[j].handle == h;
      } else {
        assert m == s.slots;
      }
    }
    FewerSlots(s, m, l, CancelCancels(s, k));
    SameInv(s.(slots := m, lives := l, cancels := CancelCancels(s, k)), DoCancelStep(s, c, room, swept));
  }

  lemma AbandonDisowns(l: Life)
    ensures l.Abandon().Live() ==> l.Abandon().abandoned
  {
  }

  /** The invariant does not look at tombstones, tickets or cancels in progress. */
  lemma SameInv(s: State, t: State)
    requires Inv(s) && t == s.(stones := t.stones, cancelers := t.cancelers, inFlight := t.inFlight)
    ensures Inv(t)
  {
  }

  lemma ActKeeps(s: State, a: Act)
    requires Inv(s) && Enabled(s, a)
    ensures Inv(Do(s, a))
  {
    hide TasksOk, SlotsOk, ClaimsOk, DoStep, DoCancelStep, MayStep, MayCancel;
    match a
    case Call(id, prepare) => CallKeeps(s, Task(id, prepare, 0, 0, New, 0, false, None));
    case Step(i, ch) => StepKeeps(s, i, ch);
    case Cancel(id) => SameInv(s, Do(s, a));
    case CancelStep(c, room, swept) => CancelKeeps(s, c, room, swept);
    case Create(h) => CreateKeeps(s, h);
    case Session(h, op) => SessionKeeps(s, h, op);
    case DropSlots(h) => DropSlotsKeeps(s, h);
  }

  lemma StepKeeps(s: State, i: nat, ch: Choice)
    requires Inv(s) && Enabled(s, Step(i, ch))
    ensures Inv(DoStep(s, i, ch))
  {
    hide TasksOk, SlotsOk, ClaimsOk, NextLives, NextSlots, NextCancels, NextTask, NextStones, NextInFlight, NextBusy,
      MayStep;
    StepTasksOk(s, i, ch);
    StepSlotsOk(s, i, ch);
    StepClaimsOk(s, i, ch);
  }

  // ---- tickets ---------------------------------------------------------------------------

  function Bit(t: Task, id: Id): nat {
    if t.id == id && Ticket(t) then 1 else 0
  }

  /** Delivery tickets held for `id`. */
  function Tickets(tasks: seq<Task>, id: Id): nat {
    if tasks == [] then 0 else Bit(tasks[0], id) + Tickets(tasks[1..], id)
  }

  lemma {:induction false} TicketsUpdate(tasks: seq<Task>, i: nat, u: Task, id: Id)
    requires i < |tasks|
    ensures Tickets(tasks[i := u], id) + Bit(tasks[i], id) == Tickets(tasks, id) + Bit(u, id)
    decreases tasks
  {
    if i == 0 {
      assert tasks[0 := u][1..] == tasks[1..];
    } else {
      TicketsUpdate(tasks[1..], i - 1, u, id);
      assert tasks[i := u][1..] == tasks[1..][i - 1 := u];
    }
  }

  lemma {:induction false} TicketsAppend(tasks: seq<Task>, u: Task, id: Id)
    ensures Tickets(tasks + [u], id) == Tickets(tasks, id) + Bit(u, id)
    decreases tasks
  {
    if tasks == [] {
      assert [u][1..] == [];
    } else {
      TicketsAppend(tasks[1..], u, id);
      assert (tasks + [u])[1..] == tasks[1..] + [u];
    }
  }

  lemma {:induction false} TicketsPositive(tasks: seq<Task>, i: nat)
    requires i < |tasks| && Ticket(tasks[i])
    ensures Tickets(tasks, tasks[i].id) > 0
    decreases tasks
  {
    if i > 0 {
      TicketsPositive(tasks[1..], i - 1);
    }
  }

  /** The in-flight count of every id is the number of tickets held for it. */
  ghost predicate Counted(s: State) {
    forall id :: InFlight(s.inFlight, id) == Tickets(s.tasks, id)
  }

  lemma CountKept(s: State, a: Act)
    requires Counted(s) && Enabled(s, a)
    ensures Counted(Do(s, a))
  {
    hide NextTask, NextSlots, NextLives, NextCancels, NextStones, NextBusy, MayStep, MayCancel, DoCancelStep, Ticket;
    match a
    case Call(id, prepare) =>
      var t := Task(id, prepare, 0, 0, New, 0, false, None);
      assert !Ticket(t) by {
        NewHoldsNone(t);
      }
      forall j { TicketsAppend(s.tasks, t, j); }
    case Step(i, ch) =>
      var t, u := s.tasks[i], NextTask(s, s.tasks[i], ch);
      KindKept(s, t, ch);
      TicketsPositiveIf(s.tasks, i);
      forall j: Id ensures InFlight(NextInFlight(s, t, ch), j) == Tickets(s.tasks[i := u], j) {
        TicketsUpdate(s.tasks, i, u, j);
        assert InFlight(s.inFlight, j) == Tickets(s.tasks, j);
        assert InFlight(s.inFlight, t.id) == Tickets(s.tasks, t.id);
      }
    case Cancel(_) =>
    case CancelStep(c, room, swept) => CancelLeaves(s, c, room, swept);
    case Create(_) =>
    case Session(_, _) =>
    case DropSlots(_) =>
  }

  lemma TicketsPositiveIf(tasks: seq<Task>, i: nat)
    requires i < |tasks|
    ensures Ticket(tasks[i]) ==> Tickets(tasks, tasks[i].id) > 0
  {
    if Ticket(tasks[i]) {
      TicketsPositive(tasks, i);
    }
  }

  lemma NewHoldsNone(t: Task)
    requires t.pc.New?
    ensures !Ticket(t)
  {
  }

  lemma CancelLeaves(s: State, c: nat, room: bool, swept: set<Id>)
    requires c < |s.cancelers|
    ensures DoCancelStep(s, c, room, swept).tasks == s.tasks
    ensures DoCancelStep(s, c, room, swept).inFlight == s.inFlight
  {
  }

  // ---- runs ------------------------------------------------------------------------------

  ghost predicate Run(s: State, acts: seq<Act>, t: State)
    decreases acts
  {
    if acts == [] then s == t
    else Enabled(s, acts[0]) && Run(Do(s, acts[0]), acts[1..], t)
  }

  lemma {:induction false} RunKeeps(s: State, acts: seq<Act>, t: State)
    requires Inv(s) && Counted(s) && Run(s, acts, t)
    ensures Inv(t) && Counted(t)
    decreases acts
  {
    hide Inv, Do, Enabled;
    if acts != [] {
      ActKeeps(s, acts[0]);
      CountKept(s, acts[0]);
      RunKeeps(Do(s, acts[0]), acts[1..], t);
    }
  }

  lemma Reached(acts: seq<Act>, s: State)
    requires Run(Start(), acts, s)
    ensures Inv(s) && Counted(s)
  {
    assert Inv(Start()) && Counted(Start());
    RunKeeps(Start(), acts, s);
  }

  // ---- ownership ----------------------------------------------------------------------------

  /** In every reachable state a live session is claimed and unabandoned exactly while some slot
      names it, and an abandoned one is attached. */
  lemma OwnedExactlyWhileNamed(acts: seq<Act>, s: State, h: Handle)
    requires Run(Start(), acts, s) && h in s.lives && s.lives[h].Live()
    ensures s.lives[h].claimed && !s.lives[h].abandoned <==> Named(s.slots, h)
    ensures s.lives[h].abandoned ==> s.lives[h].attached
  {
    Reached(acts, s);
    if Named(s.slots, h) {
      var id :| id in s.slots && s.slots[id].handle == h;
      assert Claimed(s.lives, s.slots[id].handle);
    }
  }

  /** So no unattached-only teardown (a supersede scan, `cancel_if_unattached`) and no cancel of
      another id ends or disowns a session that a slot names. */
  lemma OwnedSurvivesOthers(acts: seq<Act>, s: State, id: Id, e: StreamError, c: nat, room: bool, swept: set<Id>)
    requires Run(Start(), acts, s) && id in s.slots
    ensures var h := s.slots[id].handle;
            && h in s.lives
            && Do(s, Session(h, EndIfUnowned(e))).lives == s.lives
            && (Enabled(s, CancelStep(c, room, swept)) && s.cancelers[c].id != id ==>
                  Do(s, CancelStep(c, room, swept)).lives[h] == s.lives[h])
  {
    Reached(acts, s);
    var h := s.slots[id].handle;
    assert Claimed(s.lives, h);
    UnownedSpares(s.lives[h], e);
    assert s.lives[h := s.lives[h]] == s.lives;
    if Enabled(s, CancelStep(c, room, swept)) && s.cancelers[c].id != id {
      CancelSpares(s, c, room, swept, id);
    }
  }

  lemma UnownedSpares(l: Life, e: StreamError)
    requires l.Live() ==> l.claimed && !l.abandoned
    ensures Apply(l, EndIfUnowned(e)) == l
  {
  }

  lemma CancelSpares(s: State, c: nat, room: bool, swept: set<Id>, id: Id)
    requires c < |s.cancelers| && s.cancelers[c].id != id && id in s.slots && s.slots[id].handle in s.lives
    ensures DoCancelStep(s, c, room, swept).lives[s.slots[id].handle] == s.lives[s.slots[id].handle]
  {
    assert OwnedBesides(s.slots, s.cancelers[c].id, s.slots[id].handle);
  }

  // ---- delivery bookkeeping -----------------------------------------------------------------

  /** An undelivered slot is always counted: the request that committed it, and no other of its
      generation, still holds its ticket. */
  lemma UndeliveredIsCounted(acts: seq<Act>, s: State, id: Id) returns (i: nat)
    requires Run(Start(), acts, s) && id in s.slots && !s.slots[id].delivered
    ensures i < |s.tasks| && s.tasks[i].id == id && s.tasks[i].gen == s.slots[id].gen && Ticket(s.tasks[i])
    ensures forall j :: 0 <= j < |s.tasks| && HasGen(s.tasks[j]) && s.tasks[j].gen == s.slots[id].gen ==> j == i
    ensures InFlight(s.inFlight, id) > 0
  {
    Reached(acts, s);
    i :| 0 <= i < |s.tasks| && Committer(s.lives, s.tasks[i], id, s.slots[id]);
    TicketsPositive(s.tasks, i);
    assert InFlight(s.inFlight, id) == Tickets(s.tasks, id);
  }

  /** So a cancel that waited for the id to go idle comes back past the flip. */
  lemma IdleMeansFlipped(acts: seq<Act>, s: State, c: nat, room: bool, swept: set<Id>)
    requires Run(Start(), acts, s) && Enabled(s, CancelStep(c, room, swept)) && s.cancelers[c].pc.Waiting?
    ensures s.cancelers[c].id in s.slots ==> s.slots[s.cancelers[c].id].delivered
  {
    var id := s.cancelers[c].id;
    if id in s.slots && !s.slots[id].delivered {
      var i := UndeliveredIsCounted(acts, s, id);
    }
  }

  /** At most one unsettled invocation per id, however often the id is re-admitted. */
  lemma OneUnsettled(acts: seq<Act>, s: State, i: nat, j: nat)
    requires Run(Start(), acts, s) && i < |s.tasks| && j < |s.tasks|
    requires s.tasks[i].pc.Invoking? && s.tasks[j].pc.Invoking? && s.tasks[i].id == s.tasks[j].id
    ensures i == j
  {
    Reached(acts, s);
    assert Placed(s.slots, s.cancels, s.nextGen, s.tasks[i]) && Placed(s.slots, s.cancels, s.nextGen, s.tasks[j]);
  }

  /** A post-delivery flip marks the slot its own request committed and no other. */
  lemma FlipsOwnOnly(acts: seq<Act>, s: State, i: nat, ch: Choice, id: Id)
    requires Run(Start(), acts, s) && Enabled(s, Step(i, ch))
    requires id in s.slots && !s.slots[id].delivered
    requires id in DoStep(s, i, ch).slots && DoStep(s, i, ch).slots[id] == s.slots[id].(delivered := true)
    ensures s.tasks[i].id == id && s.tasks[i].gen == s.slots[id].gen
    ensures s.tasks[i].committed && s.tasks[i].handle == s.slots[id].handle
  {
    Reached(acts, s);
    var t := s.tasks[i];
    SlotsAfter(s, t);
    var k :| 0 <= k < |s.tasks| && Committer(s.lives, s.tasks[k], id, s.slots[id]);
    assert Held(s.lives, t) && HasGen(t) && s.tasks[k].gen == t.gen;
    assert k == i;
  }

  /** Settling and cleaning up touch the entry their own request inserted and no other, even
      though settling does not look at the generation. */
  lemma CleansOwnOnly(acts: seq<Act>, s: State, i: nat, ch: Choice, id: Id)
    requires Run(Start(), acts, s) && Enabled(s, Step(i, ch)) && id in s.cancels
    requires s.tasks[i].pc.Invoking? || s.tasks[i].pc.Closing?
    requires id !in DoStep(s, i, ch).cancels || DoStep(s, i, ch).cancels[id] != s.cancels[id]
    ensures s.tasks[i].id == id && s.cancels[id].gen == s.tasks[i].liveGen
  {
    Reached(acts, s);
    assert Placed(s.slots, s.cancels, s.nextGen, s.tasks[i]);
  }
}
