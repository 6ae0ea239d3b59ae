/** A cancel that comes before the start it is meant for, or while its resolve runs, leaves a
    tombstone; and a tombstone that is still there when the prepare looks makes it fail. */
module HostStones {
  import opened Prelude
  import opened SessionState
  import opened Host
  import opened HostOwnership
  import opened HostRuns

  /** A prepare that can only fail from here on: it holds no slot, and no step left to it takes one. */
  predicate Hopeless(t: Task) {
    && t.prepare && !t.committed && (t.out.None? || t.out == Some(Failed))
    && match t.pc
       case Admitted(tombstoned) => tombstoned
       case Failing => true
       case FailingBare => true
       case Stoned => true
       case Aborting => true
       case FailingInvoke => true
       case Leaving => t.out.Some?
       case Closing => t.out.Some?
       case Finished => t.out.Some?
       case _ => false
  }

  /** All along a run no step of request `i` touches a slot, and none touches a session but to end one
      that nobody attached or claimed. */
  ghost predicate Harmless(s: State, acts: seq<Act>, i: nat)
    decreases acts
  {
    acts != [] && Enabled(s, acts[0]) ==>
      && (acts[0].Step? && acts[0].i == i ==> LeavesAlone(s, Do(s, acts[0])))
      && Harmless(Do(s, acts[0]), acts[1..], i)
  }

  ghost predicate LeavesAlone(s: State, u: State) {
    && u.slots == s.slots && u.lives.Keys == s.lives.Keys
    && (forall h :: h in s.lives ==>
          u.lives[h] == s.lives[h] || (s.lives[h].Unowned() && u.lives[h] == s.lives[h].(terminal := Some(Cancelled))))
  }

  lemma HopelessStep(s: State, i: nat, ch: Choice)
    requires i < |s.tasks| && Enabled(s, Step(i, ch)) && Hopeless(s.tasks[i])
    ensures Hopeless(NextTask(s, s.tasks[i], ch)) && LeavesAlone(s, DoStep(s, i, ch))
  {
    hide NextCancels, NextStones, NextInFlight, NextBusy, AdmitTask, Duplicate, Pruned;
  }

  /** Requests keep their place, their kind and what they are called. */
  lemma OthersKeepTask(s: State, a: Act, i: nat)
    requires Enabled(s, a) && i < |s.tasks|
    ensures i < |Do(s, a).tasks|
    ensures !(a.Step? && a.i == i) ==> Do(s, a).tasks[i] == s.tasks[i]
    ensures Do(s, a).tasks[i].id == s.tasks[i].id && Do(s, a).tasks[i].prepare == s.tasks[i].prepare
  {
    hide NextTask, NextCancels, NextStones, NextInFlight, NextBusy, NextSlots, NextLives, MayStep, MayCancel,
      NextCanceler;
    if a.Step? {
      KindKept(s, s.tasks[a.i], a.ch);
    }
  }

  lemma {:induction false} HopelessRun(s: State, acts: seq<Act>, t: State, i: nat)
    requires Run(s, acts, t) && i < |s.tasks| && Hopeless(s.tasks[i])
    ensures i < |t.tasks| && Hopeless(t.tasks[i]) && t.tasks[i].id == s.tasks[i].id && Harmless(s, acts, i)
    decreases acts
  {
    hide Do, Enabled, Hopeless, LeavesAlone;
    if acts != [] {
      OthersKeepTask(s, acts[0], i);
      if acts[0].Step? && acts[0].i == i {
        HopelessStep(s, i, acts[0].ch);
        StepIsDo(s, i, acts[0].ch);
      }
      HopelessRun(Do(s, acts[0]), acts[1..], t, i);
    }
  }

  lemma StepIsDo(s: State, i: nat, ch: Choice)
    requires Enabled(s, Step(i, ch))
    ensures Do(s, Step(i, ch)) == DoStep(s, i, ch) && DoStep(s, i, ch).tasks[i] == NextTask(s, s.tasks[i], ch)
  {
  }

  /** Nothing of a prepare that fails this way is left behind: no slot is of its making. */
  ghost predicate Fails(t: State, i: nat) {
    && i < |t.tasks| && !t.tasks[i].committed
    && (t.tasks[i].out.Some? ==> t.tasks[i].out == Some(Failed))
    && (t.tasks[i].pc.Finished? ==> t.tasks[i].out.Some?)
    && (forall id :: id in t.slots ==> t.slots[id].gen != t.tasks[i].gen)
  }

  lemma HopelessFails(t: State, i: nat)
    requires Inv(t) && i < |t.tasks| && Hopeless(t.tasks[i])
    ensures Fails(t, i)
  {
    hide ClaimsOk, Placed, Held, BusyOk;
    forall id | id in t.slots ensures t.slots[id].gen != t.tasks[i].gen {
      var k :| 0 <= k < |t.tasks| && Committer(t.lives, t.tasks[k], id, t.slots[id]);
      assert HasGen(t.tasks[i]) && HasGen(t.tasks[k]);
    }
  }

  /** A prepare that was admitted against a standing tombstone never delivers: over every run, it commits
      nothing, owns no slot, claims no session, and if it answers at all it answers that it failed. */
  lemma TombstonedFails(past: seq<Act>, s: State, later: seq<Act>, t: State, i: nat)
    requires Run(Start(), past, s) && i < |s.tasks| && s.tasks[i].prepare && s.tasks[i].pc == Admitted(true)
    requires Run(s, later, t)
    ensures Fails(t, i) && Harmless(s, later, i)
  {
    Reached(past, s);
    assert Held(s.lives, s.tasks[i]);
    AdmittedAnswersNothing(past, s, i);
    HopelessRun(s, later, t, i);
    RunKeeps(s, later, t);
    HopelessFails(t, i);
  }

  /** A request that has not got past its admission has answered nothing. */
  predicate Silent(t: Task) {
    Early(t.pc) ==> t.out.None?
  }

  predicate Early(pc: Pc) {
    pc.New? || pc.Tracked? || pc.Admitted? || pc.Found? || pc.Invoking? || pc.Settled? || pc.Resolved? || pc.Stoned?
    || pc.Cleared? || pc.Aborting? || pc.Failing? || pc.FailingInvoke? || pc.FailingBare?
  }

  lemma {:induction false} AllSilent(s: State, acts: seq<Act>, t: State)
    requires Run(s, acts, t) && forall i :: 0 <= i < |s.tasks| ==> Silent(s.tasks[i])
    ensures forall i :: 0 <= i < |t.tasks| ==> Silent(t.tasks[i])
    decreases acts
  {
    hide Enabled, Silent;
    if acts != [] {
      SilentKept(s, acts[0]);
      AllSilent(Do(s, acts[0]), acts[1..], t);
    }
  }

  lemma SilentKept(s: State, a: Act)
    requires Enabled(s, a) && forall i :: 0 <= i < |s.tasks| ==> Silent(s.tasks[i])
    ensures forall i :: 0 <= i < |Do(s, a).tasks| ==> Silent(Do(s, a).tasks[i])
  {
    hide NextCancels, NextStones, NextInFlight, NextBusy, NextSlots, NextLives, MayStep, MayCancel, NextCanceler;
    if a.Step? {
      assert Silent(NextTask(s, s.tasks[a.i], a.ch)) by {
        SilentStep(s, s.tasks[a.i], a.ch);
      }
    }
  }

  lemma SilentStep(s: State, t: Task, ch: Choice)
    requires Silent(t)
    ensures Silent(NextTask(s, t, ch))
  {
    hide Duplicate, LiveAt;
  }

  lemma AdmittedAnswersNothing(past: seq<Act>, s: State, i: nat)
    requires Run(Start(), past, s) && i < |s.tasks|
    ensures Silent(s.tasks[i])
  {
    hide Silent;
    AllSilent(Start(), past, s);
  }

  // ---- who meets a tombstone ----------------------------------------------------------------

  /** The start of a prepare meets it at admission, if it has not expired (the coin). */
  lemma StoneMetAtStart(s: State, i: nat, ch: Choice)
    requires Enabled(s, Step(i, ch)) && s.tasks[i].prepare && Admits(s.tasks[i])
    requires s.tasks[i].id in s.stones && ch.coin
    ensures var u := DoStep(s, i, ch);
            && u.tasks[i].id == s.tasks[i].id && u.tasks[i].prepare
            && u.tasks[i].pc == (if Duplicate(s, s.tasks[i].id) then Refusing else Admitted(true))
            && (!Duplicate(s, s.tasks[i].id) ==> s.tasks[i].id !in u.stones)
  {
  }

  /** A resolve meets it when it returns; it also fails on an empty result, a spent token or a session
      that has died. */
  predicate ResolveFails(s: State, t: Task) {
    || t.pc == Resolved(false) || (t.pc == Resolved(true) && t.id in s.stones)
    || (t.pc.Cleared? && ((t.id in s.cancels && s.cancels[t.id].cancelled) || !LiveAt(s.lives, t.handle)))
  }

  lemma ResolveIsHopeless(s: State, i: nat, ch: Choice)
    requires Enabled(s, Step(i, ch)) && ResolveFails(s, s.tasks[i]) && Shape(s.tasks[i]) && s.tasks[i].out.None?
    ensures Hopeless(DoStep(s, i, ch).tasks[i])
    ensures s.tasks[i].id !in DoStep(s, i, ch).stones
  {
    hide NextCancels, NextSlots, NextLives, NextInFlight, NextBusy;
  }

  /** And the session such a resolve had minted is ended unless somebody attached or claimed it. */
  lemma DroppedIsEnded(s: State, i: nat, ch: Choice)
    requires Enabled(s, Step(i, ch)) && (s.tasks[i].pc.Stoned? || s.tasks[i].pc.Aborting?)
    ensures var l := DoStep(s, i, ch).lives;
            LiveAt(l, s.tasks[i].handle) ==> l[s.tasks[i].handle].attached || l[s.tasks[i].handle].claimed
  {
  }

  /** So whenever a resolve returns to a tombstone, an empty result, a spent token or a dead session, the
      prepare fails and leaves nothing behind. */
  lemma ResolveFailsForGood(past: seq<Act>, s: State, i: nat, ch: Choice, later: seq<Act>, t: State)
    requires Run(Start(), past, s) && Enabled(s, Step(i, ch)) && ResolveFails(s, s.tasks[i])
    requires Run(DoStep(s, i, ch), later, t)
    ensures Fails(t, i) && Harmless(DoStep(s, i, ch), later, i)
  {
    hide DoStep, Run, Hopeless, Fails, Harmless;
    Reached(past, s);
    AdmittedAnswersNothing(past, s, i);
    assert Held(s.lives, s.tasks[i]);
    var u := DoStep(s, i, ch);
    ResolveIsHopeless(s, i, ch);
    StepIsDo(s, i, ch);
    ActKeeps(s, Step(i, ch));
    CountKept(s, Step(i, ch));
    StepKeepsCount(s, i, ch);
    HopelessRun(u, later, t, i);
    RunKeeps(u, later, t);
    HopelessFails(t, i);
  }

  lemma StepKeepsCount(s: State, i: nat, ch: Choice)
    requires i < |s.tasks|
    ensures |DoStep(s, i, ch).tasks| == |s.tasks|
  {
  }

  // ---- a cancel before the start ------------------------------------------------------------

  /** What a cancel decides at its first look: to leave a tombstone unless it spends the token of a
      generic invocation, or finds one settled. */
  lemma StoneDecided(s: State, k: Canceler)
    requires k.pc.Begin?
    ensures NextCanceler(s, k).stones <==> k.id !in s.cancels || s.cancels[k.id].isPrepare
  {
  }

  /** Nobody of this id takes a step, and no cancel sweeps its tombstone as expired. */
  ghost predicate Undisturbed(s: State, acts: seq<Act>, id: Id)
    decreases acts
  {
    acts != [] && Enabled(s, acts[0]) ==>
      && (acts[0].Step? ==> s.tasks[acts[0].i].id != id)
      && (acts[0].CancelStep? ==> id !in acts[0].swept)
      && Undisturbed(Do(s, acts[0]), acts[1..], id)
  }

  lemma {:induction false} StoneStands(s: State, acts: seq<Act>, t: State, id: Id)
    requires Run(s, acts, t) && Undisturbed(s, acts, id) && id in s.stones
    ensures id in t.stones
    decreases acts
  {
    hide NextTask, NextCancels, NextInFlight, NextBusy, NextSlots, NextLives, MayStep, MayCancel, NextCanceler,
      Duplicate, Commits;
    if acts != [] {
      StoneStands(Do(s, acts[0]), acts[1..], t, id);
    }
  }

  /** Cancel before start. A cancel that found nothing delivered and left its tombstone decides the next
      start of that id: as long as nobody of the id moved meanwhile and the tombstone has not expired, the
      start is refused as a duplicate or fails, owning, claiming and delivering nothing. */
  lemma CancelBeforeStart(past: seq<Act>, s: State, c: nat, swept: set<Id>, mid: seq<Act>, u: State, i: nat, ch: Choice,
                          later: seq<Act>, t: State)
    requires Run(Start(), past, s) && Enabled(s, CancelStep(c, true, swept))
    requires s.cancelers[c].pc == Taken(false) && s.cancelers[c].stones
    requires var id, v := s.cancelers[c].id, DoCancelStep(s, c, true, swept);
             && Run(v, mid, u) && Undisturbed(v, mid, id)
             && Enabled(u, Step(i, ch)) && u.tasks[i].id == id && u.tasks[i].prepare && Admits(u.tasks[i]) && ch.coin
    requires Run(DoStep(u, i, ch), later, t)
    ensures if Duplicate(u, s.cancelers[c].id) then i < |t.tasks| && t.tasks[i].pc in {Refusing, Refused}
            else Fails(t, i) && Harmless(DoStep(u, i, ch), later, i)
  {
    hide DoStep, Run, Fails, Harmless, Undisturbed, MayStep, Duplicate;
    var id, v, w := s.cancelers[c].id, DoCancelStep(s, c, true, swept), DoStep(u, i, ch);
    StoneStands(v, mid, u, id);
    StoneMetAtStart(u, i, ch);
    RunOnCancel(past, s, c, swept, mid, u);
    StepKeepsCount(u, i, ch);
    if Duplicate(u, id) {
      RefusedRun(w, later, t, i);
    } else {
      var before := past + [CancelStep(c, true, swept)] + mid;
      RunJoin(Start(), before, u, [Step(i, ch)], w) by {
        OneStep(u, i, ch);
      }
      TombstonedFails(before + [Step(i, ch)], w, later, t, i);
    }
  }

  lemma OneStep(u: State, i: nat, ch: Choice)
    requires Enabled(u, Step(i, ch))
    ensures Run(u, [Step(i, ch)], DoStep(u, i, ch))
  {
    assert [Step(i, ch)][1..] == [];
  }

  lemma {:induction false} RunJoin(s: State, a: seq<Act>, t: State, b: seq<Act>, u: State)
    requires Run(s, a, t) && Run(t, b, u)
    ensures Run(s, a + b, u)
    decreases a
  {
    hide Do, Enabled;
    if a == [] {
      assert a + b == b;
    } else {
      assert (a + b)[1..] == a[1..] + b;
      RunJoin(Do(s, a[0]), a[1..], t, b, u);
    }
  }

  lemma RunOnCancel(past: seq<Act>, s: State, c: nat, swept: set<Id>, mid: seq<Act>, u: State)
    requires Run(Start(), past, s) && Enabled(s, CancelStep(c, true, swept))
    requires Run(DoCancelStep(s, c, true, swept), mid, u)
    ensures Run(Start(), past + [CancelStep(c, true, swept)] + mid, u)
  {
    var a := [CancelStep(c, true, swept)];
    assert a[1..] == [];
    RunJoin(Start(), past, s, a, DoCancelStep(s, c, true, swept));
    RunJoin(Start(), past + a, DoCancelStep(s, c, true, swept), mid, u);
  }

  lemma {:induction false} RefusedRun(s: State, acts: seq<Act>, t: State, i: nat)
    requires Run(s, acts, t) && i < |s.tasks| && s.tasks[i].pc in {Refusing, Refused}
    ensures i < |t.tasks| && t.tasks[i].pc in {Refusing, Refused}
    decreases acts
  {
    hide NextCancels, NextStones, NextInFlight, NextBusy, NextSlots, NextLives, MayCancel, NextCanceler;
    if acts != [] {
      OthersKeepTask(s, acts[0], i);
      RefusedRun(Do(s, acts[0]), acts[1..], t, i);
    }
  }
}
