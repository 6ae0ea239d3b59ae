/** What every interleaving keeps: a live session is claimed and unabandoned exactly while a
    slot names it, and every slot, entry and ticket belongs to the one request that made it. */
module HostOwnership {
  import opened Prelude
  import opened SessionState
  import opened Host

  /** Admitted, so its prepare generation is set. */
  predicate HasGen(t: Task) {
    t.prepare && !(t.pc.New? || t.pc.Tracked? || t.pc.Refusing? || t.pc.Refused?)
  }

  /** Its invocation's entry has been inserted and not yet cleaned up. */
  predicate HasEntry(t: Task) {
    || t.pc.Invoking? || t.pc.Settled? || t.pc.Resolved? || t.pc.Stoned? || t.pc.Cleared? || t.pc.Aborting?
    || t.pc.FailingInvoke? || t.pc.InvokeReady? || t.pc.InvokeSent? || t.pc.LeavingInvoke? || t.pc.Closing?
  }

  /** Launched as a prepare and not past its commit. */
  predicate PreCommit(t: Task) {
    t.prepare && (t.pc.Invoking? || t.pc.Settled? || t.pc.Resolved? || t.pc.Stoned? || t.pc.Cleared?)
  }

  /** Between the slot commit and its flip. */
  predicate InWindow(pc: Pc) {
    pc.AdoptReady? || pc.AdoptLive? || pc.AdoptSent? || pc.InvokeReady? || pc.InvokeSent?
  }

  predicate CommittedPc(pc: Pc) {
    InWindow(pc) || pc.AdoptDead? || pc.LeavingInvoke?
  }

  /** The map entry under `id` is this request's own. */
  predicate OwnEntry(cancels: map<Id, LiveRequest>, t: Task) {
    && t.id in cancels && cancels[t.id].gen == t.liveGen
    && cancels[t.id].isPrepare == t.prepare && (cancels[t.id].settled <==> !t.pc.Invoking?)
  }

  // ---- one request ---------------------------------------------------------------------

  /** What a request knows of its id: generations in range, its own entry, and no slot before
      its commit. */
  ghost predicate Placed(slots: map<Id, Slot>, cancels: map<Id, LiveRequest>, nextGen: Gen, t: Task) {
    && (HasGen(t) ==> t.gen < nextGen)
    && (HasEntry(t) ==> t.liveGen < nextGen)
    && (HasEntry(t) && (t.prepare || t.pc.Invoking?) ==> OwnEntry(cancels, t))
    && (Holding(t.pc) ==> t.id !in slots && t.id !in cancels)
    && (PreCommit(t) ==> t.id !in slots)
  }

  /** A session has been chosen or minted for it. */
  predicate NamesSession(t: Task) {
    t.committed || t.pc.Found? || t.pc.Stoned? || t.pc.Cleared? || t.pc.Aborting? || (t.pc.Resolved? && t.pc.produced)
  }

  /** Pcs only a prepare reaches. */
  predicate PrepareOnly(pc: Pc) {
    || pc.Tracked? || pc.Found? || pc.Refusing? || pc.Resolved? || pc.Stoned? || pc.Cleared? || pc.Aborting?
    || pc.Failing? || pc.FailingBare? || pc.Leaving? || pc.FailingInvoke? || CommittedPc(pc)
  }

  /** What it has committed and told its listener, by program point. */
  ghost predicate Shape(t: Task) {
    && (CommittedPc(t.pc) ==> t.committed)
    && (t.committed ==> t.prepare && (CommittedPc(t.pc) || t.pc.Leaving? || t.pc.Closing? || t.pc.Finished?))
    && (t.pc.AdoptSent? || t.pc.InvokeSent? || t.pc.LeavingInvoke? ==> t.out.Some?)
    && (t.out.Some? && t.out.value.Prepared? ==> t.committed && t.handle == t.out.value.handle)
    && (PrepareOnly(t.pc) ==> t.prepare)
  }

  /** What its session looks like: known, and unclaimed again only after it was attached. */
  ghost predicate Grounded(lives: map<Handle, Life>, t: Task) {
    && (NamesSession(t) ==> t.handle in lives)
    && (t.committed && LiveAt(lives, t.handle) && !lives[t.handle].claimed ==> lives[t.handle].everAttached)
    && (t.pc.AdoptDead? ==> !LiveAt(lives, t.handle))
  }

  ghost predicate Held(lives: map<Handle, Life>, t: Task) {
    Shape(t) && Grounded(lives, t)
  }

  /** No two requests share a generation. */
  ghost predicate Unique(tasks: seq<Task>) {
    forall i, j :: 0 <= i < j < |tasks| ==>
      && !(HasGen(tasks[i]) && HasGen(tasks[j]) && tasks[i].gen == tasks[j].gen)
      && !(HasEntry(tasks[i]) && HasEntry(tasks[j]) && tasks[i].liveGen == tasks[j].liveGen)
  }

  ghost predicate BusyOk(tasks: seq<Task>, busy: Option<nat>) {
    && (busy.Some? ==> busy.value < |tasks|)
    && (forall i :: 0 <= i < |tasks| ==> (Holding(tasks[i].pc) <==> busy == Some(i)))
  }

  ghost predicate TasksOk(s: State) {
    && (forall i :: 0 <= i < |s.tasks| ==> Placed(s.slots, s.cancels, s.nextGen, s.tasks[i]))
    && (forall i :: 0 <= i < |s.tasks| ==> Held(s.lives, s.tasks[i]))
    && Unique(s.tasks) && BusyOk(s.tasks, s.busy)
  }

  // ---- placement ---------------------------------------------------------------------------

  /** The generation counter after a step. */
  function GenAfter(s: State, t: Task, ch: Choice): Gen {
    if (t.pc.Tracked? && !Duplicate(s, t.id)) || Launches(t, ch) then s.nextGen + 1 else s.nextGen
  }

  lemma AdmitPlaced(s: State, t: Task, ch: Choice)
    requires Placed(s.slots, s.cancels, s.nextGen, t) && Admits(t)
    ensures Placed(NextSlots(s, t), NextCancels(s, t, ch), GenAfter(s, t, ch), NextTask(s, t, ch))
  {
  }

  lemma CommitPlaced(s: State, t: Task, ch: Choice)
    requires Placed(s.slots, s.cancels, s.nextGen, t) && Held(s.lives, t) && (t.pc.Found? || t.pc.Cleared?)
    ensures Placed(NextSlots(s, t), NextCancels(s, t, ch), GenAfter(s, t, ch), NextTask(s, t, ch))
  {
    hide Pruned, Duplicate, Spendable, AdmitTask;
  }

  /** Launching inserts the entry; settling and cleaning up touch no other. */
  lemma EntryPlaced(s: State, t: Task, ch: Choice)
    requires Placed(s.slots, s.cancels, s.nextGen, t) && Shape(t)
    requires t.pc.Admitted? || t.pc.Invoking? || t.pc.Closing?
    ensures Placed(NextSlots(s, t), NextCancels(s, t, ch), GenAfter(s, t, ch), NextTask(s, t, ch))
  {
    hide Pruned, Duplicate, Spendable, AdmitTask, Flipped;
  }

  lemma OwnPlaced(s: State, t: Task, ch: Choice)
    requires Placed(s.slots, s.cancels, s.nextGen, t) && Held(s.lives, t)
    ensures Placed(NextSlots(s, t), NextCancels(s, t, ch), GenAfter(s, t, ch), NextTask(s, t, ch))
  {
    hide Pruned, Duplicate, Spendable, AdmitTask, Grounded, Commits, LiveAt;
    if Admits(t) {
      AdmitPlaced(s, t, ch);
    } else if t.pc.Found? || t.pc.Cleared? {
      CommitPlaced(s, t, ch);
    } else if t.pc.Admitted? || t.pc.Invoking? || t.pc.Closing? {
      EntryPlaced(s, t, ch);
    }
  }

  lemma OtherPlaced(s: State, i: nat, j: nat, ch: Choice)
    requires TasksOk(s) && Enabled(s, Step(i, ch)) && j < |s.tasks| && j != i
    ensures var t := s.tasks[i]; Placed(NextSlots(s, t), NextCancels(s, t, ch), GenAfter(s, t, ch), s.tasks[j])
  {
    var t, o := s.tasks[i], s.tasks[j];
    assert Placed(s.slots, s.cancels, s.nextGen, t) && Placed(s.slots, s.cancels, s.nextGen, o);
  }

  lemma OwnShape(s: State, t: Task, ch: Choice)
    requires Shape(t)
    ensures Shape(NextTask(s, t, ch))
  {
    hide LiveAt, Duplicate;
  }

  lemma OwnGrounded(s: State, t: Task, ch: Choice)
    requires Shape(t) && Grounded(s.lives, t) && MayStep(s, t, ch)
    ensures Grounded(NextLives(s, t), NextTask(s, t, ch))
  {
    hide Duplicate, NextLives, AdmitTask, Admits;
    LivesAfter(s, t);
    AdmitGrounds(s, t, ch);
  }

  lemma AdmitGrounds(s: State, t: Task, ch: Choice)
    ensures !t.committed ==> !NamesSession(AdmitTask(s, t, ch))
    ensures AdmitTask(s, t, ch).committed == t.committed && !AdmitTask(s, t, ch).pc.AdoptDead?
    ensures AdmitTask(s, t, ch).handle == t.handle
  {
  }

  /** What a request's step does to the sessions: at most its own, and it claims it or ends it. */
  lemma LivesAfter(s: State, t: Task)
    ensures NextLives(s, t).Keys == s.lives.Keys
    ensures forall h :: h in s.lives && h != t.handle ==> NextLives(s, t)[h] == s.lives[h]
    ensures Commits(s, t) ==> NextLives(s, t)[t.handle] == s.lives[t.handle].Claim()
    ensures !Commits(s, t) && t.handle in s.lives ==>
              NextLives(s, t)[t.handle] in {s.lives[t.handle], Apply(s.lives[t.handle], EndIfUnowned(Cancelled))}
    ensures !Commits(s, t) && !t.pc.Stoned? && !t.pc.Aborting? ==> NextLives(s, t) == s.lives
  {
  }

  lemma OtherGrounded(s: State, t: Task, o: Task)
    requires Grounded(s.lives, o)
    ensures Grounded(NextLives(s, t), o)
  {
    hide NextLives;
    LivesAfter(s, t);
  }

  // ---- generations and the admission guards --------------------------------------------------

  lemma KindKept(s: State, t: Task, ch: Choice)
    ensures NextTask(s, t, ch).id == t.id && NextTask(s, t, ch).prepare == t.prepare
  {
    hide Duplicate, Commits, LiveAt;
  }

  /** A request takes its prepare generation from the counter once, at its admission. */
  lemma GenAfterStep(s: State, t: Task, ch: Choice)
    ensures var u := NextTask(s, t, ch);
            HasGen(u) ==> (HasGen(t) && u.gen == t.gen) || (u.gen == s.nextGen && GenAfter(s, t, ch) == s.nextGen + 1)
  {
    hide Duplicate, Commits, LiveAt;
  }

  /** And its invocation's generation once, at its launch. */
  lemma EntryGenAfterStep(s: State, t: Task, ch: Choice)
    ensures var u := NextTask(s, t, ch);
            HasEntry(u) ==> (HasEntry(t) && u.liveGen == t.liveGen)
                            || (u.liveGen == s.nextGen && GenAfter(s, t, ch) == s.nextGen + 1)
  {
    hide Duplicate, Commits, LiveAt;
  }

  lemma UniqueKept(s: State, i: nat, ch: Choice)
    requires TasksOk(s) && i < |s.tasks|
    ensures Unique(s.tasks[i := NextTask(s, s.tasks[i], ch)])
  {
    hide NextTask, GenAfter, Held;
    GenAfterStep(s, s.tasks[i], ch);
    EntryGenAfterStep(s, s.tasks[i], ch);
    var u := s.tasks[i := NextTask(s, s.tasks[i], ch)];
    forall j, k | 0 <= j < k < |u|
      ensures !(HasGen(u[j]) && HasGen(u[k]) && u[j].gen == u[k].gen)
      ensures !(HasEntry(u[j]) && HasEntry(u[k]) && u[j].liveGen == u[k].liveGen)
    {
      assert Placed(s.slots, s.cancels, s.nextGen, s.tasks[j]) && Placed(s.slots, s.cancels, s.nextGen, s.tasks[k]);
    }
  }

  lemma BusyKept(s: State, i: nat, ch: Choice)
    requires TasksOk(s) && Enabled(s, Step(i, ch))
    ensures BusyOk(s.tasks[i := NextTask(s, s.tasks[i], ch)], NextBusy(s, i, s.tasks[i], ch))
  {
    hide Placed, Held, Unique, LiveAt, Duplicate, Commits;
    var u := NextTask(s, s.tasks[i], ch);
    assert Holding(u.pc) && !Holding(s.tasks[i].pc) ==> s.busy.None?;
  }

  /** A request's step keeps every request in order. */
  lemma StepTasksOk(s: State, i: nat, ch: Choice)
    requires TasksOk(s) && Enabled(s, Step(i, ch))
    ensures TasksOk(DoStep(s, i, ch))
  {
    hide Placed, Grounded, Shape, Unique, BusyOk, NextTask, NextSlots, NextCancels, NextLives, NextBusy, NextStones,
      NextInFlight;
    var u, t := DoStep(s, i, ch), s.tasks[i];
    UniqueKept(s, i, ch);
    BusyKept(s, i, ch);
    forall j | 0 <= j < |u.tasks|
      ensures Placed(u.slots, u.cancels, u.nextGen, u.tasks[j]) && Held(u.lives, u.tasks[j])
    {
      assert Placed(s.slots, s.cancels, s.nextGen, s.tasks[j]) && Held(s.lives, s.tasks[j]);
      if j == i {
        OwnPlaced(s, t, ch);
        OwnShape(s, t, ch);
        OwnGrounded(s, t, ch);
      } else {
        OtherPlaced(s, i, j, ch);
        OtherGrounded(s, t, s.tasks[j]);
      }
    }
  }

  // ---- slots and claims --------------------------------------------------------------------------

  /** The request that committed the slot, and how far it has taken it. */
  ghost predicate Committer(lives: map<Handle, Life>, t: Task, id: Id, slot: Slot) {
    && t.id == id && t.committed && HasGen(t) && t.gen == slot.gen && t.handle == slot.handle
    && (!slot.delivered ==> InWindow(t.pc))
    && (slot.delivered ==> t.out.Some? || !LiveAt(lives, slot.handle))
  }

  /** A live session named by a slot is claimed and not abandoned. */
  predicate Claimed(lives: map<Handle, Life>, h: Handle) {
    h in lives && (lives[h].Live() ==> lives[h].claimed && !lives[h].abandoned)
  }

  ghost predicate SlotsOk(s: State) {
    forall id :: id in s.slots ==>
      && Claimed(s.lives, s.slots[id].handle)
      && exists i :: 0 <= i < |s.tasks| && Committer(s.lives, s.tasks[i], id, s.slots[id])
  }

  ghost predicate Named(slots: map<Id, Slot>, h: Handle) {
    exists id :: id in slots && slots[id].handle == h
  }

  /** A session that is live, claimed and not abandoned is named by some slot. */
  ghost predicate ClaimsOk(lives: map<Handle, Life>, slots: map<Id, Slot>) {
    forall h :: h in lives ==>
      && lives[h].Sane()
      && (lives[h].Live() && lives[h].claimed && !lives[h].abandoned ==> Named(slots, h))
  }

  ghost predicate Inv(s: State) {
    TasksOk(s) && SlotsOk(s) && ClaimsOk(s.lives, s.slots)
  }

  /** What a request's step does to the slots: the dead go, its own appears or is delivered. */
  lemma SlotsAfter(s: State, t: Task)
    ensures forall id :: id in NextSlots(s, t) && id != t.id ==> id in s.slots && NextSlots(s, t)[id] == s.slots[id]
    ensures t.id in NextSlots(s, t) ==>
              var slot := NextSlots(s, t)[t.id];
              if Commits(s, t) then slot == Slot(t.handle, false, t.gen)
              else t.id in s.slots && (slot == s.slots[t.id] || (slot == s.slots[t.id].(delivered := true)
                     && slot.gen == t.gen
                     && (t.pc.AdoptSent? || t.pc.InvokeSent? || (t.pc.AdoptReady? && !LiveAt(s.lives, t.handle)))))
    ensures Commits(s, t) ==> t.id in NextSlots(s, t)
    ensures forall id :: id in s.slots && LiveAt(s.lives, s.slots[id].handle) && !(Commits(s, t) && id == t.id) ==>
              id in NextSlots(s, t) && NextSlots(s, t)[id].handle == s.slots[id].handle
  {
  }

  /** A commit finds its id free. */
  lemma CommitFresh(s: State, t: Task)
    requires Placed(s.slots, s.cancels, s.nextGen, t) && Held(s.lives, t) && Commits(s, t)
    ensures t.id !in s.slots && t.handle in s.lives && HasGen(t)
  {
  }

  lemma StepClaimsOk(s: State, i: nat, ch: Choice)
    requires Inv(s) && Enabled(s, Step(i, ch))
    ensures ClaimsOk(NextLives(s, s.tasks[i]), NextSlots(s, s.tasks[i]))
  {
    hide NextLives, NextSlots, Placed, Held, Unique, BusyOk, MayStep;
    var t := s.tasks[i];
    assert Placed(s.slots, s.cancels, s.nextGen, t) && Held(s.lives, t);
    LivesAfter(s, t);
    SlotsAfter(s, t);
    var l, m := NextLives(s, t), NextSlots(s, t);
    if Commits(s, t) {
      CommitFresh(s, t);
    }
    forall h | h in l
      ensures l[h].Sane()
      ensures l[h].Live() && l[h].claimed && !l[h].abandoned ==> Named(m, h)
    {
      if l[h].Live() && l[h].claimed && !l[h].abandoned {
        if Commits(s, t) && h == t.handle {
          assert m[t.id].handle == h;
        } else {
          var id :| id in s.slots && s.slots[id].handle == h;
          assert m[id].handle == h;
        }
      }
    }
  }

  /** What a committer's own step leaves of its claim to the slot. */
  lemma CommitterSteps(s: State, t: Task, ch: Choice, id: Id, slot: Slot, after: Slot)
    requires Committer(s.lives, t, id, slot) && Shape(t) && MayStep(s, t, ch) && !Commits(s, t)
    requires after == slot || after == slot.(delivered := true)
    requires t.pc.AdoptSent? || t.pc.InvokeSent? || (t.pc.AdoptReady? && !LiveAt(s.lives, t.handle)) ==> after.delivered
    requires after != slot ==> t.pc.AdoptSent? || t.pc.InvokeSent? || (t.pc.AdoptReady? && !LiveAt(s.lives, t.handle))
    ensures Committer(NextLives(s, t), NextTask(s, t, ch), id, after)
  {
    hide NextLives, Duplicate;
    LivesAfter(s, t);
  }

  /** Sessions that died stay dead. */
  lemma CommitterStays(a: map<Handle, Life>, b: map<Handle, Life>, t: Task, id: Id, slot: Slot)
    requires Committer(a, t, id, slot) && (LiveAt(b, slot.handle) ==> LiveAt(a, slot.handle))
    ensures Committer(b, t, id, slot)
  {
  }

  lemma FlipHits(s: State, t: Task)
    requires t.id in s.slots && s.slots[t.id].gen == t.gen && !Commits(s, t) && t.id in NextSlots(s, t)
    requires t.pc.AdoptSent? || t.pc.InvokeSent? || (t.pc.AdoptReady? && !LiveAt(s.lives, t.handle))
    ensures NextSlots(s, t)[t.id].delivered
  {
  }

  lemma StepSlotsOk(s: State, i: nat, ch: Choice)
    requires Inv(s) && Enabled(s, Step(i, ch))
    ensures SlotsOk(DoStep(s, i, ch))
  {
    hide NextLives, NextSlots, NextCancels, NextTask, NextStones, NextInFlight, NextBusy, Placed, Shape, Grounded,
      Unique, BusyOk, MayStep, Commits, Committer;
    var u, t := DoStep(s, i, ch), s.tasks[i];
    LivesAfter(s, t);
    SlotsAfter(s, t);
    assert Placed(s.slots, s.cancels, s.nextGen, t) && Held(s.lives, t);
    forall id | id in u.slots
      ensures Claimed(u.lives, u.slots[id].handle)
      ensures exists k :: 0 <= k < |u.tasks| && Committer(u.lives, u.tasks[k], id, u.slots[id])
    {
      if Commits(s, t) && id == t.id {
        CommitFresh(s, t);
        CommitOwns(s, t, ch);
        assert Committer(u.lives, u.tasks[i], id, u.slots[id]);
      } else {
        var k :| 0 <= k < |s.tasks| && Committer(s.lives, s.tasks[k], id, s.slots[id]);
        if k == i {
          OwnSlotAfter(s, t, ch, id);
        } else {
          OtherSlotAfter(s, i, k, id);
        }
        assert Committer(u.lives, u.tasks[k], id, u.slots[id]);
      }
    }
  }

  lemma CommitOwns(s: State, t: Task, ch: Choice)
    requires Commits(s, t) && Shape(t) && HasGen(t)
    ensures Committer(NextLives(s, t), NextTask(s, t, ch), t.id, Slot(t.handle, false, t.gen))
    ensures Claimed(NextLives(s, t), t.handle)
  {
  }

  lemma OwnSlotAfter(s: State, t: Task, ch: Choice, id: Id)
    requires Placed(s.slots, s.cancels, s.nextGen, t) && Held(s.lives, t) && MayStep(s, t, ch)
    requires id in s.slots && Committer(s.lives, t, id, s.slots[id]) && id in NextSlots(s, t)
    ensures Committer(NextLives(s, t), NextTask(s, t, ch), id, NextSlots(s, t)[id])
  {
    hide NextLives, NextSlots, NextTask, MayStep, Commits;
    SlotsAfter(s, t);
    if Commits(s, t) {
      CommitFresh(s, t);
    } else {
      if t.pc.AdoptSent? || t.pc.InvokeSent? || (t.pc.AdoptReady? && !LiveAt(s.lives, t.handle)) {
        FlipHits(s, t);
      }
      CommitterSteps(s, t, ch, id, s.slots[id], NextSlots(s, t)[id]);
    }
  }

  lemma OtherSlotAfter(s: State, i: nat, k: nat, id: Id)
    requires TasksOk(s) && i < |s.tasks| && k < |s.tasks| && k != i
    requires id in s.slots && Committer(s.lives, s.tasks[k], id, s.slots[id]) && id in NextSlots(s, s.tasks[i])
    requires !(Commits(s, s.tasks[i]) && id == s.tasks[i].id)
    ensures Committer(NextLives(s, s.tasks[i]), s.tasks[k], id, NextSlots(s, s.tasks[i])[id])
  {
    hide NextLives, NextSlots, Placed, Grounded, BusyOk;
    var t := s.tasks[i];
    LivesAfter(s, t);
    SlotsAfter(s, t);
    assert Held(s.lives, t);
    CommitterStays(s.lives, NextLives(s, t), s.tasks[k], id, s.slots[id]);
  }
}
