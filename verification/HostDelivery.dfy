/** What a prepare with nothing against it gets: a commit exactly when its session lives and its token
    stands, and after a commit the session itself. */
module HostDelivery {
  import opened Prelude
  import opened SessionState
  import opened Host
  import opened HostOwnership
  import opened HostRuns

  /** A warm candidate is adopted and a resolve is delivered exactly if the session lives and, for a
      resolve, no cancel spent the token; a commit claims the session and slots it, and nothing else of
      the step does. */
  lemma CommitIsDue(s: State, i: nat, ch: Choice)
    requires Enabled(s, Step(i, ch)) && (s.tasks[i].pc.Found? || s.tasks[i].pc.Cleared?) && !s.tasks[i].committed
    ensures var (t, u) := (s.tasks[i], DoStep(s, i, ch));
            var due := t.handle in s.lives && s.lives[t.handle].terminal.None?
                       && (t.pc.Cleared? ==> t.id !in s.cancels || !s.cancels[t.id].cancelled);
            && (u.tasks[i].committed <==> due)
            && (due ==> t.id in u.slots && u.slots[t.id] == Slot(t.handle, false, t.gen)
                        && u.lives[t.handle] == s.lives[t.handle].(claimed := true, abandoned := false))
            && (!due ==> u.lives == s.lives)
            && (!due ==> forall id :: id in u.slots ==> id in s.slots && u.slots[id] == s.slots[id])
  {
    hide NextCancels, NextStones, NextInFlight, NextBusy;
  }

  /** An admitted prepare without a tombstone takes the warm session it finds, and otherwise launches its
      invocation unless the host refuses to. */
  lemma AdmittedGoesOn(s: State, i: nat, ch: Choice)
    requires Enabled(s, Step(i, ch)) && s.tasks[i].prepare && s.tasks[i].pc == Admitted(false)
    ensures var u := DoStep(s, i, ch).tasks[i];
            if ch.handle.Some? then u.pc.Found? && u.handle == ch.handle.value
            else if ch.coin then u.pc.Refused?
            else u.pc.Invoking? && u.id in DoStep(s, i, ch).cancels
                 && DoStep(s, i, ch).cancels[u.id] == LiveRequest(false, true, false, u.liveGen)
  {
    hide NextStones, NextInFlight, NextBusy, NextSlots, NextLives;
  }

  /** A resolve comes back with the session it made or empty-handed, and with one that meets no tombstone
      it goes on to its commit. */
  lemma ResolvedGoesOn(s: State, i: nat, ch: Choice)
    requires Enabled(s, Step(i, ch)) && s.tasks[i].prepare
    ensures s.tasks[i].pc.Settled? && ch.handle.Some? ==>
              DoStep(s, i, ch).tasks[i] == s.tasks[i].(pc := Resolved(true), handle := ch.handle.value)
    ensures s.tasks[i].pc.Settled? && ch.handle.None? ==>
              DoStep(s, i, ch).tasks[i] == s.tasks[i].(pc := Resolved(false))
    ensures s.tasks[i].pc == Resolved(true) && s.tasks[i].id !in s.stones ==>
              DoStep(s, i, ch).tasks[i] == s.tasks[i].(pc := Cleared)
  {
    hide NextCancels, NextStones, NextInFlight, NextBusy, NextSlots, NextLives;
  }

  predicate BeforeCommit(pc: Pc) {
    || pc.New? || pc.Tracked? || pc.Admitted? || pc.Found? || pc.Invoking? || pc.Settled? || pc.Resolved?
    || pc.Cleared?
  }

  /** What a committed request has told its listener: its session, or a failure once that was dead. */
  predicate Told(lives: map<Handle, Life>, t: Task) {
    && (BeforeCommit(t.pc) ==> t.out.None?)
    && (t.committed && t.out.Some? ==>
          t.out == Some(Prepared(t.handle)) || (t.out == Some(Failed) && !LiveAt(lives, t.handle)))
    && (t.committed && (t.pc.Leaving? || t.pc.Closing? || t.pc.Finished?) ==> t.out.Some?)
    && (!t.prepare && (t.pc.Closing? || t.pc.Finished?) ==> t.out == Some(Answered))
  }

  ghost predicate AllTold(s: State) {
    forall i :: 0 <= i < |s.tasks| ==> Told(s.lives, s.tasks[i])
  }

  lemma ToldStep(s: State, t: Task, ch: Choice)
    requires Told(s.lives, t) && Shape(t) && (t.pc.AdoptDead? ==> !LiveAt(s.lives, t.handle))
    ensures Told(NextLives(s, t), NextTask(s, t, ch))
  {
    hide NextLives, NextTask, Shape, Apply, Commits, LiveAt;
    LivesAfter(s, t);
    AnswersWhen(s, t, ch);
    assert LiveAt(NextLives(s, t), t.handle) ==> LiveAt(s.lives, t.handle) || !t.committed by {
      StaysDead(s, t);
    }
  }

  lemma StaysDead(s: State, t: Task)
    ensures LiveAt(NextLives(s, t), t.handle) ==> LiveAt(s.lives, t.handle)
  {
  }

  /** When a step answers, and with what. */
  lemma AnswersWhen(s: State, t: Task, ch: Choice)
    requires Shape(t)
    ensures var u := NextTask(s, t, ch);
            && (t.pc.AdoptLive? || t.pc.InvokeReady? ==> u.out == Some(Prepared(t.handle)))
            && (t.committed && !t.pc.AdoptLive? && !t.pc.InvokeReady? && !t.pc.AdoptDead? ==> u.out == t.out)
            && (t.committed && t.pc.AdoptDead? ==> u.out == Some(Failed))
            && (t.committed ==> u.committed && u.handle == t.handle && !BeforeCommit(u.pc))
            && (!t.committed && u.committed ==> u.out == t.out && BeforeCommit(t.pc))
            && (BeforeCommit(u.pc) ==> BeforeCommit(t.pc) && u.out == t.out)
            && u.prepare == t.prepare
            && (!t.prepare && (u.pc.Closing? || u.pc.Finished?) ==>
                  u.out == Some(Answered) || (u.out == t.out && (t.pc.Closing? || t.pc.Finished?)))
            && (u.committed && (u.pc.Leaving? || u.pc.Closing? || u.pc.Finished?) ==>
                  u.out.Some? || (t.committed && u.out == t.out && (t.pc.Leaving? || t.pc.Closing? || t.pc.Finished?)))
  {
    hide Duplicate, LiveAt, Commits;
  }

  /** A session that has ended stays so. */
  lemma ToldStays(a: map<Handle, Life>, b: map<Handle, Life>, t: Task)
    requires Told(a, t) && (LiveAt(b, t.handle) ==> LiveAt(a, t.handle) || !t.committed)
    ensures Told(b, t)
  {
  }

  lemma ToldKept(s: State, a: Act)
    requires Inv(s) && AllTold(s) && Enabled(s, a)
    ensures AllTold(Do(s, a))
  {
    hide NextTask, NextCancels, NextStones, NextInFlight, NextBusy, NextSlots, NextLives, MayStep, MayCancel,
      NextCanceler, Told, Placed, Unique, BusyOk, SlotsOk, ClaimsOk, CancelLives, Takes, Apply;
    var u := Do(s, a);
    forall i | 0 <= i < |u.tasks| ensures Told(u.lives, u.tasks[i]) {
      if i < |s.tasks| {
        assert Told(s.lives, s.tasks[i]) && Held(s.lives, s.tasks[i]);
        if a.Step? && a.i == i {
          ToldStep(s, s.tasks[i], a.ch);
        } else {
          NoneRevives(s, a, s.tasks[i]);
          ToldStays(s.lives, u.lives, s.tasks[i]);
        }
      } else {
        NewTold(u.lives, u.tasks[i]);
      }
    }
  }

  lemma NewTold(lives: map<Handle, Life>, t: Task)
    requires t.pc.New? && t.out.None? && !t.committed
    ensures Told(lives, t)
  {
  }

  lemma NoneRevives(s: State, a: Act, t: Task)
    requires Enabled(s, a) && Grounded(s.lives, t)
    ensures LiveAt(Do(s, a).lives, t.handle) ==> LiveAt(s.lives, t.handle) || !t.committed
  {
    hide NextTask, NextCancels, NextStones, NextInFlight, NextBusy, NextSlots, NextLives, MayStep, MayCancel,
      NextCanceler;
    if a.Step? {
      LivesAfter(s, s.tasks[a.i]);
    }
  }

  lemma {:induction false} ToldRun(s: State, acts: seq<Act>, t: State)
    requires Inv(s) && AllTold(s) && Run(s, acts, t)
    ensures AllTold(t)
    decreases acts
  {
    hide Inv, AllTold, Do, Enabled;
    if acts != [] {
      ActKeeps(s, acts[0]);
      ToldKept(s, acts[0]);
      ToldRun(Do(s, acts[0]), acts[1..], t);
    }
  }

  /** A generic invocation that has finished answered with its result; a tombstone it met at its start is
      handed to it as a spent token. */
  lemma GenericAnswers(acts: seq<Act>, s: State, i: nat)
    requires Run(Start(), acts, s) && i < |s.tasks| && !s.tasks[i].prepare
    ensures s.tasks[i].pc.Finished? ==> s.tasks[i].out == Some(Answered)
    ensures forall ch: Choice ::
              s.tasks[i].pc.Admitted? && !ch.coin && Enabled(s, Step(i, ch)) ==>
                && s.tasks[i].id in DoStep(s, i, ch).cancels
                && DoStep(s, i, ch).cancels[s.tasks[i].id].cancelled == s.tasks[i].pc.tombstoned
  {
    assert Inv(Start()) && AllTold(Start());
    ToldRun(Start(), acts, s);
    assert Told(s.lives, s.tasks[i]);
  }

  /** Whoever commits delivers: over every run a committed prepare that has finished answered with its
      session, or with a failure after that session had ended. */
  lemma CommittedIsDelivered(acts: seq<Act>, s: State, i: nat)
    requires Run(Start(), acts, s) && i < |s.tasks| && s.tasks[i].committed && s.tasks[i].pc.Finished?
    ensures s.tasks[i].out == Some(Prepared(s.tasks[i].handle))
            || (s.tasks[i].out == Some(Failed) && !LiveAt(s.lives, s.tasks[i].handle))
  {
    assert Inv(Start()) && AllTold(Start());
    ToldRun(Start(), acts, s);
  }
}
