/** A run in which a cancel's promise fails: a session played, cancelled by its only owner and then
    closed is live, detached and owned by nobody. */
module HostExample {
  import opened Prelude
  import opened SessionState
  import opened Host
  import opened HostRuns
  import opened HostCancel

  /** One more step of a run. */
  lemma {:induction false} Then(s: State, acts: seq<Act>, t: State, a: Act)
    requires Run(s, acts, t) && Enabled(t, a)
    ensures Run(s, acts + [a], Do(t, a))
    decreases acts
  {
    hide Do, Enabled;
    if acts == [] {
      assert Run(Do(s, a), [], Do(t, a));
      assert (acts + [a])[1..] == [];
    } else {
      Then(Do(s, acts[0]), acts[1..], t, a);
      assert (acts + [a])[1..] == acts[1..] + [a];
    }
  }

  lemma Go(acts: seq<Act>, s: State, a: Act) returns (longer: seq<Act>, t: State)
    requires Run(Start(), acts, s) && Enabled(s, a)
    ensures Run(Start(), longer, t) && t == Do(s, a)
  {
    hide Do, Enabled;
    Then(Start(), acts, s, a);
    longer, t := acts + [a], Do(s, a);
  }

  /** The one request of the example, at a program point. */
  function Request(pc: Pc, gen: Gen, liveGen: Gen, committed: bool, out: Option<Outcome>): Task {
    Task(1, true, gen, liveGen, pc, 0, committed, out)
  }

  /** A step of that request, with no cancel yet. */
  lemma Advance(acts: seq<Act>, s: State, ch: Choice) returns (longer: seq<Act>, t: State)
    requires Run(Start(), acts, s) && |s.tasks| == 1 && MayStep(s, s.tasks[0], ch)
    ensures Run(Start(), longer, t) && t == DoStep(s, 0, ch)
    ensures t.tasks == [NextTask(s, s.tasks[0], ch)]
  {
    hide NextTask, NextSlots, NextCancels, NextLives, NextStones, NextInFlight, NextBusy, MayStep, Run;
    longer, t := Go(acts, s, Step(0, ch));
  }

  /** A session exists, and its prepare is about to be admitted. */
  lemma Called() returns (acts: seq<Act>, s: State)
    ensures Run(Start(), acts, s)
    ensures s.tasks == [Request(Tracked, 0, 0, false, None)] && s.cancelers == [] && s.busy.None?
    ensures s.lives == map[0 := NewLife(0)] && s.slots == map[] && s.stones == {} && s.cancels == map[]
              && s.nextGen == 0
  {
    hide Run;
    acts, s := [], Start();
    assert Run(Start(), acts, s) by {
      Nothing();
    }
    acts, s := Go(acts, s, Create(0));
    acts, s := Go(acts, s, Call(1, true));
    acts, s := Advance(acts, s, Choice(None, false));
  }

  /** Admitted and launched. */
  lemma Launched() returns (acts: seq<Act>, s: State)
    ensures Run(Start(), acts, s)
    ensures s.tasks == [Request(Invoking, 0, 1, false, None)] && s.cancelers == [] && s.busy.None?
    ensures s.lives == map[0 := NewLife(0)] && s.slots == map[] && s.stones == {}
    ensures s.cancels == map[1 := LiveRequest(false, true, false, 1)]
  {
    hide Run, Start;
    acts, s := Called();
    acts, s := Advance(acts, s, Choice(None, false));
    acts, s := Advance(acts, s, Choice(None, false));
  }

  lemma Nothing()
    ensures Run(Start(), [], Start())
  {
  }

  /** Resolved to a session and committed. */
  lemma CommittedRun() returns (acts: seq<Act>, s: State)
    ensures Run(Start(), acts, s)
    ensures s.tasks == [Request(InvokeReady, 0, 1, true, None)] && s.cancelers == [] && s.busy.None?
    ensures s.lives == map[0 := NewLife(0).Claim()] && s.slots == map[1 := Slot(0, false, 0)] && s.stones == {}
    ensures s.cancels == map[1 := LiveRequest(false, true, true, 1)]
  {
    hide Run, Start;
    acts, s := Launched();
    acts, s := Advance(acts, s, Choice(None, false));
    acts, s := Advance(acts, s, Choice(Some(0), false));
    acts, s := Advance(acts, s, Choice(None, false));
    acts, s := Advance(acts, s, Choice(None, false));
  }

  /** Delivered, flipped and cleaned up. */
  lemma DeliveredRun() returns (acts: seq<Act>, s: State)
    ensures Run(Start(), acts, s)
    ensures s.tasks == [Request(Finished, 0, 1, true, Some(Prepared(0)))] && s.cancelers == [] && s.busy.None?
    ensures s.lives == map[0 := NewLife(0).Claim()] && s.slots == map[1 := Slot(0, true, 0)] && s.cancels == map[]
  {
    hide Run, Start;
    acts, s := CommittedRun();
    acts, s := Advance(acts, s, Choice(None, false));
    acts, s := Advance(acts, s, Choice(None, false));
    acts, s := Advance(acts, s, Choice(None, false));
    acts, s := Advance(acts, s, Choice(None, false));
  }

  /** Attached, then cancelled by its only owner: marked, and in no slot. */
  lemma CancelledRun() returns (acts: seq<Act>, s: State)
    ensures Run(Start(), acts, s)
    ensures s.tasks == [Request(Finished, 0, 1, true, Some(Prepared(0)))] && s.slots == map[]
    ensures |s.cancelers| == 1 && s.cancelers[0].pc == Taken(true) && !s.cancelers[0].early && s.cancelers[0].id == 1
    ensures s.lives == map[0 := NewLife(0).Claim().Attach().Abandon()]
  {
    hide Run, Start;
    acts, s := DeliveredRun();
    acts, s := Go(acts, s, Session(0, Attach));
    acts, s := Go(acts, s, Cancel(1));
    assert AllReturned(s.tasks, 1) by {
      assert s.tasks[0].id == 1;
    }
    acts, s := Go(acts, s, CancelStep(0, true, {}));
    acts, s := Go(acts, s, CancelStep(0, true, {}));
  }

  /** None of the three ends: the cancel and the delivery have finished, the outcome named the
      session, and it is live, detached and in no slot. Its last event is the close. */
  lemma ClosedAfterCancel() returns (acts: seq<Act>, s: State)
    ensures Run(Start(), acts, s)
    ensures |s.cancelers| == 1 && s.cancelers[0].pc.Done? && !s.cancelers[0].early && s.cancelers[0].id == 1
    ensures Solo(s.tasks, 1) && s.tasks == [Request(Finished, 0, 1, true, Some(Prepared(0)))]
    ensures 0 in s.lives && s.lives[0].Live() && !s.lives[0].attached && s.slots == map[] && !s.lives[0].claimed
    ensures !Kept(s, 1, 0) && ClosedForGood(Start(), acts, 0)
  {
    hide Run, Start, ClosedForGood, LeftAlone;
    acts, s := CancelledRun();
    acts, s := Go(acts, s, CancelStep(0, true, {}));
    acts, s := Go(acts, s, Session(0, Close(1)));
    CancelNeverLost(acts, s, 0, 0);
  }
}
