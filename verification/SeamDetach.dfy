/** A detach ends every read of the attachment it closes, and the wakes that parked readers and pumps are
    promised do wake them. */
module SeamDetach {
  import opened Prelude
  import opened Extents
  import opened SessionState
  import opened Seam
  import opened SeamRuns
  import opened SeamLatch
  import SeamDemand
  import SparseStore

  /** Reader `r` belongs to an attachment that has been closed since, or it is through. */
  predicate Outdated(s: Session, r: nat) {
    && r < |s.readers| && s.readers[r].pc != Entering
    && (s.readers[r].pc != Done ==> s.readers[r].epoch < s.sh.life.detachEpoch)
  }

  lemma CheckKeepsReader(s: Session, r: nat, ioFails: bool)
    requires Enabled(s, ReadCheck(r, ioFails))
    ensures var t := DoReadCheck(s, r, ioFails);
            && t.sh.life == s.sh.life && t.readers[r].pc in {Done, Checked}
            && (s.readers[r].pc != Entering ==> t.readers[r].epoch == s.readers[r].epoch)
            && forall q :: 0 <= q < |s.readers| && q != r ==> t.readers[q] == s.readers[q]
  {
    hide Verdict;
    PassOnFields(s, Anchored(s, s.readers[r]), ioFails);
  }

  /** The epoch only grows. */
  lemma EpochOnlyGrows(s: Session, a: Act, demand: int)
    requires Enabled(s, a)
    ensures s.sh.life.detachEpoch <= Do(s, a, demand).sh.life.detachEpoch
  {
    hide DoReadCheck, DecideRest, Whole, Least, BodyTrue, SparseStore.Placed;
    if a.ReadCheck? {
      CheckKeepsReader(s, a.r, a.ioFails);
    }
  }

  /** A reader keeps the epoch it started with. */
  lemma EpochIsKept(s: Session, a: Act, demand: int, r: nat)
    requires Enabled(s, a) && r < |s.readers| && s.readers[r].pc != Entering
    ensures var t := Do(s, a, demand);
            && r < |t.readers| && t.readers[r].pc != Entering
            && (t.readers[r].pc != Done ==> t.readers[r].epoch == s.readers[r].epoch && s.readers[r].pc != Done)
  {
    hide DoReadCheck, DecideRest, Whole, Least, BodyTrue, SparseStore.Placed, Shared.Queue, Shared.Drop, Shared.MarkEof,
      Shared.Terminate, Shared.Retain, DecideFirst;
    if a.ReadCheck? {
      CheckKeepsReader(s, a.r, a.ioFails);
    }
  }

  lemma {:induction false} StaysOutdated(ws: seq<World>, steps: seq<Step>, i: nat, r: nat, k: nat, l: nat)
    requires Run(ws, steps) && k <= l < |ws| && i < |ws[k].sessions| && Outdated(ws[k].sessions[i], r)
    ensures i < |ws[l].sessions| && Outdated(ws[l].sessions[i], r)
    decreases l
  {
    hide Do, Enabled;
    if l > k {
      var step := steps[l - 1];
      StaysOutdated(ws, steps, i, r, k, l - 1);
      assert StepEnabled(ws[l - 1], step) && ws[l] == Next(ws[l - 1], step);
      if step.Local? && step.i == i {
        EpochOnlyGrows(ws[l - 1].sessions[i], step.act, ws[l - 1].demand);
        EpochIsKept(ws[l - 1].sessions[i], step.act, ws[l - 1].demand, r);
      }
    }
  }

  /** A close while a consumer is attached fails every read of that attachment that is still out: the next
      time such a reader looks, it is told `Cancelled`, or the error the session has ended with since. */
  lemma DetachEndsReads(ws: seq<World>, steps: seq<Step>, i: nat, r: nat, k: nat, l: nat, now: nat, io: bool)
    requires Run(ws, steps) && k < l < |steps| && i < |ws[k].sessions| && i < |ws[l].sessions|
    requires steps[k] == Local(i, Close(now)) && ws[k].sessions[i].sh.life.attached
    requires var s := ws[k].sessions[i];
             r < |s.readers| && s.readers[r].pc in {Waiting, Woken} && s.readers[r].epoch <= s.sh.life.detachEpoch
    requires steps[l] == Local(i, ReadCheck(r, io))
    ensures i < |ws[l + 1].sessions| && r < |ws[l + 1].sessions[i].readers|
    ensures var life := ws[l].sessions[i].sh.life;
            ws[l + 1].sessions[i].readers[r].out
            == Some(Failure(if life.terminal.Some? then life.terminal.value else Cancelled))
  {
    hide Do, Enabled;
    assert StepEnabled(ws[k], steps[k]) && ws[k + 1] == Next(ws[k], steps[k]);
    ClosesOut(ws[k].sessions[i], now, ws[k].demand, r);
    StaysOutdated(ws, steps, i, r, k + 1, l);
    assert StepEnabled(ws[l], steps[l]) && ws[l + 1] == Next(ws[l], steps[l]);
    OutdatedFails(ws[l].sessions[i], r, io, ws[l].demand);
  }

  lemma ClosesOut(s: Session, now: nat, demand: int, r: nat)
    requires Enabled(s, Close(now)) && s.sh.life.attached
    requires r < |s.readers| && s.readers[r].pc in {Waiting, Woken} && s.readers[r].epoch <= s.sh.life.detachEpoch
    ensures Outdated(Do(s, Close(now), demand), r)
  {
  }

  lemma OutdatedFails(s: Session, r: nat, io: bool, demand: int)
    requires Outdated(s, r) && Enabled(s, ReadCheck(r, io))
    ensures var t := Do(s, ReadCheck(r, io), demand);
            && r < |t.readers|
            && t.readers[r].out
               == Some(Failure(if s.sh.life.terminal.Some? then s.sh.life.terminal.value else Cancelled))
  {
    hide Verdict;
    PassOnFields(s, Anchored(s, s.readers[r]), io);
  }

  /** A read that outlives its patience at the park fails as network wobble and gives its hold back. */
  lemma ExpiredRead(s: Session, r: nat, demand: int)
    requires Enabled(s, ReadPark(r, true))
    ensures var t := Do(s, ReadPark(r, true), demand);
            && t.readers[r].pc == Done && t.readers[r].out == Some(Failure(Transient)) && !t.readers[r].holding
            && t.holder == Free
  {
  }

  /** A notify reaches every parked reader, and a woken one can look again as soon as the lock is free. */
  lemma NotifyWakes(s: Session, r: nat, demand: int)
    requires Enabled(s, NotifyReaders) && r < |s.readers| && s.readers[r].pc == Waiting
    ensures var t := Do(s, NotifyReaders, demand);
            && t.readers[r] == s.readers[r].(pc := Woken)
            && (t.holder == Free && t.readers[r].maxLen > 0 ==> Enabled(t, ReadCheck(r, false)))
  {
  }

  /** A permit wakes a pump that rests; a drain notify wakes one that yielded, and one that had only just
      decided to yield looks at the demand again; so does the end of the session. */
  lemma PumpWakes(s: Session, demand: int)
    ensures s.pump in {Parked, DrainWaiting(false), DrainWaiting(true)} && s.permit ==> Enabled(s, PumpWake)
    ensures s.pump.Parked? || s.pump.DrainWaiting? ==> !s.sh.life.Live() ==> Enabled(s, PumpWake)
    ensures s.pump.DrainWaiting? ==> Enabled(Drained(s), PumpWake)
    ensures s.pump == DrainListening(false) ==> Enabled(s, PumpRecheck)
    ensures s.pump == DrainListening(false) && demand == 0 ==> Do(s, PumpRecheck, demand).pump == Deciding
    ensures s.pump.DrainListening? && demand != 0 ==>
              Enabled(Do(Drained(s), PumpRecheck, demand), PumpWake)
    ensures Enabled(s, PumpWake) ==> Do(s, PumpWake, demand).pump == Deciding
  {
  }
}
