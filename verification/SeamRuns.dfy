/** All sessions together: the shared demand counter, the pumps parked on it, and the
    seam's guarantees over every run. */
module SeamRuns {
  import opened Prelude
  import opened SessionState
  import opened Seam
  import opened SeamDemand
  import opened SeamTruth
  import SparseStore

  /** What every session has published, added up. */
  function Published(ss: seq<Session>): nat {
    if ss == [] then 0 else Published(ss[..|ss| - 1]) + ss[|ss| - 1].sh.demandPublished
  }

  lemma {:induction false} PublishedUpdate(ss: seq<Session>, i: nat, s: Session)
    requires i < |ss|
    ensures Published(ss[i := s]) == Published(ss) - ss[i].sh.demandPublished + s.sh.demandPublished
  {
    var n := |ss| - 1;
    if i == n {
      assert ss[i := s][..n] == ss[..n];
    } else {
      assert ss[i := s][..n] == ss[..n][i := s];
      PublishedUpdate(ss[..n], i, s);
    }
  }

  lemma {:induction false} PublishedSame(ss: seq<Session>, ts: seq<Session>)
    requires |ss| == |ts| && forall i :: 0 <= i < |ss| ==> ss[i].sh == ts[i].sh
    ensures Published(ss) == Published(ts)
  {
    if ss != [] {
      PublishedSame(ss[..|ss| - 1], ts[..|ts| - 1]);
    }
  }

  /** The counter is the sum, and a pump parked on demand has either demand to wait for or
      a drain notify on its way. */
  ghost predicate PoolInv(w: World) {
    && w.demand == Published(w.sessions)
    && (forall i :: 0 <= i < |w.sessions| && w.sessions[i].pump == DrainWaiting(false) ==>
          w.demand > 0 || w.drains > 0)
  }

  ghost predicate WorldInv(w: World) {
    && PoolInv(w)
    && forall i :: 0 <= i < |w.sessions| ==> Inv(w.sessions[i]) && TruthInv(w.sessions[i])
  }

  ghost predicate HonestStep(w: World, step: Step) {
    step.Local? && step.i < |w.sessions| ==> Honest(w.sessions[step.i], step.act)
  }

  lemma LocalKeepsPool(w: World, i: nat, act: Act)
    requires PoolInv(w) && StepEnabled(w, Local(i, act))
    ensures PoolInv(Next(w, Local(i, act)))
  {
    var t := Next(w, Local(i, act));
    hide Do, Enabled;
    PublishedUpdate(w.sessions, i, t.sessions[i]);
    forall j | 0 <= j < |t.sessions| && t.sessions[j].pump == DrainWaiting(false)
      ensures t.demand > 0 || t.drains > 0
    {
      if j == i {
        ListensBeforeWaiting(w.sessions[i], act, w.demand);
      } else {
        assert t.sessions[j] == w.sessions[j];
      }
    }
  }

  /** A pump commits to waiting only after it registered and saw demand still pending. */
  lemma ListensBeforeWaiting(s: Session, a: Act, demand: int)
    requires Enabled(s, a) && Do(s, a, demand).pump == DrainWaiting(false)
    ensures s.pump == DrainWaiting(false) || (a == PumpRecheck && demand != 0)
    ensures a == PumpRecheck ==> Do(s, a, demand).sh == s.sh
  {
    hide DoReadBegin, DoReadCheck, DoReadQueue, DoReadPark, DoNotify, DoCommitStore, DoCommitMark, DoStall, DoAttach,
      DoClose, DecideRest, DecideFirst;
    if !(a in {PumpDecide, PumpPick, PumpListen, PumpRecheck, PumpWake, PumpFetched, PumpExit} || a.PumpEof?) {
      OnlyPumpActsMoveThePump(s, a, demand);
    }
  }

  lemma OnlyPumpActsMoveThePump(s: Session, a: Act, demand: int)
    requires Enabled(s, a)
    requires !(a in {PumpDecide, PumpPick, PumpListen, PumpRecheck, PumpWake, PumpFetched, PumpExit}) && !a.PumpEof?
    ensures Do(s, a, demand).pump == s.pump
  {
    hide DoPumpDecide, DoPumpPick, SparseStore.Serve, SparseStore.Placed, SparseStore.ServeLen, BodyTrue,
      Shared.MarkEof, Shared.Terminate, Shared.Drop, Shared.Queue, Wakeable;
  }

  lemma StepKeeps(w: World, step: Step)
    requires WorldInv(w) && StepEnabled(w, step)
    ensures WorldInv(Next(w, step))
  {
    match step
    case Open(cfg, res, hint, now) => OpenKeeps(w, step);
    case Local(i, act) => LocalKeeps(w, i, act);
    case DrainNotify => DrainKeeps(w);
  }

  lemma OpenKeeps(w: World, step: Step)
    requires WorldInv(w) && StepEnabled(w, step) && step.Open?
    ensures WorldInv(Next(w, step))
  {
    var t := Next(w, step);
    InitInv(step.cfg, step.res, step.hint, step.now);
    assert t.sessions[..|t.sessions| - 1] == w.sessions;
  }

  lemma LocalKeeps(w: World, i: nat, act: Act)
    requires WorldInv(w) && StepEnabled(w, Local(i, act))
    ensures WorldInv(Next(w, Local(i, act)))
  {
    hide Do, Inv, TruthInv, Enabled;
    LocalKeepsPool(w, i, act);
    ActKeeps(w.sessions[i], act, w.demand);
    ActKeepsTruth(w.sessions[i], act, w.demand);
  }

  lemma DrainKeeps(w: World)
    requires WorldInv(w) && StepEnabled(w, DrainNotify)
    ensures WorldInv(Next(w, DrainNotify))
  {
    hide Inv, TruthInv;
    var t := Next(w, DrainNotify);
    PublishedSame(w.sessions, t.sessions);
    forall i | 0 <= i < |w.sessions| ensures Inv(t.sessions[i]) && TruthInv(t.sessions[i]) {
      DrainedKeeps(w.sessions[i]);
    }
  }

  lemma DrainedKeeps(s: Session)
    ensures Drained(s).sh == s.sh
    ensures Inv(s) ==> Inv(Drained(s))
    ensures TruthInv(s) ==> TruthInv(Drained(s))
    ensures EofInv(s) ==> EofInv(Drained(s))
  {
    if Inv(s) {
      PumpMoves(s, Drained(s));
    }
  }

  lemma StepKeepsEof(w: World, step: Step)
    requires StepEnabled(w, step) && HonestStep(w, step)
    requires forall i :: 0 <= i < |w.sessions| ==> EofInv(w.sessions[i])
    ensures var t := Next(w, step); forall i :: 0 <= i < |t.sessions| ==> EofInv(t.sessions[i])
  {
    hide Do, Enabled, EofInv;
    if step.Open? {
      FreshEof(step);
    }
    if step.DrainNotify? {
      forall i | 0 <= i < |w.sessions| ensures EofInv(Drained(w.sessions[i])) {
        DrainedKeeps(w.sessions[i]);
      }
    }
    if step.Local? {
      ActKeepsEof(w.sessions[step.i], step.act, w.demand);
    }
  }

  lemma FreshEof(step: Step)
    requires step.Open?
    ensures EofInv(NewSession(step.cfg, step.res, step.hint, step.now))
  {
  }

  // ---- runs ---------------------------------------------------------------------------

  /** A run from the empty registry: `ws[k + 1]` follows from `ws[k]` by `steps[k]`. */
  ghost predicate Run(ws: seq<World>, steps: seq<Step>) {
    && |ws| == |steps| + 1
    && ws[0] == World(0, 0, [])
    && forall k :: 0 <= k < |steps| ==> StepEnabled(ws[k], steps[k]) && ws[k + 1] == Next(ws[k], steps[k])
  }

  ghost predicate HonestRun(ws: seq<World>, steps: seq<Step>) {
    Run(ws, steps) && forall k :: 0 <= k < |steps| ==> HonestStep(ws[k], steps[k])
  }

  lemma {:induction false} RunKeeps(ws: seq<World>, steps: seq<Step>, k: nat)
    requires Run(ws, steps) && k < |ws|
    ensures WorldInv(ws[k])
  {
    if k > 0 {
      RunKeeps(ws, steps, k - 1);
      StepKeeps(ws[k - 1], steps[k - 1]);
    }
  }

  lemma {:induction false} HonestRunKeeps(ws: seq<World>, steps: seq<Step>, k: nat)
    requires HonestRun(ws, steps) && k < |ws|
    ensures forall i :: 0 <= i < |ws[k].sessions| ==> EofInv(ws[k].sessions[i])
  {
    if k > 0 {
      HonestRunKeeps(ws, steps, k - 1);
      StepKeepsEof(ws[k - 1], steps[k - 1]);
    }
  }

  /** In every reachable state: a queued position counts exactly the readers holding it, an
      absent one is held by nobody or answerable; a session's published demand is its queue
      size, an ended session publishes none, and the shared counter is the sum. */
  lemma NoDemandLostOrLeaked(ws: seq<World>, steps: seq<Step>, k: nat)
    requires Run(ws, steps) && k < |ws|
    ensures ws[k].demand == Published(ws[k].sessions)
    ensures forall i :: 0 <= i < |ws[k].sessions| ==>
              var s := ws[k].sessions[i];
              && s.sh.demandPublished == |s.sh.fetchThrough|
              && (!s.sh.life.Live() ==> s.sh.demandPublished == 0)
              && (s.sh.life.Live() ==> forall p: nat :: Balanced(s, p))
  {
    RunKeeps(ws, steps, k);
  }

  /** In every reachable state: a parked reader that has anything to learn has a notify still to
      come, and so has a pump parked on a demand counter that is back at zero; and no pump rests
      on unlatched demand of its own without a permit to wake it. */
  lemma NoLostWakeup(ws: seq<World>, steps: seq<Step>, k: nat, i: nat)
    requires Run(ws, steps) && k < |ws| && i < |ws[k].sessions|
    ensures var s := ws[k].sessions[i];
            && (forall r :: 0 <= r < |s.readers| && s.readers[r].pc == Waiting && MustWake(s, s.readers[r]) ==>
                  NotifyComing(s))
            && (s.pump == DrainWaiting(false) && ws[k].demand == 0 ==> ws[k].drains > 0)
            && (Resting(s.pump) && s.sh.life.Live() && s.sh.transientError.None? && s.sh.fetchThrough != map[] ==>
                  s.permit)
  {
    RunKeeps(ws, steps, k);
    assert WakeInv(ws[k].sessions[i]);
  }

  /** In every run whose bodies are true to their range: every covered offset holds the
      resource's byte, and every answer is a slice of the resource where it was asked for. */
  lemma ServedBytesAreTrue(ws: seq<World>, steps: seq<Step>, k: nat, i: nat)
    requires Run(ws, steps) && k < |ws| && i < |ws[k].sessions|
    ensures TruthInv(ws[k].sessions[i])
  {
    RunKeeps(ws, steps, k);
  }

  /** Against an honest server: an empty answer is only ever given at or past the end. */
  lemma EofIsSound(ws: seq<World>, steps: seq<Step>, k: nat, i: nat)
    requires HonestRun(ws, steps) && k < |ws| && i < |ws[k].sessions|
    ensures EofInv(ws[k].sessions[i])
  {
    HonestRunKeeps(ws, steps, k);
  }

  /** A ceiling, once set, holds for the rest of the run: it never rises. */
  lemma {:induction false} EofIsFinal(ws: seq<World>, steps: seq<Step>, k: nat, l: nat, i: nat, b: nat)
    requires Run(ws, steps) && k <= l < |ws| && i < |ws[k].sessions|
    requires ws[k].sessions[i].sh.eofBelow.Some? && ws[k].sessions[i].sh.eofBelow.value <= b
    ensures i < |ws[l].sessions|
    ensures ws[l].sessions[i].sh.eofBelow.Some? && ws[l].sessions[i].sh.eofBelow.value <= b
    decreases l
  {
    hide Do, Enabled;
    if l > k {
      EofIsFinal(ws, steps, k, l - 1, i, b);
      var step := steps[l - 1];
      assert StepEnabled(ws[l - 1], step) && ws[l] == Next(ws[l - 1], step);
      if step.Local? && step.i == i {
        KnowledgeOnlyGrows(ws[l - 1].sessions[i], step.act, ws[l - 1].demand);
      }
    }
  }

  /** And no decision of the pump, at any later point of the run, fetches at or past it. */
  lemma CeilingBoundsTheRun(ws: seq<World>, steps: seq<Step>, k: nat, l: nat, i: nat, b: nat)
    requires Run(ws, steps) && k <= l < |steps| && i < |ws[k].sessions|
    requires ws[k].sessions[i].sh.eofBelow == Some(b)
    requires steps[l] == Local(i, PumpDecide) || steps[l] == Local(i, PumpPick)
    ensures i < |ws[l + 1].sessions|
    ensures var pump := ws[l + 1].sessions[i].pump; pump.Fetching? ==> pump.offset < b && pump.len >= 1
  {
    hide Do, Enabled;
    EofIsFinal(ws, steps, k, l + 1, i, b);
    assert StepEnabled(ws[l], steps[l]) && ws[l + 1] == Next(ws[l], steps[l]);
    ConfigsStayValid(ws, steps, l, i);
    NoFetchPastCeiling(ws[l].sessions[i], steps[l].act, ws[l].demand);
  }

  lemma {:induction false} ConfigsStayValid(ws: seq<World>, steps: seq<Step>, k: nat, i: nat)
    requires Run(ws, steps) && k < |ws| && i < |ws[k].sessions|
    ensures ws[k].sessions[i].cfg.Valid()
    decreases k
  {
    hide Do, Enabled;
    if k > 0 {
      var step := steps[k - 1];
      assert StepEnabled(ws[k - 1], step) && ws[k] == Next(ws[k - 1], step);
      if i < |ws[k - 1].sessions| {
        ConfigsStayValid(ws, steps, k - 1, i);
        if step.Local? && step.i == i {
          KnowledgeOnlyGrows(ws[k - 1].sessions[i], step.act, ws[k - 1].demand);
        }
      }
    }
  }
}
