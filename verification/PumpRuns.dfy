/** Whole runs of the pump: they only move the session on, they shrink what is left to fetch, and what
    they conclude about the end is as good as the wire's word. */
module PumpRuns {
  import opened Prelude
  import opened Extents
  import opened SessionState
  import opened SessionObjects
  import opened FetchCycle
  import opened FetchPolicy
  import opened FetchPass
  import opened Pump
  import opened PumpLoop
  import Seam
  import SeamTruth
  import Store = SparseStore
  import Wire

  /** One turn as it happened: the decision, its outcome, the requests it sent and the mint it began on. */
  datatype Turned = Turned(a: Action, out: Option<Outcome>, log: seq<Request>, mint0: nat)
  {
    /** The turn fetched bytes, starting inside the window. */
    predicate Landed(lo: nat, bound: nat) {
      a.Fetch? && out == Some(Bytes) && lo <= a.offset < bound
    }
  }

  /** Turns that fetched bytes starting inside the window. */
  function Landings(turns: seq<Turned>, lo: nat, bound: nat): nat {
    if turns == [] then 0
    else Landings(turns[..|turns| - 1], lo, bound) + if turns[|turns| - 1].Landed(lo, bound) then 1 else 0
  }

  ghost predicate EnvsTrue(envs: nat -> Env, res: seq<Byte>) {
    forall k: nat :: EnvTrue(envs(k), res)
  }

  /** Every re-minted URL of the run refused only at or past the end. */
  ghost predicate HonestTurns(turns: seq<Turned>, n: nat) {
    forall k :: 0 <= k < |turns| ==> HonestRefusals(turns[k].log, turns[k].mint0, n)
  }

  /** What a run leaves of every window: each landing took a hole of its own. */
  ghost predicate Shrunk(before: set<nat>, after: set<nat>, turns: seq<Turned>) {
    forall lo: nat, bound: nat ::
      Landings(turns, lo, bound) + Holes(after, lo, bound) <= Holes(before, lo, bound)
  }

  /** The pump's loop, for at most `n` turns. It stops on its own only on a dead session or a whole file. */
  method RunPump(s: SessionInner, envs: nat -> Env, n: nat, ghost res: seq<Byte>)
    returns (running: bool, turns: seq<Turned>, heard: set<nat>)
    requires s.Valid() && s.cfg.Valid() && Fits(s.sh)
    modifies s`sh, s`core, s`readerNotes, s`headReady, s`permit, s`teardown, s.store, s.pool
    ensures s.Valid() && Onward(old(Now(s, res)), Now(s, res), EnvsTrue(envs, res))
    ensures |turns| <= n && (running ==> |turns| == n)
    ensures !running ==> !s.sh.life.Live() || Whole(s.store.Content().Keys, s.store.total)
    ensures Shrunk(old(s.store.Content().Keys), s.store.Content().Keys, turns)
    ensures Sound(old(Now(s, res)), |res|) && heard <= {|res|} && HonestTurns(turns, |res|) ==>
              Sound(Now(s, res), |res|)
  {
    hide Onward, Learned, Sound, EnvsTrue, EnvTrue, HonestTurns, HonestRefusals, Shrunk, Whole, Decision, Applied,
      CycleVerdict, LogFor, Policed, Prescribed, Fits, Store.SparseStore.Valid, Store.SparseStore.Content, TrueTo;
    ghost var first, bytesTrue := Now(s, res), EnvsTrue(envs, res);
    var k: nat := 0;
    running, turns, heard := true, [], {};
    StillOnward(first, bytesTrue, {});
    NothingShrunk(first.cover);
    while running && k < n
      invariant s.Valid() && s.cfg.Valid() && Fits(s.sh)
      invariant k <= n && |turns| == k
      invariant Onward(first, Now(s, res), bytesTrue)
      invariant !running ==> Finished(Now(s, res))
      invariant Shrunk(first.cover, Now(s, res).cover, turns)
      invariant Sound(first, |res|) && heard <= {|res|} && HonestTurns(turns, |res|) ==> Sound(Now(s, res), |res|)
      decreases running, n - k
    {
      ghost var before := Now(s, res);
      var mint0 := s.core.mintsUsed;
      var a, out, log, told;
      ghost var trace, decided, hint, demand;
      running, a, out, log, told, trace, decided, hint, demand := PumpPass(s, envs(k), res);
      var turn := Turned(a, out, log, mint0);
      OneEnvTrue(envs, k, res);
      OnwardWeaken(before, decided, EnvTrue(envs(k), res), bytesTrue);
      OnwardWeaken(decided, Now(s, res), EnvTrue(envs(k), res), bytesTrue);
      PassEnds(decided, Now(s, res), running, a, out, bytesTrue);
      if out == Some(Bytes) {
        BytesLanded(a, Now(s, res));
      }
      PassShrinks(first.cover, before, decided, Now(s, res), turns, turn, bytesTrue);
      OnwardJoin(before, decided, Now(s, res), bytesTrue);
      OnwardJoin(first, before, Now(s, res), bytesTrue);
      HonestySplits(turns, turn, heard, told, |res|);
      turns, heard, k := turns + [turn], heard + told, k + 1;
    }
  }

  /** Nothing is left for a pump to do. */
  ghost predicate Finished(x: State) {
    !x.sh.life.Live() || Whole(x.cover, x.total)
  }

  lemma NothingShrunk(cover: set<nat>)
    ensures Shrunk(cover, cover, [])
  {
  }

  lemma OneEnvTrue(envs: nat -> Env, k: nat, res: seq<Byte>)
    ensures EnvsTrue(envs, res) ==> EnvTrue(envs(k), res)
  {
  }

  lemma BytesLanded(a: Action, now: State)
    requires a.Fetch? && Applied(Bytes, a, now)
    ensures a.offset in now.cover
  {
  }

  lemma PassEnds(decided: State, now: State, running: bool, a: Action, out: Option<Outcome>, bytesTrue: bool)
    requires Onward(decided, now, bytesTrue)
    requires a.Stop? ==> Finished(decided)
    requires a.Fetch? ==> out.Some? && Applied(out.value, a, now)
    requires running <==> a.Park? || (a.Fetch? && !out.value.Failed?)
    ensures !running ==> Finished(now)
  {
    if a.Stop? && decided.sh.life.Live() {
      GapIsLeast(decided.cover, 0, decided.total.value);
      GapIsLeast(now.cover, 0, decided.total.value);
    }
  }

  lemma PassShrinks(start: set<nat>, before: State, decided: State, now: State, turns: seq<Turned>, turn: Turned,
                    bytesTrue: bool)
    requires Shrunk(start, before.cover, turns)
    requires Onward(before, decided, bytesTrue) && Onward(decided, now, bytesTrue)
    requires turn.a.Fetch? && turn.out == Some(Bytes) ==> turn.a.offset !in decided.cover && turn.a.offset in now.cover
    ensures Shrunk(start, now.cover, turns + [turn])
  {
    hide Holes;
    var longer := turns + [turn];
    assert longer[..|longer| - 1] == turns;
    forall lo: nat, bound: nat
      ensures Landings(longer, lo, bound) + Holes(now.cover, lo, bound) <= Holes(start, lo, bound)
    {
      assert Landings(turns, lo, bound) + Holes(before.cover, lo, bound) <= Holes(start, lo, bound);
      if turn.Landed(lo, bound) {
        FillShrinks(before.cover, now.cover, lo, bound, turn.a.offset);
      } else {
        CoverShrinks(before.cover, now.cover, lo, bound);
      }
    }
  }

  lemma CoverShrinks(before: set<nat>, after: set<nat>, lo: nat, bound: nat)
    requires before <= after
    ensures Holes(after, lo, bound) <= Holes(before, lo, bound)
  {
    SubsetCard(Span(lo, bound) - after, Span(lo, bound) - before);
  }

  lemma HonestySplits(turns: seq<Turned>, turn: Turned, heard: set<nat>, told: set<nat>, n: nat)
    ensures HonestTurns(turns + [turn], n) ==> HonestTurns(turns, n) && HonestRefusals(turn.log, turn.mint0, n)
    ensures heard + told <= {n} ==> heard <= {n} && told <= {n}
  {
    hide HonestRefusals;
    var longer := turns + [turn];
    if HonestTurns(longer, n) {
      assert HonestRefusals(longer[|turns|].log, longer[|turns|].mint0, n);
      forall k | 0 <= k < |turns| ensures HonestRefusals(turns[k].log, turns[k].mint0, n) {
        assert longer[k] == turns[k];
      }
    }
    if heard + told <= {n} {
      assert forall x :: x in heard || x in told ==> x in heard + told;
    }
  }

  /** So a run whose every turn fetches into one window is no longer than the window has holes. */
  lemma {:induction false} FillRunIsFinite(turns: seq<Turned>, before: set<nat>, after: set<nat>, lo: nat, bound: nat)
    requires Shrunk(before, after, turns)
    requires forall k :: 0 <= k < |turns| ==> turns[k].Landed(lo, bound)
    ensures |turns| + Holes(after, lo, bound) <= Holes(before, lo, bound)
  {
    hide Holes;
    AllLand(turns, lo, bound);
  }

  lemma {:induction false} AllLand(turns: seq<Turned>, lo: nat, bound: nat)
    requires forall k :: 0 <= k < |turns| ==> turns[k].Landed(lo, bound)
    ensures Landings(turns, lo, bound) == |turns|
  {
    if turns != [] {
      AllLand(turns[..|turns| - 1], lo, bound);
    }
  }

  // ---- the same as steps of the transition system ---------------------------------------

  /** A cycle's end-of-stream, applied, is the system's own step: it is enabled where the loop takes it, it
      sets the same ceiling, and honest refusals make it an honest step. */
  lemma EofIsHonest(s: Seam.Session, now: State, out: Outcome, log: seq<Request>, a: Action, mint0: nat, mint1: nat,
                    demand: int)
    requires a.Fetch? && s.pump == Seam.Fetching(a.offset, a.len, a.through)
    requires s.holder == Seam.Free && s.total == now.total && s.sh == now.sh
    requires out.Eof? && CycleVerdict(out, log, now, a.offset, a.through, mint0)
    requires LogFor(log, a.offset, a.len, mint0, mint1)
    ensures var act := Seam.PumpEof(mint0 < Last(log).mint);
            && Seam.Enabled(s, act)
            && Seam.Do(s, act, demand).sh == now.sh.MarkEof(out.at)
            && (HonestRefusals(log, mint0, |s.res|) ==> SeamTruth.Honest(s, act))
  {
    var last := |log| - 1;
    assert log[last].For(a.offset, a.len, log[last].mint);
  }

  /** So is a refusal that names a total: two steps of the system, both honest when the total is the true
      one. */
  lemma RefusalIsHonest(s: Seam.Session, total: U64, demand: int)
    requires s.holder == Seam.Free && Wire.CheckTotal(s.total, total).Ok?
    ensures Seam.Enabled(s, Seam.SetTotal(total))
    ensures var told := Seam.Do(s, Seam.SetTotal(total), demand);
            && Seam.Enabled(told, Seam.MarkEof(total))
            && Seam.Do(told, Seam.MarkEof(total), demand).sh == s.sh.MarkEof(total)
            && Seam.Do(told, Seam.MarkEof(total), demand).total == Some(total)
            && (Named(Some(total)) <= {|s.res|} ==>
                  SeamTruth.Honest(s, Seam.SetTotal(total)) && SeamTruth.Honest(told, Seam.MarkEof(total)))
  {
    assert total in Named(Some(total));
  }
}
