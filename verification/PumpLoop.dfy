/** The pump's loop body: decide, fetch, apply; and the wait around an in-flight request. */
module PumpLoop {
  import opened Prelude
  import opened Extents
  import opened SessionState
  import opened SessionObjects
  import opened Pump
  import opened FetchCycle
  import opened FetchPolicy
  import opened FetchPass
  import Store = SparseStore

  /** What a decision means for the state it was taken on, and what deciding leaves alone. */
  ghost predicate Decided(sh0: Shared, sh1: Shared, cover: set<nat>, total: Option<nat>, a: Action) {
    && (a.Fetch? ==> a.offset !in cover && !sh0.PastEof(a.offset) && a.len >= 1)
    && (a.Stop? ==> !sh0.life.Live() || Whole(cover, total))
    && (a.Fetch? || a.Park? ==> sh0.life.Live())
    && sh1 == sh0.(fetchThrough := sh1.fetchThrough, demandPublished := sh1.demandPublished)
    && sh1.fetchThrough.Keys <= sh0.fetchThrough.Keys
  }

  lemma DecisionMeans(sh0: Shared, cover: set<nat>, total: Option<nat>, hint: Option<nat>, cfg: Config, demand: int)
    requires cfg.Valid()
    ensures var (kept, first) := DecideFirst(sh0, cover, total, cfg);
            var a := Decision(sh0, cover, total, hint, cfg, demand);
            Decided(sh0, kept, cover, total, a) && (Fits(sh0) ==> Sized(a))
  {
    hide DecideFirst, DecideRest, Whole, Least, Gap, Window;
    var (kept, first) := DecideFirst(sh0, cover, total, cfg);
    FirstMeans(sh0, cover, total, cfg);
    if first.None? {
      RestMeans(kept, cover, total, hint, cfg, demand);
    }
  }

  lemma FirstMeans(sh0: Shared, cover: set<nat>, total: Option<nat>, cfg: Config)
    requires cfg.Valid()
    ensures var (kept, first) := DecideFirst(sh0, cover, total, cfg);
            && (first.Some? ==> Decided(sh0, kept, cover, total, first.value) && (Fits(sh0) ==> Sized(first.value)))
            && (first.None? ==> sh0.life.Live() && Decided(sh0, kept, cover, total, Park(false)))
            && kept.eofBelow == sh0.eofBelow
  {
    hide Whole, Least, Gap;
  }

  lemma RestMeans(sh: Shared, cover: set<nat>, total: Option<nat>, hint: Option<nat>, cfg: Config, demand: int)
    requires cfg.Valid()
    ensures var a := DecideRest(sh, cover, total, hint, cfg, demand);
            && !a.Stop? && Sized(a)
            && (a.Fetch? ==> a.offset !in cover && !sh.PastEof(a.offset) && a.len >= 1)
  {
    hide Whole, Least, Gap;
    DecisionsAreUseful(sh, cover, total, hint, cfg, demand);
  }

  /** The offsets and lengths of a fetch fit the wire's 64 bits. */
  predicate Sized(a: Action) {
    a.Fetch? ==> a.offset <= U64_MAX && a.len <= U64_MAX
  }

  method Decide(s: SessionInner, ghost res: seq<Byte>) returns (a: Action)
    requires s.Valid() && s.cfg.Valid() && Fits(s.sh)
    modifies s`sh, s`headReady, s.pool
    ensures s.Valid() && s.store.Content() == old(s.store.Content())
    ensures a == Decision(old(s.sh), s.store.Content().Keys, s.store.total, s.store.hintTotal, s.cfg, s.pool.demand)
    ensures Decided(old(s.sh), s.sh, s.store.Content().Keys, s.store.total, a) && Sized(a)
  {
    hide Store.SparseStore.Valid, Store.SparseStore.Content, DecideFirst, DecideRest, Decided, Sized;
    a := s.NextAction();
    DecisionMeans(old(s.sh), s.store.Content().Keys, s.store.total, s.store.hintTotal, s.cfg, s.pool.demand);
  }

  /** Apply a cycle's outcome to the session; only a failure ends the pump. */
  method Apply(s: SessionInner, out: Outcome) returns (again: bool)
    requires s.Valid()
    modifies s`sh, s`readerNotes, s`permit, s`teardown, s.pool
    ensures s.Valid() && s.store.Content() == old(s.store.Content())
    ensures again <==> !out.Failed?
    ensures out.Failed? ==> s.sh == old(s.sh).Terminate(out.error)
    ensures out.Eof? ==> s.sh == old(s.sh).MarkEof(out.at)
    ensures out.Stalled? ==>
              s.sh == if old(s.sh.life.Live()) then old(s.sh).(transientError := Some(out.error)) else old(s.sh)
    ensures out.Bytes? || out.Preempted? ==> s.sh == old(s.sh)
  {
    hide Store.SparseStore.Valid, Store.SparseStore.Content;
    again := !out.Failed?;
    match out
    case Bytes =>
    case Eof(at) => s.MarkEofBelow(at);
    case Preempted =>
    case Stalled(e) => s.StallTransient(e);
    case Failed(e) =>
      var ran := s.TerminateIf(e, true);
  }

  /** What one turn of the loop runs under: what others do while the pump rests, the passes of its
      cycle, and what others do between the cycle's verdict and its effect. */
  datatype Env = Env(idle: seq<Deed>, script: nat -> Turn, late: seq<Deed>)

  ghost predicate EnvTrue(env: Env, res: seq<Byte>) {
    DeedsTrue(env.idle, res) && ScriptTrue(env.script, res) && DeedsTrue(env.late, res)
  }

  /** The ceiling an outcome sets. */
  function Concluded(out: Option<Outcome>): set<nat> {
    if out.Some? && out.value.Eof? then {out.value.at} else {}
  }

  /** One turn of the pump's loop; `decided` is the session as the decision found it. */
  method PumpPass(s: SessionInner, env: Env, ghost res: seq<Byte>)
    returns (again: bool, a: Action, out: Option<Outcome>, log: seq<Request>, heard: set<nat>,
             ghost trace: seq<Tried>, ghost decided: State, ghost hint: Option<nat>, ghost demand: int)
    requires s.Valid() && s.cfg.Valid() && Fits(s.sh)
    modifies s`sh, s`core, s`readerNotes, s`headReady, s`permit, s`teardown, s.store, s.pool
    ensures s.Valid() && Fits(s.sh)
    ensures Onward(old(Now(s, res)), decided, EnvTrue(env, res)) && Onward(decided, Now(s, res), EnvTrue(env, res))
    ensures a == Decision(decided.sh, decided.cover, decided.total, hint, s.cfg, demand)
    ensures Sized(a)
    ensures a.Fetch? ==> a.offset !in decided.cover && !decided.sh.PastEof(a.offset) && a.len >= 1
    ensures a.Stop? ==> !decided.sh.life.Live() || Whole(decided.cover, decided.total)
    ensures again <==> a.Park? || (a.Fetch? && out.Some? && !out.value.Failed?)
    ensures a.Fetch? ==> out.Some? && Applied(out.value, a, Now(s, res))
    ensures !a.Fetch? ==> out.None? && log == []
    ensures a.Fetch? ==> CycleVerdict(out.value, log, Now(s, res), a.offset, a.through, old(s.core.mintsUsed))
    ensures a.Fetch? ==> LogFor(log, a.offset, a.len, old(s.core.mintsUsed), s.core.mintsUsed)
    ensures Learned(old(Now(s, res)), Now(s, res), heard + Concluded(out))
    ensures Sound(old(Now(s, res)), |res|) && heard <= {|res|} && HonestRefusals(log, old(s.core.mintsUsed), |res|) ==>
              Sound(Now(s, res), |res|)
    ensures Prescribed(a, decided.sh, decided.cover, decided.total, hint, s.cfg, demand)
    ensures a.Fetch? ==> Policed(out.value, log, env.script, trace, s.cfg, a.offset, a.len, a.through)
  {
    hide Store.SparseStore.Valid, Store.SparseStore.Content, Onward, Learned, Sound, CycleVerdict, LogFor, TrueTo,
      ScriptTrue, DeedsTrue, Names, Applied, Whole, Decision, HonestRefusals, Policed, Passes, Seen, TriedVerdict,
      Prescribed;
    ghost var first, mint0, bytesTrue := Now(s, res), s.core.mintsUsed, EnvTrue(env, res);
    LetOthersRun(s, env.idle, res);
    decided, hint := Now(s, res), s.store.hintTotal;
    OnwardWeaken(first, decided, DeedsTrue(env.idle, res), bytesTrue);
    FitsOnward(first, decided, bytesTrue);
    heard := Names(env.idle);
    a := Decide(s, res);
    demand := s.pool.demand;
    DecisionIsPrescribed(decided.sh, decided.cover, decided.total, hint, s.cfg, demand);
    trace := [];
    DecidingIsOnward(decided, Now(s, res), a, bytesTrue);
    LearnedJoin(first, decided, Now(s, res), heard, {});
    LearnedWeaken(first, Now(s, res), heard + {}, heard);
    again, out, log := a.Park?, None, [];
    if a.Fetch? {
      ghost var asked := Now(s, res);
      var o, l, mints, told;
      o, l, mints, told, trace := FetchChunk(s, env.script, a.offset, a.len, a.through, res);
      ghost var fetched := Now(s, res);
      OnwardWeaken(asked, fetched, ScriptTrue(env.script, res), bytesTrue);
      OnwardJoin(decided, asked, fetched, bytesTrue);
      LetOthersRun(s, env.late, res);
      ghost var lately := Now(s, res);
      OnwardWeaken(fetched, lately, DeedsTrue(env.late, res), bytesTrue);
      OnwardJoin(decided, fetched, lately, bytesTrue);
      VerdictLasts(fetched, lately, o, l, a, mint0, bytesTrue);
      LearnedJoin(first, asked, fetched, heard, told);
      LearnedJoin(first, fetched, lately, heard + told, Names(env.late));
      heard := heard + told + Names(env.late);
      again := Apply(s, o);
      ApplyingIsOnward(lately, Now(s, res), o, l, a, mint0, bytesTrue);
      OnwardJoin(decided, lately, Now(s, res), bytesTrue);
      out, log := Some(o), l;
      LearnedJoin(first, lately, Now(s, res), heard, Concluded(out));
      PassIsSound(first, lately, Now(s, res), o, l, a, mint0, s.core.mintsUsed, heard, |res|);
    } else {
      IdleIsSound(first, Now(s, res), heard, |res|);
    }
    FitsOnward(decided, Now(s, res), bytesTrue);
  }

  lemma FitsOnward(a: State, b: State, bytesTrue: bool)
    requires Onward(a, b, bytesTrue)
    ensures Fits(a.sh) ==> Fits(b.sh)
  {
  }

  /** What the state says of a verdict, later states say too. */
  lemma VerdictLasts(x: State, y: State, out: Outcome, log: seq<Request>, a: Action, mint0: nat, bytesTrue: bool)
    requires a.Fetch? && CycleVerdict(out, log, x, a.offset, a.through, mint0) && Onward(x, y, bytesTrue)
    ensures CycleVerdict(out, log, y, a.offset, a.through, mint0)
  {
  }

  /** The ceiling a turn sets is sound when its refusals and the totals named meanwhile are honest. */
  lemma PassIsSound(first: State, x: State, y: State, out: Outcome, log: seq<Request>, a: Action, mint0: nat,
                    mint1: nat, heard: set<nat>, n: nat)
    requires a.Fetch? && CycleVerdict(out, log, x, a.offset, a.through, mint0)
    requires LogFor(log, a.offset, a.len, mint0, mint1) && Learned(first, x, heard)
    requires y.total == x.total
    requires y.sh.eofBelow == if out.Eof? then x.sh.MarkEof(out.at).eofBelow else x.sh.eofBelow
    ensures Sound(first, n) && heard <= {n} && HonestRefusals(log, mint0, n) ==> Sound(y, n)
  {
    hide CycleVerdict, LogFor, Learned, HonestRefusals;
    EofIsSound(out, log, first, x, a.offset, a.len, a.through, mint0, mint1, heard, n);
  }

  lemma IdleIsSound(first: State, y: State, heard: set<nat>, n: nat)
    requires Learned(first, y, heard)
    ensures Learned(first, y, heard + {})
    ensures Sound(first, n) && heard <= {n} ==> Sound(y, n)
  {
    SoundKept(first, y, heard, n);
  }

  /** What the session looks like once an outcome is applied. */
  ghost predicate Applied(out: Outcome, a: Action, now: State)
    requires a.Fetch?
  {
    match out
    case Bytes => a.offset in now.cover
    case Eof(at) => at == a.offset && now.sh.PastEof(at)
    case Preempted => !a.through
    case Stalled(e) => Stallable(e) && (now.sh.life.Live() ==> now.sh.transientError == Some(e))
    case Failed(e) => !now.sh.life.Live()
  }

  lemma DecidingIsOnward(first: State, now: State, a: Action, bytesTrue: bool)
    requires Decided(first.sh, now.sh, first.cover, first.total, a)
    requires now.cover == first.cover && now.trusty == first.trusty && now.total == first.total
    ensures Onward(first, now, bytesTrue) && Learned(first, now, {})
  {
  }

  lemma ApplyingIsOnward(x: State, y: State, out: Outcome, log: seq<Request>, a: Action, mint0: nat, bytesTrue: bool)
    requires a.Fetch? && CycleVerdict(out, log, x, a.offset, a.through, mint0)
    requires y.cover == x.cover && y.trusty == x.trusty && y.total == x.total
    requires out.Failed? ==> y.sh == x.sh.Terminate(out.error)
    requires out.Eof? ==> y.sh == x.sh.MarkEof(out.at)
    requires out.Stalled? ==> y.sh == if x.sh.life.Live() then x.sh.(transientError := Some(out.error)) else x.sh
    requires out.Bytes? || out.Preempted? ==> y.sh == x.sh
    ensures Onward(x, y, bytesTrue) && Applied(out, a, y)
    ensures Learned(x, y, Concluded(Some(out)))
    ensures y.sh.eofBelow == if out.Eof? then x.sh.MarkEof(out.at).eofBelow else x.sh.eofBelow
    ensures CycleVerdict(out, log, y, a.offset, a.through, mint0)
  {
  }

  // ---- waiting for a request in flight --------------------------------------------------

  /** Where parked demand sits relative to the in-flight range. */
  datatype DemandCover = Outside | Riding | NoDemand

  function CoverOf(queue: set<nat>, offset: U64, len: U64): DemandCover {
    if queue == {} then NoDemand
    else if forall p :: p in queue ==> offset <= p < SatAdd(offset, len) then Riding
    else Outside
  }

  /** Every queued position lies in the in-flight range. */
  predicate Inside(queue: set<nat>, offset: U64, len: U64) {
    forall p :: p in queue ==> offset <= p < Min(offset + len, U64_MAX)
  }

  lemma CoverIs(queue: set<nat>, offset: U64, len: U64)
    ensures CoverOf(queue, offset, len) == NoDemand <==> queue == {}
    ensures CoverOf(queue, offset, len) == Riding <==> queue != {} && Inside(queue, offset, len)
    ensures CoverOf(queue, offset, len) == Outside <==> !Inside(queue, offset, len)
  {
  }

  datatype Winner =
    | Finished
    | Cancelled
    | Notified
    | Timer(queue: set<nat>, at: nat)

  /** One pass of the wait: the demand seen by the check, when, and what woke it. */
  datatype Wake = Wake(queue: set<nat>, now: nat, winner: Winner)

  datatype Wait = Done | Jumped | Stopped

  /** Since which check in-range demand has been riding, after `k` passes: since the last check
      that saw none, or timer that found it gone. */
  ghost function RidingSince(wakes: seq<Wake>, k: nat, stall: nat, offset: U64, len: U64): (since: Option<nat>)
    requires k <= |wakes|
    ensures since.Some? ==> since.value < k
    decreases k, 0
  {
    if k == 0 then None
    else
      var now := Armed(wakes, k - 1, stall, offset, len);
      if Fires(wakes, k - 1, stall, offset, len) then None else now
  }

  /** The same once check `k` has looked at the queue. */
  ghost function Armed(wakes: seq<Wake>, k: nat, stall: nat, offset: U64, len: U64): (since: Option<nat>)
    requires k < |wakes|
    ensures since.Some? ==> since.value <= k
    decreases k, 1
  {
    if CoverOf(wakes[k].queue, offset, len).NoDemand? then None
    else
      var since := RidingSince(wakes, k, stall, offset, len);
      if since.Some? then since else Some(k)
  }

  /** The stall timer armed at that check wakes pass `k`. */
  ghost predicate Fires(wakes: seq<Wake>, k: nat, stall: nat, offset: U64, len: U64)
    requires k < |wakes|
    decreases k, 2
  {
    var since := Armed(wakes, k, stall, offset, len);
    wakes[k].winner.Timer? && since.Some? && wakes[since.value].now + stall <= wakes[k].winner.at
  }

  /** Pass `k` preempts: demand outside the range, or the timer fired with demand still live. */
  ghost predicate Jumps(wakes: seq<Wake>, k: nat, stall: nat, offset: U64, len: U64)
    requires k < |wakes|
  {
    || CoverOf(wakes[k].queue, offset, len).Outside?
    || (Fires(wakes, k, stall, offset, len) && wakes[k].winner.queue != {})
  }

  predicate Ends(w: Winner) {
    w.Finished? || w.Cancelled?
  }

  /** Up to `k` the wait neither jumped nor ended. */
  ghost predicate Waited(wakes: seq<Wake>, k: nat, stall: nat, offset: U64, len: U64, through: bool) {
    && k <= |wakes|
    && (forall i :: 0 <= i < k ==> !Ends(wakes[i].winner))
    && (!through ==> forall i :: 0 <= i < k ==> !Jumps(wakes, i, stall, offset, len))
  }

  /** `await_fetch` as its select loop sees it; past the last wake the request finishes. It ends
      at the first pass that jumps, finishes or is cancelled; a demand leg never jumps. */
  method AwaitFetch(wakes: seq<Wake>, stall: nat, offset: U64, len: U64, through: bool) returns (w: Wait, k: nat)
    ensures Waited(wakes, k, stall, offset, len, through)
    ensures k == |wakes| ==> w.Done?
    ensures k < |wakes| ==>
              w == if !through && Jumps(wakes, k, stall, offset, len) then Jumped
                   else if wakes[k].winner.Finished? then Done else Stopped
    ensures k < |wakes| && !w.Jumped? ==> Ends(wakes[k].winner)
    ensures !through ==> forall i :: 0 <= i < k ==> Inside(wakes[i].queue, offset, len)
    ensures !through && k < |wakes| && !Inside(wakes[k].queue, offset, len) ==> w.Jumped?
    ensures w.Jumped? ==> !through && k < |wakes| && (Inside(wakes[k].queue, offset, len) ==> wakes[k].winner.Timer?)
  {
    var deadline: Option<nat> := None;
    k := 0;
    while k < |wakes|
      invariant Waited(wakes, k, stall, offset, len, through)
      invariant !through ==> deadline == DeadlineOf(wakes, RidingSince(wakes, k, stall, offset, len), stall)
      invariant through ==> deadline.None?
      invariant !through ==> forall i :: 0 <= i < k ==> Inside(wakes[i].queue, offset, len)
    {
      var wake := wakes[k];
      CoverIs(wake.queue, offset, len);
      if !through {
        var cover := CoverOf(wake.queue, offset, len);
        if cover.Outside? {
          return Jumped, k;
        }
        if cover.NoDemand? {
          deadline := None;
        } else if deadline.None? {
          deadline := Some(wake.now + stall);
        }
        assert deadline == DeadlineOf(wakes, Armed(wakes, k, stall, offset, len), stall);
      }
      if wake.winner.Finished? {
        return Done, k;
      }
      if wake.winner.Cancelled? {
        return Stopped, k;
      }
      if wake.winner.Timer? && deadline.Some? && wake.winner.at >= deadline.value {
        if CoverOf(wake.winner.queue, offset, len).NoDemand? {
          deadline := None;
        } else {
          return Jumped, k;
        }
      }
      k := k + 1;
    }
    w := Done;
  }

  ghost function DeadlineOf(wakes: seq<Wake>, since: Option<nat>, stall: nat): Option<nat> {
    if since.Some? && since.value < |wakes| then Some(wakes[since.value].now + stall) else None
  }

  /** Every check since the one that armed the timer saw in-range demand. */
  lemma {:induction false} RidingIsUnbroken(wakes: seq<Wake>, k: nat, stall: nat, offset: U64, len: U64)
    requires k < |wakes| && Waited(wakes, k, stall, offset, len, false) && Armed(wakes, k, stall, offset, len).Some?
    ensures var j := Armed(wakes, k, stall, offset, len).value;
            j <= k && forall i :: j <= i < k ==> CoverOf(wakes[i].queue, offset, len).Riding?
    decreases k
  {
    var j := Armed(wakes, k, stall, offset, len).value;
    if j != k {
      assert RidingSince(wakes, k, stall, offset, len) == Some(j) && k > 0;
      RidingIsUnbroken(wakes, k - 1, stall, offset, len);
      assert !Jumps(wakes, k - 1, stall, offset, len);
    }
  }

  /** So a fill is preempted by demand its range would serve only after every check of a whole
      stall budget saw such demand, and only while some is still live. */
  lemma HungOnly(wakes: seq<Wake>, k: nat, stall: nat, offset: U64, len: U64)
    requires k < |wakes| && Waited(wakes, k, stall, offset, len, false) && Jumps(wakes, k, stall, offset, len)
    requires Inside(wakes[k].queue, offset, len)
    ensures wakes[k].winner.Timer? && wakes[k].winner.queue != {}
    ensures exists j: nat :: j <= k && wakes[j].now + stall <= wakes[k].winner.at
              && forall i :: j <= i <= k ==> wakes[i].queue != {} && Inside(wakes[i].queue, offset, len)
  {
    forall i | 0 <= i < |wakes| { CoverIs(wakes[i].queue, offset, len); }
    RidingIsUnbroken(wakes, k, stall, offset, len);
    var j := Armed(wakes, k, stall, offset, len).value;
    assert forall i :: j <= i <= k ==> CoverOf(wakes[i].queue, offset, len).Riding?;
  }

  /** And one that rides that long is let go: once every check since some earlier one saw such demand, a
      timer that comes due with some still live preempts. */
  lemma HungIsPreempted(wakes: seq<Wake>, j: nat, k: nat, stall: nat, offset: U64, len: U64)
    requires j <= k < |wakes| && wakes[k].winner.Timer? && wakes[k].winner.queue != {}
    requires forall i :: j <= i <= k ==> wakes[i].queue != {}
    requires forall i :: j <= i < k ==> !wakes[i].winner.Timer?
    requires forall i :: 0 <= i <= j ==> wakes[i].now <= wakes[j].now
    requires wakes[j].now + stall <= wakes[k].winner.at
    ensures Jumps(wakes, k, stall, offset, len)
  {
    StaysArmed(wakes, j, k, stall, offset, len);
  }

  lemma {:induction false} StaysArmed(wakes: seq<Wake>, j: nat, k: nat, stall: nat, offset: U64, len: U64)
    requires j <= k < |wakes|
    requires forall i :: j <= i <= k ==> wakes[i].queue != {}
    requires forall i :: j <= i < k ==> !wakes[i].winner.Timer?
    ensures Armed(wakes, k, stall, offset, len).Some? && Armed(wakes, k, stall, offset, len).value <= j
    decreases k
  {
    if j < k {
      StaysArmed(wakes, j, k - 1, stall, offset, len);
      assert RidingSince(wakes, k, stall, offset, len) == Armed(wakes, k - 1, stall, offset, len);
    }
  }
}
