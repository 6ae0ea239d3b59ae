/** The cycle around one range request: retries, re-mints and the end-of-stream verdict, for every
    server and every act of the other legs. */
module FetchCycle {
  import opened Prelude
  import opened Extents
  import opened SessionState
  import opened SessionObjects
  import opened Pump
  import opened FetchPass
  import opened FetchPolicy
  import Store = SparseStore
  import Wire

  // ---- the cycle ----------------------------------------------------------------------------

  /** What a whole cycle's outcome means, in terms of the requests it sent. */
  ghost predicate CycleVerdict(out: Outcome, log: seq<Request>, now: State, offset: nat, through: bool, mint0: nat) {
    match out
    case Bytes => offset in now.cover && log != [] && Last(log).status == Some(206)
    case Eof(at) => at == offset && log != [] && Last(log).status == Some(416)
                    && (mint0 < Last(log).mint || (now.total.Some? && now.total.value <= offset))
    case Preempted => !through
    case Stalled(e) => Stallable(e) && log != []
    case Failed(e) => now.sh.life.Live() ==> !Stallable(e)
  }

  function Last(log: seq<Request>): Request
    requires log != []
  {
    log[|log| - 1]
  }

  /** Every request is for the range the cycle was asked for, under this session's mints. */
  ghost predicate LogFor(log: seq<Request>, offset: nat, len: nat, low: nat, high: nat) {
    forall i :: 0 <= i < |log| ==> low <= log[i].mint <= high && log[i].For(offset, len, log[i].mint)
  }

  /** Some request was refused `416` under an older mint. */
  ghost predicate RefusedBefore(log: seq<Request>, mint: nat) {
    exists i :: 0 <= i < |log| && log[i].status == Some(416) && log[i].mint < mint
  }

  /** Requests still affordable: the attempts left under this mint and under every mint to come. */
  function Affordable(retries: nat, remaining: nat, left: nat): nat {
    left + 1 + remaining * (retries + 1)
  }

  /** Pass by pass, each starts from what the one before it left, and only the last may end. */
  ghost predicate Passes(trace: seq<Tried>, cfg: Config, core0: PumpCore, script: nat -> Turn, offset: U64, len: U64,
                         through: bool)
  {
    && (trace != [] ==> trace[0].core == core0 && trace[0].left == cfg.fetchRetries && !trace[0].retried)
    && (forall k :: 1 <= k < |trace| ==>
          Leads(TriedVerdict(cfg, trace[k - 1], script(k - 1), offset, len, through), trace[k]))
  }

  /** Where the passes so far have left the cycle. */
  ghost predicate LeftAt(trace: seq<Tried>, cfg: Config, core0: PumpCore, script: nat -> Turn, offset: U64, len: U64,
                         through: bool, out: Option<Outcome>, core: PumpCore, left: nat, retried: bool)
  {
    if trace == [] then out.None? && core == core0 && left == cfg.fetchRetries && !retried
    else
      var k := |trace| - 1;
      var p := TriedVerdict(cfg, trace[k], script(k), offset, len, through);
      p.out == out && p.core == core && p.left == left && p.retried == retried
  }

  lemma TraceGrows(trace: seq<Tried>, cfg: Config, core0: PumpCore, script: nat -> Turn, offset: U64, len: U64,
                   through: bool, core: PumpCore, left: nat, retried: bool, looks: Looks, p: Pass)
    requires Passes(trace, cfg, core0, script, offset, len, through)
    requires LeftAt(trace, cfg, core0, script, offset, len, through, None, core, left, retried)
    requires p == AttemptVerdict(cfg, core, looks, script(|trace|), offset, len, through, left, retried)
    ensures var longer := trace + [Tried(core, looks, left, retried)];
            && Passes(longer, cfg, core0, script, offset, len, through)
            && LeftAt(longer, cfg, core0, script, offset, len, through, p.out, p.core, p.left, p.retried)
  {
    hide AttemptVerdict;
    var longer := trace + [Tried(core, looks, left, retried)];
    forall k | 1 <= k < |longer|
      ensures Leads(TriedVerdict(cfg, longer[k - 1], script(k - 1), offset, len, through), longer[k])
    {
      assert longer[k - 1] == trace[k - 1];
      if k < |trace| {
        assert longer[k] == trace[k];
      }
    }
  }

  /** Where a pass starts from: where the one before it found its answer. */
  function Before(first: State, trace: seq<Tried>, k: nat): State
    requires k <= |trace|
  {
    if k == 0 then first else trace[k - 1].looks.answered
  }

  /** Every look of every pass was taken on the way from `first` to `last`, in order. */
  ghost predicate Seen(first: State, trace: seq<Tried>, last: State, bytesTrue: bool) {
    && (forall k :: 0 <= k < |trace| ==>
          OnTheWay(Before(first, trace, k), trace[k].looks, last, bytesTrue))
    && Onward(first, last, bytesTrue)
  }

  /** Every pass but one that ended before its request sent one, under the mint it started from. */
  ghost predicate Sends(log: seq<Request>, trace: seq<Tried>, script: nat -> Turn) {
    && |log| <= |trace| <= |log| + 1
    && (forall k :: 0 <= k < |log| ==>
          log[k].mint == trace[k].core.mintsUsed && log[k].status == StatusIn(script(k).reply))
  }

  /** One of the first `k` requests was refused `416`. */
  ghost predicate RefusedEarlier(log: seq<Request>, k: nat) {
    exists i :: 0 <= i < k && i < |log| && log[i].status == Some(416)
  }

  /** What came of pass `k`. */
  function After(trace: seq<Tried>, out: Outcome, k: nat): Next
    requires k < |trace|
  {
    if k + 1 < |trace| then GoesOn(trace[k + 1]) else Ends(out)
  }

  /** The cycle starts with every retry, each request is answered by what the policy prescribes, and the
      last answer is the outcome. */
  ghost predicate Policed(out: Outcome, log: seq<Request>, script: nat -> Turn, trace: seq<Tried>, cfg: Config,
                          offset: U64, len: U64, through: bool)
  {
    && trace != [] && trace[0].left == cfg.fetchRetries && Sends(log, trace, script)
    && (forall k :: 0 <= k < |trace| ==>
          PassDecides(cfg, trace[k], script(k), offset, len, through, RefusedEarlier(log, k), After(trace, out, k)))
  }

  lemma {:induction false} RetriedOnRefusal(log: seq<Request>, script: nat -> Turn, trace: seq<Tried>, cfg: Config,
                                            core0: PumpCore, offset: U64, len: U64, through: bool, k: nat)
    requires Passes(trace, cfg, core0, script, offset, len, through) && Sends(log, trace, script) && k < |trace|
    ensures trace[k].retried <==> RefusedEarlier(log, k)
  {
    hide TriedVerdict;
    if k > 0 {
      RetriedOnRefusal(log, script, trace, cfg, core0, offset, len, through, k - 1);
      RetriedIs(cfg, trace[k - 1], script(k - 1), offset, len, through);
      assert Leads(TriedVerdict(cfg, trace[k - 1], script(k - 1), offset, len, through), trace[k]);
      assert log[k - 1].status == StatusIn(script(k - 1).reply);
    }
  }

  lemma CycleIsPoliced(out: Outcome, log: seq<Request>, script: nat -> Turn, trace: seq<Tried>, cfg: Config,
                       core0: PumpCore, offset: U64, len: U64, through: bool)
    requires Passes(trace, cfg, core0, script, offset, len, through) && Sends(log, trace, script) && trace != []
    requires TriedVerdict(cfg, trace[|trace| - 1], script(|trace| - 1), offset, len, through).out == Some(out)
    ensures Policed(out, log, script, trace, cfg, offset, len, through)
  {
    hide TriedVerdict, PassDecides, RefusedEarlier, Sends;
    forall k | 0 <= k < |trace|
      ensures PassDecides(cfg, trace[k], script(k), offset, len, through, RefusedEarlier(log, k), After(trace, out, k))
    {
      if k + 1 < |trace| {
        assert Leads(TriedVerdict(cfg, trace[k + 1 - 1], script(k + 1 - 1), offset, len, through), trace[k + 1]);
      }
      PassPolicy(cfg, trace[k], script(k), offset, len, through, After(trace, out, k));
      RetriedOnRefusal(log, script, trace, cfg, core0, offset, len, through, k);
    }
  }

  /** The cycle, from the first attempt to its verdict. */
  method FetchChunk(s: SessionInner, script: nat -> Turn, offset: U64, len: U64, through: bool, ghost res: seq<Byte>)
    returns (out: Outcome, log: seq<Request>, mints: nat, heard: set<nat>, ghost trace: seq<Tried>)
    requires s.Valid()
    modifies s`sh, s`core, s`readerNotes, s`headReady, s`permit, s`teardown, s.store, s.pool
    ensures s.Valid()
    ensures Onward(old(Now(s, res)), Now(s, res), ScriptTrue(script, res))
    ensures Learned(old(Now(s, res)), Now(s, res), heard)
    ensures Sound(old(Now(s, res)), |res|) && heard <= {|res|} ==>
              && Sound(Now(s, res), |res|)
              && (HonestRefusals(log, old(s.core.mintsUsed), |res|) && out.Eof? ==> |res| <= out.at)
    ensures CycleVerdict(out, log, Now(s, res), offset, through, old(s.core.mintsUsed))
    ensures LogFor(log, offset, len, old(s.core.mintsUsed), s.core.mintsUsed)
    ensures |log| <= (s.cfg.fetchRetries + 1) * (old(s.core).Remaining(s.cfg.mintBudget) + 1)
    ensures mints + s.core.Remaining(s.cfg.mintBudget) <= old(s.core).Remaining(s.cfg.mintBudget)
    ensures Policed(out, log, script, trace, s.cfg, offset, len, through)
    ensures Passes(trace, s.cfg, old(s.core), script, offset, len, through) && trace != []
    ensures TriedVerdict(s.cfg, trace[|trace| - 1], script(|trace| - 1), offset, len, through).out == Some(out)
    ensures Seen(old(Now(s, res)), trace, Now(s, res), ScriptTrue(script, res))
  {
    hide Onward, Now, Learned, Sound, ScriptTrue, TurnTrue, LogFor, Sends, Policed, TriedVerdict, RefusedBefore,
      Affordable, CycleVerdict, Verdict, AttemptVerdict, Passes, Seen, OnTheWay, TurnNames, Told, HonestRefusals,
      DepartVerdict, Store.SparseStore.Valid, PumpCore.Remaining;
    ghost var first, core0 := Now(s, res), s.core;
    ghost var budget, retries := s.cfg.mintBudget, s.cfg.fetchRetries;
    var left, retried := s.cfg.fetchRetries, false;
    var verdict: Option<Outcome> := None;
    var k: nat := 0;
    log, mints, heard, trace := [], 0, {}, [];
    TraceStarts(s.cfg, s.core, script, offset, len, through);
    CycleStarts(first, ScriptTrue(script, res), offset, len, s.core.mintsUsed);
    while verdict.None?
      invariant s.Valid() && core0.mintsUsed <= s.core.mintsUsed
      invariant Seen(first, trace, Now(s, res), ScriptTrue(script, res)) && Learned(first, Now(s, res), heard)
      invariant LogFor(log, offset, len, core0.mintsUsed, s.core.mintsUsed)
      invariant mints + s.core.Remaining(budget) <= core0.Remaining(budget)
      invariant |log| + (if verdict.None? then Affordable(retries, s.core.Remaining(budget), left) else 0)
                <= Affordable(retries, core0.Remaining(budget), retries)
      invariant |trace| == k && Sends(log, trace, script) && (verdict.None? ==> |log| == k)
      invariant Passes(trace, s.cfg, core0, script, offset, len, through)
      invariant LeftAt(trace, s.cfg, core0, script, offset, len, through, verdict, s.core, left, retried)
      invariant verdict.None? && retried ==> RefusedBefore(log, s.core.mintsUsed)
      invariant verdict.Some? ==> CycleVerdict(verdict.value, log, Now(s, res), offset, through, core0.mintsUsed)
      decreases verdict.None?, s.core.Remaining(budget), left
    {
      ghost var before, core1, log1, heard1 := Now(s, res), s.core, log, heard;
      var p, sent, told;
      ghost var looks;
      p, sent, told, looks := Attempt(s, script(k), offset, len, through, left, retried, res);
      if sent.Some? {
        log := log + [sent.value];
      }
      heard := heard + told;
      OneTurnTrue(script, k, res);
      SeenGrows(first, trace, before, Now(s, res), TurnTrue(script(k), res), ScriptTrue(script, res),
                Tried(core1, looks, left, retried));
      LearnedJoin(first, before, Now(s, res), heard1, told);
      LogGrows(log1, sent, offset, len, core0.mintsUsed, core1.mintsUsed, s.core.mintsUsed);
      Spend(s.cfg, core1, s.core, left, p, sent);
      if p.out.Some? {
        VerdictOfCycle(Now(s, res), p, log1, sent, offset, len, through, retried, core0.mintsUsed, core1.mintsUsed);
      } else {
        RefusalKept(log1, sent, p, retried, core1.mintsUsed, s.core.mintsUsed);
      }
      TraceGrows(trace, s.cfg, core0, script, offset, len, through, core1, left, retried, looks, p);
      SendsGrow(log1, sent, trace, script, Tried(core1, looks, left, retried));
      trace := trace + [Tried(core1, looks, left, retried)];
      mints := mints + if p.minted then 1 else 0;
      verdict, left, retried, k := p.out, p.left, p.retried, k + 1;
    }
    out := verdict.value;
    AffordableIs(retries, core0.Remaining(budget));
    SeenIsOnward(first, trace, Now(s, res), ScriptTrue(script, res));
    CycleIsPoliced(out, log, script, trace, s.cfg, core0, offset, len, through);
    EofIsSound(out, log, first, Now(s, res), offset, len, through, core0.mintsUsed, s.core.mintsUsed, heard, |res|);
  }

  lemma SendsGrow(log: seq<Request>, sent: Option<Request>, trace: seq<Tried>, script: nat -> Turn, next: Tried)
    requires Sends(log, trace, script) && |log| == |trace|
    requires sent.Some? ==>
               sent.value.mint == next.core.mintsUsed && sent.value.status == StatusIn(script(|trace|).reply)
    ensures Sends(if sent.Some? then log + [sent.value] else log, trace + [next], script)
  {
  }

  lemma SeenIsOnward(first: State, trace: seq<Tried>, last: State, bytesTrue: bool)
    requires Seen(first, trace, last, bytesTrue)
    ensures Onward(first, last, bytesTrue)
  {
  }

  lemma SeenGrows(first: State, trace: seq<Tried>, before: State, last: State, turnTrue: bool, bytesTrue: bool,
                  next: Tried)
    requires Seen(first, trace, before, bytesTrue) && (bytesTrue ==> turnTrue)
    requires OnTheWay(before, next.looks, last, turnTrue) && Onward(before, last, turnTrue)
    ensures Seen(first, trace + [next], last, bytesTrue)
  {
    hide Onward;
    var longer := trace + [next];
    OnwardWeaken(before, last, turnTrue, bytesTrue);
    OnwardJoin(first, before, last, bytesTrue);
    forall k | 0 <= k < |longer|
      ensures OnTheWay(Before(first, longer, k), longer[k].looks, last, bytesTrue)
    {
      if k < |trace| {
        assert OnTheWay(Before(first, trace, k), trace[k].looks, before, bytesTrue);
        OnwardJoin(trace[k].looks.answered, before, last, bytesTrue);
        assert Before(first, longer, k) == Before(first, trace, k);
      } else {
        LooksWeaken(before, next.looks, last, turnTrue, bytesTrue);
        ReachesBefore(first, trace, before, bytesTrue);
        OnwardJoin(Before(first, trace, k), before, next.looks.checked, bytesTrue);
        assert Before(first, longer, k) == Before(first, trace, k);
      }
    }
  }

  lemma ReachesBefore(first: State, trace: seq<Tried>, last: State, bytesTrue: bool)
    requires Seen(first, trace, last, bytesTrue)
    ensures Onward(Before(first, trace, |trace|), last, bytesTrue)
  {
    hide Onward;
    if trace != [] {
      assert OnTheWay(Before(first, trace, |trace| - 1), trace[|trace| - 1].looks, last, bytesTrue);
    }
  }

  lemma LooksWeaken(a: State, looks: Looks, b: State, strong: bool, weak: bool)
    requires OnTheWay(a, looks, b, strong) && (weak ==> strong)
    ensures OnTheWay(a, looks, b, weak)
  {
    hide Onward;
    OnwardWeaken(a, looks.checked, strong, weak);
    OnwardWeaken(looks.checked, looks.cooled, strong, weak);
    OnwardWeaken(looks.cooled, looks.answered, strong, weak);
    OnwardWeaken(looks.answered, b, strong, weak);
  }

  lemma OneTurnTrue(script: nat -> Turn, k: nat, res: seq<Byte>)
    ensures ScriptTrue(script, res) ==> TurnTrue(script(k), res)
  {
  }

  lemma TraceStarts(cfg: Config, core: PumpCore, script: nat -> Turn, offset: U64, len: U64, through: bool)
    ensures Passes([], cfg, core, script, offset, len, through)
    ensures LeftAt([], cfg, core, script, offset, len, through, None, core, cfg.fetchRetries, false)
  {
  }

  lemma CycleStarts(first: State, bytesTrue: bool, offset: nat, len: nat, mint: nat)
    ensures Seen(first, [], first, bytesTrue) && Learned(first, first, {})
    ensures LogFor([], offset, len, mint, mint)
    ensures forall script: nat -> Turn :: Sends([], [], script)
  {
  }

  lemma AffordableIs(retries: nat, remaining: nat)
    ensures Affordable(retries, remaining, retries) == (retries + 1) * (remaining + 1)
  {
  }

  lemma LogGrows(log: seq<Request>, sent: Option<Request>, offset: nat, len: nat, low: nat, mid: nat, high: nat)
    requires LogFor(log, offset, len, low, mid) && low <= mid <= high
    requires sent.Some? ==> sent.value.For(offset, len, mid)
    ensures LogFor(if sent.Some? then log + [sent.value] else log, offset, len, low, high)
  {
  }

  /** A pass that goes around again paid for its request; one that ends sent at most one. */
  lemma Spend(cfg: Config, before: PumpCore, after: PumpCore, left: nat, p: Pass, sent: Option<Request>)
    requires Paid(cfg, before, after, left, p)
    ensures var (r0, r1) := (before.Remaining(cfg.mintBudget), after.Remaining(cfg.mintBudget));
            && (p.out.None? ==> 1 + Affordable(cfg.fetchRetries, r1, p.left) <= Affordable(cfg.fetchRetries, r0, left))
            && 1 <= Affordable(cfg.fetchRetries, r0, left)
            && (p.out.None? ==> r1 < r0 || (r1 == r0 && p.left < left) || (!p.minted && p.left < left))
            && r1 + (if p.minted then 1 else 0) <= r0
  {
    var r0, r1, w := before.Remaining(cfg.mintBudget), after.Remaining(cfg.mintBudget), cfg.fetchRetries + 1;
    if p.minted {
      MulMono(r1 + 1, r0, w);
      assert (r1 + 1) * w == r1 * w + w;
    } else {
      MulMono(r1, r0, w);
    }
  }

  lemma MulMono(a: nat, b: nat, w: nat)
    requires a <= b
    ensures a * w <= b * w
  {
  }

  lemma VerdictOfCycle(now: State, p: Pass, log: seq<Request>, sent: Option<Request>, offset: nat, len: nat,
                       through: bool, retried: bool, mint0: nat, mint: nat)
    requires p.out.Some? && Verdict(now, p, StatusOf(sent), offset, through, retried)
    requires p.out.value.Bytes? || p.out.value.Eof? || p.out.value.Stalled? ==> sent.Some?
    requires sent.Some? ==> sent.value.mint == mint
    requires retried ==> RefusedBefore(log, mint)
    requires LogFor(log, offset, len, mint0, mint)
    ensures CycleVerdict(p.out.value, if sent.Some? then log + [sent.value] else log, now, offset, through, mint0)
  {
  }

  lemma RefusalKept(log: seq<Request>, sent: Option<Request>, p: Pass, retried: bool, mint: nat, mint1: nat)
    requires retried ==> RefusedBefore(log, mint)
    requires p.retried ==> retried || (p.minted && RefusedRequest(sent))
    requires p.minted ==> mint1 == mint + 1
    requires mint <= mint1 && (sent.Some? ==> sent.value.mint == mint)
    ensures p.retried ==> RefusedBefore(if sent.Some? then log + [sent.value] else log, mint1)
  {
    if p.retried && retried {
      var i :| 0 <= i < |log| && log[i].status == Some(416) && log[i].mint < mint;
      assert sent.Some? ==> (log + [sent.value])[i] == log[i];
    } else if p.retried {
      assert (log + [sent.value])[|log|] == sent.value;
    }
  }

  // ---- end of stream --------------------------------------------------------------------------

  /** The honest server's promise: a URL minted inside this cycle is refused `416` only at or
      past the end. An older URL may be dead and refuse anything. */
  ghost predicate HonestRefusals(log: seq<Request>, mint0: nat, n: nat) {
    forall i :: 0 <= i < |log| && log[i].status == Some(416) && mint0 < log[i].mint ==> n <= log[i].offset
  }

  /** Against an honest server of length `n`, an end-of-stream verdict names a position at or
      past the end, whatever the hint says. */
  lemma EofVerdictIsSound(out: Outcome, log: seq<Request>, now: State, offset: nat, len: nat, through: bool,
                          mint0: nat, mint1: nat, n: nat)
    requires CycleVerdict(out, log, now, offset, through, mint0) && out.Eof?
    requires LogFor(log, offset, len, mint0, mint1) && HonestRefusals(log, mint0, n) && Sound(now, n)
    ensures out.at == offset && n <= out.at
  {
    var last := |log| - 1;
    assert log[last].For(offset, len, log[last].mint);
  }

  /** The same from before the cycle: only what the wire named meanwhile has to be honest. */
  lemma EofIsSound(out: Outcome, log: seq<Request>, first: State, now: State, offset: nat, len: nat, through: bool,
                   mint0: nat, mint1: nat, heard: set<nat>, n: nat)
    requires CycleVerdict(out, log, now, offset, through, mint0) && LogFor(log, offset, len, mint0, mint1)
    requires Learned(first, now, heard)
    ensures Sound(first, n) && heard <= {n} ==>
              Sound(now, n) && (HonestRefusals(log, mint0, n) && out.Eof? ==> n <= out.at)
  {
    hide CycleVerdict, LogFor, HonestRefusals, Learned, Sound;
    SoundKept(first, now, heard, n);
    if Sound(first, n) && heard <= {n} && HonestRefusals(log, mint0, n) && out.Eof? {
      EofVerdictIsSound(out, log, now, offset, len, through, mint0, mint1, n);
    }
  }
}
