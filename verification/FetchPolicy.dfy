/** What a cycle does about every answer the wire, the host and the clocks can give, told pass by pass
    from what each pass found. */
module FetchPolicy {
  import opened Prelude
  import opened Extents
  import opened SessionState
  import opened SessionObjects
  import opened Pump
  import opened FetchPass
  import Wire

  /** One pass as it happened: what it started from. */
  datatype Tried = Tried(core: PumpCore, looks: Looks, left: nat, retried: bool)

  /** What came of a pass: the end of the cycle, or the pass after it. */
  datatype Next = Ends(out: Outcome) | GoesOn(next: Tried)

  /** The cycle tries again under the same URL, with one retry less. */
  predicate Retries(x: Tried, next: Next) {
    next.GoesOn? && next.next.core == x.core && next.next.left + 1 == x.left
  }

  /** The cycle tries again under a URL minted for it, with every retry back. */
  predicate RetriesFresh(cfg: Config, x: Tried, next: Next) {
    next.GoesOn? && next.next.core.mintsUsed == x.core.mintsUsed + 1 && next.next.left == cfg.fetchRetries
  }

  /** Wobble latches, anything else is terminal. */
  predicate GivesUp(e: StreamError, next: Next) {
    next == Ends(if e.Transient? || e.RateLimited? then Stalled(e) else Failed(e))
  }

  /** A sleep a demand leg cannot be preempted out of; cancel always wins. */
  predicate SleepEnds(s: Sleep, through: bool, next: Next) {
    match s
    case Elapsed => false
    case Woke(Cancel) => next == Ends(Failed(Cancelled))
    case Woke(Demand) => !through && next == Ends(Preempted)
  }

  predicate SleptThrough(s: Sleep, through: bool) {
    s.Elapsed? || (s.winner.Demand? && through)
  }

  /** A failed request: a transient error is retried after its backoff while retries are left. */
  predicate ErrorDecides(e: StreamError, x: Tried, t: Turn, through: bool, next: Next) {
    if e.Transient? && x.left > 0 then
      if SleptThrough(t.backoff, through) then Retries(x, next) else SleepEnds(t.backoff, through, next)
    else GivesUp(e, next)
  }

  /** The answer is not the pinned source. */
  predicate Drifts(pinned: Source, next: Source) {
    || next.track != pinned.track || next.provider != pinned.provider || next.mime != pinned.mime
    || (pinned.itag.Some? && next.itag != pinned.itag)
  }

  /** An answer that only a fresh URL can settle: another pass follows under it, unless the budgets are
      spent or the host does not come up with the pinned source in time; then that is the outcome. */
  predicate MintDecides(cfg: Config, x: Tried, t: Turn, next: Next) {
    if Spent(x.core, x.looks.answered.sh.committed, cfg) then next == Ends(Failed(StreamsCapped))
    else
      match t.mint
      case MintFailed(e) => GivesUp(e, next)
      case MintHung => next == Ends(Stalled(Transient))
      case MintCancelled => next == Ends(Failed(Cancelled))
      case Minted(source, _) =>
        if Drifts(x.core.source, source) then next == Ends(Failed(InvalidResponse))
        else RetriesFresh(cfg, x, next) && next.next.core.source == x.core.source.(itag := source.itag)
  }

  /** What each status asks for. `refused` is whether an earlier request of the cycle was refused `416`. */
  predicate StatusDecides(cfg: Config, x: Tried, t: Turn, resp: Response, offset: U64, through: bool, refused: bool,
                          next: Next)
  {
    var known := x.looks.answered.total;
    if resp.status == 403 then MintDecides(cfg, x, t, next)
    else if resp.status == 416 && NamedBy(resp).Some? then
      var total := NamedBy(resp).value;
      next == Ends(if (known.Some? && known.value != total) || offset < total then Failed(InvalidResponse)
                   else Eof(offset))
    else if resp.status == 416 then
      if refused || (known.Some? && known.value <= offset) then next == Ends(Eof(offset))
      else MintDecides(cfg, x, t, next)
    else if resp.status == 401 then next == Ends(Failed(Expired))
    else if resp.status == 404 || resp.status == 410 then next == Ends(Failed(NotFound))
    else if resp.status == 429 then next == Ends(Stalled(RateLimited(resp.retryAfterMs)))
    else if resp.status in {408, 425} || resp.status < 200 || resp.status >= 500 then
      ErrorDecides(Transient, x, t, through, next)
    else next == Ends(Failed(InvalidResponse))
  }

  /** What a pass comes to. */
  predicate PassDecides(cfg: Config, x: Tried, t: Turn, offset: U64, len: U64, through: bool, refused: bool,
                        next: Next) {
    var until := x.looks.cooled.sh.notBefore;
    if x.looks.checked.sh.life.terminal.Some? then next == Ends(Failed(x.looks.checked.sh.life.terminal.value))
    else if until.Some? && until.value > t.now && !SleptThrough(t.wait, through) then SleepEnds(t.wait, through, next)
    else
      match t.reply
      case NoAnswer(e) => ErrorDecides(e, x, t, through, next)
      case Dropped(resp, _, Cancel) => next == Ends(Failed(Cancelled))
      case Dropped(resp, _, Demand) =>
        if through then AnswerDecides(cfg, x, t, resp, offset, len, through, refused, next) else next == Ends(Preempted)
      case Answered(resp) => AnswerDecides(cfg, x, t, resp, offset, len, through, refused, next)
  }

  /** A body is taken or fails with its own error; any other status decides for itself. */
  predicate AnswerDecides(cfg: Config, x: Tried, t: Turn, resp: Response, offset: U64, len: U64, through: bool,
                          refused: bool, next: Next)
  {
    if resp.status == 206 then
      match DriveVerdict(x.looks.answered.total, resp, offset, len)
      case Ok(_) => next == Ends(Bytes)
      case Err(e) => ErrorDecides(e, x, t, through, next)
    else StatusDecides(cfg, x, t, resp, offset, through, refused, next)
  }

  function TriedVerdict(cfg: Config, x: Tried, t: Turn, offset: U64, len: U64, through: bool): Pass {
    AttemptVerdict(cfg, x.core, x.looks, t, offset, len, through, x.left, x.retried)
  }

  /** What a pass hands on. */
  predicate Leads(p: Pass, next: Tried) {
    p.out.None? && next.core == p.core && next.left == p.left && next.retried == p.retried
  }

  predicate Follows(p: Pass, next: Next) {
    if next.Ends? then p.out == Some(next.out) else Leads(p, next.next)
  }

  lemma MintPolicy(cfg: Config, x: Tried, t: Turn, next: Next)
    requires var (after, granted) := MintStep(x.core, x.looks.answered.sh.committed, cfg);
             var (pinned, m) := MintVerdict(after, granted.Ok?, t.mint);
             if m.Err? then next == Ends(MintEnds(m.error))
             else next.GoesOn? && next.next.core == pinned && next.next.left == cfg.fetchRetries
    ensures MintDecides(cfg, x, t, next)
  {
    hide MintStep;
    MintGranted(x.core, x.looks.answered.sh.committed, cfg);
  }

  lemma ErrorPolicy(e: StreamError, cfg: Config, x: Tried, t: Turn, through: bool, next: Next)
    requires var (out, left) := RetryVerdict(e, x.left, t, through);
             Follows(Pass(out, left, x.retried, false, x.core), next)
    ensures ErrorDecides(e, x, t, through, next)
  {
  }

  lemma SettlePolicy(cfg: Config, x: Tried, t: Turn, resp: Response, offset: U64, len: U64, through: bool, next: Next)
    requires resp.status != 206
    requires Follows(SettleVerdict(cfg, x.core, x.looks.answered.sh.committed, x.looks.answered.total, t,
                                   DriveVerdict(x.looks.answered.total, resp, offset, len), offset, through, x.left,
                                   x.retried), next)
    ensures StatusDecides(cfg, x, t, resp, offset, through, x.retried, next)
  {
    hide MintStep, MintVerdict, RetryVerdict, MintDecides, ErrorDecides, Wire.UnsatisfiedTotal;
    var r := DriveVerdict(x.looks.answered.total, resp, offset, len);
    if resp.status == 403
        || (resp.status == 416 && RefusalVerdict(x.looks.answered.total, r.value.total, offset, x.retried).None?) {
      MintPolicy(cfg, x, t, next);
    } else if resp.status != 416 {
      ErrorPolicy(ClassifyStatus(resp.status, resp.retryAfterMs), cfg, x, t, through, next);
      if !(ClassifyStatus(resp.status, resp.retryAfterMs) == Transient) {
        NotRetried(ClassifyStatus(resp.status, resp.retryAfterMs), x, t, through, next);
      }
    }
  }

  lemma NotRetried(e: StreamError, x: Tried, t: Turn, through: bool, next: Next)
    requires ErrorDecides(e, x, t, through, next) && !e.Transient?
    ensures GivesUp(e, next)
  {
  }

  /** The code's pass is the one prescribed. */
  lemma PassPolicy(cfg: Config, x: Tried, t: Turn, offset: U64, len: U64, through: bool, next: Next)
    requires Follows(TriedVerdict(cfg, x, t, offset, len, through), next)
    ensures PassDecides(cfg, x, t, offset, len, through, x.retried, next)
  {
    hide SettleVerdict, RetryVerdict, StatusDecides, ErrorDecides, DriveVerdict;
    var early := DepartVerdict(x.looks.checked.sh, x.looks.cooled.sh, t, through);
    if early.None? && !(t.reply.Dropped? && (t.reply.winner.Cancel? || !through)) {
      AnswerPolicy(cfg, x, t, offset, len, through, next);
    }
  }

  lemma AnswerPolicy(cfg: Config, x: Tried, t: Turn, offset: U64, len: U64, through: bool, next: Next)
    requires var known := x.looks.answered.total;
             Follows(SettleVerdict(cfg, x.core, x.looks.answered.sh.committed, known, t,
                                   ReplyVerdict(known, t.reply, offset, len), offset, through, x.left, x.retried), next)
    ensures if t.reply.NoAnswer? then ErrorDecides(t.reply.error, x, t, through, next)
            else AnswerDecides(cfg, x, t, t.reply.resp, offset, len, through, x.retried, next)
  {
    hide MintStep, MintVerdict, RetryVerdict, StatusDecides, ErrorDecides;
    var known := x.looks.answered.total;
    var r := ReplyVerdict(known, t.reply, offset, len);
    if !t.reply.NoAnswer? && t.reply.resp.status != 206 {
      SettlePolicy(cfg, x, t, t.reply.resp, offset, len, through, next);
    } else if r.Err? {
      ErrorPolicy(r.error, cfg, x, t, through, next);
    }
  }

  /** The status of a reply that came. */
  function StatusIn(reply: Reply): Option<nat> {
    if reply.NoAnswer? then None else Some(reply.resp.status)
  }

  /** A cycle that goes on remembers whether it was refused. */
  lemma RetriedIs(cfg: Config, x: Tried, t: Turn, offset: U64, len: U64, through: bool)
    ensures var p := TriedVerdict(cfg, x, t, offset, len, through);
            p.out.None? ==> (p.retried <==> x.retried || StatusIn(t.reply) == Some(416))
  {
    hide MintStep, MintVerdict, RetryVerdict, RefusalVerdict, DepartVerdict, Wire.UnsatisfiedTotal, Wire.ValidateHead;
  }
}
