/** One pass of the cycle around a range request: cooldown, the request, and what its answer asks for,
    for every server. Other legs of the session (readers, probes, consumers, teardowns) act between any
    two critical sections of a pass, though not between two pieces of one body. A `Turn` says what the
    environment does during one pass of the loop. */
module FetchPass {
  import opened Prelude
  import opened Extents
  import opened SessionState
  import opened SessionObjects
  import opened Pump
  import Store = SparseStore
  import Wire

  /** What can win a `select` against the awaited future. */
  datatype Interrupt = Demand | Cancel

  datatype Sleep = Elapsed | Woke(winner: Interrupt)

  datatype Reply =
    | Answered(resp: Response)
    | NoAnswer(error: StreamError)
    | Dropped(resp: Response, pieces: nat, winner: Interrupt)

  /** What the host's `remint` answers, in time or not. */
  datatype Mint = Minted(source: Source, hint: Option<U64>) | MintFailed(error: StreamError) | MintHung | MintCancelled

  /** One critical section of another leg of the same session. */
  datatype Deed =
    | Land(at: U64, bytes: seq<Byte>)
    | Learn(total: U64)
    | Ceiling(at: U64)
    | End(error: StreamError)
    | Cool(until: nat)
    | Queue(pos: U64)
    | Release(pos: U64)
    | Served(upTo: U64)
    | TakeLatch
    | Open(pos: U64)
    | Shut(now: nat)
    | Claim
    | Disown(rivals: seq<Rival>)

  /** One pass: what others do before its liveness check, between that and its look at the cooldown,
      while it sleeps the cooldown out, and while its request is in flight; and what the clocks, the
      wire and the host answer. */
  datatype Turn = Turn(
    others: seq<Deed>,
    between: seq<Deed>,
    now: nat,
    asleep: seq<Deed>,
    wait: Sleep,
    late: nat,
    flight: seq<Deed>,
    reply: Reply,
    latency: nat,
    backoff: Sleep,
    mint: Mint)

  datatype Outcome =
    | Bytes
    | Eof(at: nat)
    | Preempted
    | Stalled(error: StreamError)
    | Failed(error: StreamError)

  /** One request on the wire: the mint it used, when it left, the deadline it owed and the
      status that answered it. */
  datatype Request = Request(offset: U64, len: U64, mint: nat, due: Option<nat>, at: nat, status: Option<nat>)
  {
    /** Sent for this range, under this mint, no earlier than the deadline it owed. */
    predicate For(offset: nat, len: nat, mint: nat) {
      this.offset == offset && this.len == len && this.mint == mint && (due.Some? ==> due.value <= at)
    }
  }

  /** A demand leg's waits have no demand arm: only cancel interrupts them. */
  function Interrupted(through: bool, winner: Interrupt): Option<Outcome> {
    match winner
    case Cancel => Some(Failed(Cancelled))
    case Demand => if through then None else Some(Preempted)
  }

  function Woken(through: bool, s: Sleep): Option<Outcome> {
    if s.Elapsed? then None else Interrupted(through, s.winner)
  }

  /** Network wobble that latches instead of ending the session. */
  predicate Stallable(e: StreamError) {
    e.Transient? || e.RateLimited?
  }

  /** A status that is neither a body nor a re-mint trigger, in the seam's taxonomy. */
  function ClassifyStatus(status: nat, retryAfterMs: Option<nat>): (e: StreamError)
    ensures Stallable(e) <==> status in {408, 425, 429} || status < 200 || status >= 500
  {
    if status == 401 then Expired
    else if status == 404 || status == 410 then NotFound
    else if status == 408 || status == 425 then Transient
    else if status == 429 then RateLimited(retryAfterMs)
    else if 200 <= status <= 499 then InvalidResponse
    else Transient
  }

  // ---- what a pass may change ------------------------------------------------------

  datatype State = State(cover: set<nat>, trusty: bool, total: Option<nat>, sh: Shared)

  ghost function Now(s: SessionInner, res: seq<Byte>): State
    reads s, s.store
    requires s.Valid()
  {
    State(s.store.Content().Keys, TrueTo(s.store.Content(), res), s.store.total, s.sh)
  }

  ghost predicate Later(a: Option<nat>, b: Option<nat>) {
    a.Some? ==> b.Some? && a.value <= b.value
  }

  /** Queued positions are offsets. */
  ghost predicate Fits(sh: Shared) {
    forall p :: p in sh.fetchThrough ==> p <= U64_MAX
  }

  /** Coverage and the cooldown only grow, the ceiling only falls, a known total never moves,
      an ended session stays ended, and true bytes keep a true store true. */
  ghost predicate Onward(a: State, b: State, bytesTrue: bool) {
    && a.cover <= b.cover
    && (a.trusty && bytesTrue ==> b.trusty)
    && (a.total.Some? ==> b.total == a.total)
    && a.sh.committed <= b.sh.committed
    && Later(a.sh.notBefore, b.sh.notBefore)
    && Later(b.sh.eofBelow, if a.sh.eofBelow.Some? then a.sh.eofBelow else b.sh.eofBelow)
    && (a.sh.eofBelow.Some? ==> b.sh.eofBelow.Some?)
    && (!a.sh.life.Live() ==> b.sh.life.terminal == a.sh.life.terminal)
    && (Fits(a.sh) ==> Fits(b.sh))
  }

  lemma OnwardJoin(a: State, b: State, c: State, bytesTrue: bool)
    requires Onward(a, b, bytesTrue) && Onward(b, c, bytesTrue)
    ensures Onward(a, c, bytesTrue)
  {
  }

  /** What was known before, or something the wire named meanwhile. */
  ghost predicate Heard(before: Option<nat>, after: Option<nat>, heard: set<nat>) {
    after == before || (after.Some? && after.value in heard)
  }

  function Named(total: Option<nat>): set<nat> {
    if total.Some? then {total.value} else {}
  }

  /** The total a reply names, on either kind of answer. */
  function NamedBy(resp: Response): Option<nat> {
    if resp.status == 416 && resp.contentRange.Some? then Wire.UnsatisfiedTotal(resp.contentRange.value)
    else ReportedTotal(resp)
  }

  /** The total and the ceiling are those known before, or were named meanwhile. */
  ghost predicate Learned(a: State, b: State, heard: set<nat>) {
    Heard(a.total, b.total, heard) && Heard(a.sh.eofBelow, b.sh.eofBelow, heard)
  }

  /** What a session believes about a resource of length `n` is right: the total if it has one, and
      no ceiling below the end. */
  ghost predicate SoundAt(sh: Shared, total: Option<nat>, n: nat) {
    && (total.Some? ==> total.value == n)
    && (sh.eofBelow.Some? ==> sh.eofBelow.value >= n)
  }

  ghost predicate Sound(x: State, n: nat) {
    SoundAt(x.sh, x.total, n)
  }

  /** An honest wire keeps it so. */
  lemma SoundKept(a: State, b: State, heard: set<nat>, n: nat)
    requires Learned(a, b, heard)
    ensures Sound(a, n) && heard <= {n} ==> Sound(b, n)
  {
    if Sound(a, n) && heard <= {n} {
      assert forall x :: x in heard ==> x == n;
    }
  }

  lemma LearnedJoin(a: State, b: State, c: State, x: set<nat>, y: set<nat>)
    requires Learned(a, b, x) && Learned(b, c, y)
    ensures Learned(a, c, x + y)
  {
  }

  lemma LearnedWeaken(a: State, b: State, x: set<nat>, y: set<nat>)
    requires Learned(a, b, x) && x <= y
    ensures Learned(a, b, y)
  {
  }

  // ---- what other legs do --------------------------------------------------------------

  ghost predicate DeedTrue(d: Deed, res: seq<Byte>) {
    d.Land? ==> TrueAt(d.bytes, d.at, res)
  }

  ghost predicate DeedsTrue(ds: seq<Deed>, res: seq<Byte>) {
    forall i :: 0 <= i < |ds| ==> DeedTrue(ds[i], res)
  }

  /** Totals the wire named to other legs. */
  function DeedNames(d: Deed): set<nat> {
    match d
    case Learn(total) => {total}
    case Ceiling(at) => {at}
    case _ => {}
  }

  function Names(ds: seq<Deed>): set<nat> {
    set d | d in ds && (d.Learn? || d.Ceiling?) :: if d.Learn? then d.total else d.at
  }

  lemma NamesHas(ds: seq<Deed>, i: nat)
    requires i < |ds|
    ensures DeedNames(ds[i]) <= Names(ds)
  {
    assert ds[i] in ds;
  }

  /** What a section of `shared` alone may change, as far as a fetch cycle is concerned. */
  ghost predicate Steered(a: Shared, b: Shared) {
    && Later(a.notBefore, b.notBefore)
    && b.committed == a.committed && b.eofBelow == a.eofBelow
    && (!a.life.Live() ==> b.life.terminal == a.life.terminal)
    && (Fits(a) ==> Fits(b))
  }

  /** A wire total reaches another leg, or the refusal that named it. */
  method Inform(s: SessionInner, d: Deed, ghost res: seq<Byte>)
    requires s.Valid() && (d.Learn? || d.Ceiling?)
    modifies s`sh, s`readerNotes, s`permit, s.store`total, s.pool
    ensures s.Valid() && s.store.Content() == old(s.store.Content())
    ensures Onward(old(Now(s, res)), Now(s, res), true) && Learned(old(Now(s, res)), Now(s, res), DeedNames(d))
  {
    hide Store.SparseStore.Valid, Store.SparseStore.Content, TrueTo;
    match d
    case Learn(total) =>
      var adopted := CheckTotal(s, total);
    case Ceiling(at) =>
      if s.store.total == Some(at) {
        s.MarkEofBelow(at);
      }
  }

  /** A consumer, an owner or a teardown moves the session. */
  method Steer(s: SessionInner, d: Deed)
    requires !d.Learn? && !d.Ceiling? && !d.Land?
    modifies s`sh, s`readerNotes, s`permit, s`teardown, s.pool
    ensures Steered(old(s.sh), s.sh)
  {
    match d
    case End(e) =>
      var ran := s.TerminateIf(e, true);
    case Cool(until) => s.SetCooldown(until);
    case Queue(pos) => s.QueueThrough(pos);
    case Release(pos) => s.DropThrough(pos);
    case Served(upTo) => s.sh := s.sh.(readPos := Max(s.sh.readPos, upTo));
    case TakeLatch =>
      s.sh := s.sh.(transientError := None);
      s.permit := true;
    case Open(pos) =>
      var r := s.Attach(pos, false);
    case Shut(now) => s.Close(now);
    case Claim =>
      var claimed := s.ClaimIfLive();
    case Disown(rivals) => Disowned(s, rivals);
  }

  method Disowned(s: SessionInner, rivals: seq<Rival>)
    modifies s`sh, s`readerNotes, s`permit, s`teardown, s.pool
    ensures Steered(old(s.sh), s.sh)
  {
    hide Abandoned;
    s.Abandon(rivals);
  }

  method LandBytes(s: SessionInner, at: U64, bytes: seq<Byte>, ghost res: seq<Byte>)
    requires s.Valid()
    modifies s`sh, s`readerNotes, s`headReady, s.store
    ensures s.Valid()
    ensures LandedOnly(old(Now(s, res)), Now(s, res), TrueAt(bytes, at, res))
  {
    hide Store.SparseStore.Valid, Store.SparseStore.Content, TrueTo, TrueAt, Landed;
    if bytes != [] {
      ghost var before := Snap(s, res);
      var r := CommitPiece(s, at, bytes, None, res);
      LandedMeans(before, Snap(s, res), at, if r.Ok? then |bytes| else 0, TrueAt(bytes, at, res));
    }
  }

  /** Bytes landed, nothing else moved. */
  ghost predicate LandedOnly(a: State, b: State, bytesTrue: bool) {
    && a.cover <= b.cover && (a.trusty && bytesTrue ==> b.trusty)
    && b.total == a.total
    && b.sh == a.sh.(committed := b.sh.committed) && a.sh.committed <= b.sh.committed
  }

  lemma LandedMeans(a: Snapshot, b: Snapshot, at: nat, n: nat, bytesTrue: bool)
    requires Landed(a, b, at, n, bytesTrue)
    ensures a.cover <= b.cover && (a.trusty && bytesTrue ==> b.trusty) && b.total == a.total
    ensures b.sh == a.sh.(committed := b.sh.committed) && a.sh.committed <= b.sh.committed
  {
  }

  lemma LandingIsOnward(a: State, b: State, bytesTrue: bool)
    requires LandedOnly(a, b, bytesTrue)
    ensures Onward(a, b, bytesTrue) && Learned(a, b, {})
  {
  }

  lemma SteeringIsOnward(a: State, b: State)
    requires b.cover == a.cover && b.trusty == a.trusty && b.total == a.total && Steered(a.sh, b.sh)
    ensures Onward(a, b, true) && Learned(a, b, {})
  {
  }

  method Act(s: SessionInner, d: Deed, ghost res: seq<Byte>)
    requires s.Valid()
    modifies s`sh, s`readerNotes, s`headReady, s`permit, s`teardown, s.store, s.pool
    ensures s.Valid()
    ensures Onward(old(Now(s, res)), Now(s, res), DeedTrue(d, res))
              && Learned(old(Now(s, res)), Now(s, res), DeedNames(d))
  {
    hide Store.SparseStore.Valid, Store.SparseStore.Content, TrueTo, TrueAt, LandedOnly, Steered, Onward, Learned;
    ghost var first := Now(s, res);
    if d.Land? {
      LandBytes(s, d.at, d.bytes, res);
      LandingIsOnward(first, Now(s, res), TrueAt(d.bytes, d.at, res));
    } else if d.Learn? || d.Ceiling? {
      Inform(s, d, res);
      OnwardWeaken(first, Now(s, res), true, DeedTrue(d, res));
    } else {
      Steer(s, d);
      SteeringIsOnward(first, Now(s, res));
    }
  }

  /** Other legs' sections, one after another. */
  method LetOthersRun(s: SessionInner, ds: seq<Deed>, ghost res: seq<Byte>)
    requires s.Valid()
    modifies s`sh, s`readerNotes, s`headReady, s`permit, s`teardown, s.store, s.pool
    ensures s.Valid()
    ensures Onward(old(Now(s, res)), Now(s, res), DeedsTrue(ds, res))
              && Learned(old(Now(s, res)), Now(s, res), Names(ds))
  {
    hide *;
    ghost var first, bytesTrue := Now(s, res), DeedsTrue(ds, res);
    var i := 0;
    StillOnward(first, bytesTrue, Names(ds));
    while i < |ds|
      invariant i <= |ds| && s.Valid()
      invariant Onward(first, Now(s, res), bytesTrue) && Learned(first, Now(s, res), Names(ds))
    {
      ghost var before := Now(s, res);
      Act(s, ds[i], res);
      NamesHas(ds, i);
      OneDeedTrue(ds, i, res);
      OnwardWeaken(before, Now(s, res), DeedTrue(ds[i], res), bytesTrue);
      OnwardJoin(first, before, Now(s, res), bytesTrue);
      LearnedJoin(first, before, Now(s, res), Names(ds), DeedNames(ds[i]));
      LearnedWeaken(first, Now(s, res), Names(ds) + DeedNames(ds[i]), Names(ds));
      i := i + 1;
    }
  }

  lemma StillOnward(a: State, bytesTrue: bool, heard: set<nat>)
    ensures Onward(a, a, bytesTrue) && Learned(a, a, heard)
  {
  }

  lemma OneDeedTrue(ds: seq<Deed>, i: nat, res: seq<Byte>)
    requires i < |ds|
    ensures DeedsTrue(ds, res) ==> DeedTrue(ds[i], res)
  {
  }

  lemma OnwardWeaken(a: State, b: State, strong: bool, weak: bool)
    requires Onward(a, b, strong) && (weak ==> strong)
    ensures Onward(a, b, weak)
  {
  }

  // ---- what one pass runs under ----------------------------------------------------------

  /** Every byte that reaches the store during a pass is the resource's. */
  ghost predicate TurnTrue(t: Turn, res: seq<Byte>) {
    && DeedsTrue(t.others, res) && DeedsTrue(t.between, res) && DeedsTrue(t.asleep, res) && DeedsTrue(t.flight, res)
    && ReplyTrue(t.reply, res)
  }

  /** Totals named to other legs during a pass. */
  function TurnNames(t: Turn): set<nat> {
    Names(t.others) + Names(t.between) + Names(t.asleep) + Names(t.flight)
  }

  ghost predicate ScriptTrue(script: nat -> Turn, res: seq<Byte>) {
    forall k: nat :: TurnTrue(script(k), res)
  }

  /** Others run inside a pass. */
  method Meanwhile(s: SessionInner, t: Turn, ds: seq<Deed>, ghost first: State, ghost res: seq<Byte>)
    requires s.Valid() && ds in {t.others, t.between, t.asleep, t.flight}
    requires Onward(first, Now(s, res), TurnTrue(t, res)) && Learned(first, Now(s, res), TurnNames(t))
    modifies s`sh, s`readerNotes, s`headReady, s`permit, s`teardown, s.store, s.pool
    ensures s.Valid()
    ensures Onward(old(Now(s, res)), Now(s, res), TurnTrue(t, res))
    ensures Onward(first, Now(s, res), TurnTrue(t, res)) && Learned(first, Now(s, res), TurnNames(t))
  {
    hide Store.SparseStore.Valid, Now, Onward, Learned, DeedsTrue, ReplyTrue, Names;
    ghost var before := Now(s, res);
    LetOthersRun(s, ds, res);
    OnwardWeaken(before, Now(s, res), DeedsTrue(ds, res), TurnTrue(t, res));
    OnwardJoin(first, before, Now(s, res), TurnTrue(t, res));
    LearnedJoin(first, before, Now(s, res), TurnNames(t), Names(ds));
    LearnedWeaken(first, Now(s, res), TurnNames(t) + Names(ds), TurnNames(t));
  }

  // ---- the steps of one pass -----------------------------------------------------------

  /** Record a wire total; a changed one is a violation, never a silent update. */
  method CheckTotal(s: SessionInner, total: U64) returns (adopted: bool)
    requires s.Valid()
    modifies s.store`total
    ensures s.Valid() && s.store.Content() == old(s.store.Content())
    ensures adopted <==> (old(s.store.total).None? || old(s.store.total) == Some(total))
    ensures s.store.total == if adopted then Some(total) else old(s.store.total)
  {
    var r := Wire.CheckTotal(s.store.total, total);
    if r.Err? {
      return false;
    }
    s.store.total := r.value;
    return true;
  }

  /** What the caller makes of a reply that nothing interrupted. */
  function ReplyVerdict(known: Option<nat>, reply: Reply, offset: U64, len: U64): Result<FetchOutcome, StreamError> {
    if reply.NoAnswer? then Err(reply.error) else DriveVerdict(known, reply.resp, offset, len)
  }

  /** A reply's body, if it has one, is true to its range. */
  ghost predicate ReplyTrue(reply: Reply, res: seq<Byte>) {
    !reply.NoAnswer? ==> BodyTrueToRange(reply.resp, res)
  }

  function Told(reply: Reply): set<nat> {
    if reply.NoAnswer? then {} else Named(NamedBy(reply.resp))
  }

  /** The total a refusal relays to the caller. */
  function Relayed(r: Result<FetchOutcome, StreamError>): set<nat> {
    if r.Ok? && r.value.Status? then Named(r.value.total) else {}
  }

  /** Await one range request. A drop mid-body keeps the pieces already committed. */
  method Send(s: SessionInner, reply: Reply, offset: U64, len: U64, through: bool, ghost res: seq<Byte>)
    returns (out: Option<Outcome>, r: Result<FetchOutcome, StreamError>)
    requires s.Valid()
    modifies s`sh, s`readerNotes, s`headReady, s.store
    ensures s.Valid()
    ensures Onward(old(Now(s, res)), Now(s, res), ReplyTrue(reply, res))
    ensures s.sh == old(s.sh).(committed := s.sh.committed)
    ensures Learned(old(Now(s, res)), Now(s, res), Told(reply))
    ensures out.None? ==> Relayed(r) <= Told(reply)
    ensures out == if reply.Dropped? then Interrupted(through, reply.winner) else None
    ensures out.Some? && reply.pieces <= |reply.resp.body| ==>
              s.store.Content().Keys <= old(s.store.Content()).Keys
                + Span(offset, offset + |Delivered(reply.resp.body[..reply.pieces])|)
    ensures out.None? ==> r == ReplyVerdict(old(s.store.total), reply, offset, len)
    ensures out.None? && r == Ok(Committed) ==>
              !reply.NoAnswer? && reply.resp.status == 206 && offset in s.store.Content()
    ensures out.None? && r.Ok? && r.value.Status? ==>
              && !reply.NoAnswer? && r.value.status == reply.resp.status && r.value.status != 206
              && (r.value.total.Some? ==> r.value.status == 416)
              && (r.value.status == 416 ==> NamedBy(reply.resp) == r.value.total)
              && s.sh == old(s.sh) && s.store.Content() == old(s.store.Content()) && s.store.total == old(s.store.total)
  {
    hide Store.SparseStore.Valid, Store.SparseStore.Content, TrueTo, BodyTrueToRange, ReportedTotal, Span, DriveVerdict;
    if reply.NoAnswer? {
      return None, Err(reply.error);
    }
    NamedCovers(reply.resp);
    out := if reply.Dropped? then Interrupted(through, reply.winner) else None;
    var resp := reply.resp;
    if out.Some? && reply.pieces <= |resp.body| {
      resp := resp.(body := resp.body[..reply.pieces]);
      PrefixTrue(reply.resp, reply.pieces, res);
    }
    r := DriveFetch(s, resp, offset, len, res);
  }

  /** Only a 206 has a body that is looked at; any other status comes back as it is. */
  lemma VerdictStatus(known: Option<nat>, resp: Response, offset: U64, len: U64)
    ensures var r := DriveVerdict(known, resp, offset, len);
            if resp.status == 206 then r.Ok? ==> r.value.Committed?
            else r.Ok? && r.value.Status? && r.value.status == resp.status && r.value.retryAfterMs == resp.retryAfterMs
  {
  }

  lemma NamedCovers(resp: Response)
    ensures ReportedTotal(resp).Some? ==> NamedBy(resp) == ReportedTotal(resp)
    ensures resp.status == 416 && resp.contentRange.None? ==> NamedBy(resp).None?
    ensures resp.status != 206 ==> ReportedTotal(resp).None?
  {
  }

  /** A prefix of a true body is true. */
  lemma PrefixTrue(resp: Response, n: nat, res: seq<Byte>)
    requires n <= |resp.body|
    ensures BodyTrueToRange(resp, res) ==> BodyTrueToRange(resp.(body := resp.body[..n]), res)
    ensures ReportedTotal(resp.(body := resp.body[..n])) == ReportedTotal(resp)
  {
    hide Wire.ParseContentRange;
    DeliveredPrefix(resp.body, n);
    var cut := resp.(body := resp.body[..n]);
    if BodyTrueToRange(resp, res) && resp.status == 206 && resp.contentRange.Some?
       && Wire.ParseContentRange(resp.contentRange.value).Some?
    {
      var (start, end, _) := Wire.ParseContentRange(resp.contentRange.value).value;
      if start <= end {
        forall i | 0 <= i < |Delivered(cut.body)| && i < end - start + 1
          ensures Has(res, start + i, Delivered(cut.body)[i])
        {
          assert Delivered(cut.body)[i] == Delivered(resp.body)[i];
        }
      }
    }
  }

  lemma {:induction false} DeliveredPrefix(body: seq<Piece>, n: nat)
    requires n <= |body|
    ensures Delivered(body[..n]) <= Delivered(body)
  {
    if n > 0 && body[0].Chunk? {
      assert body[..n][1..] == body[1..][..n - 1];
      DeliveredPrefix(body[1..], n - 1);
    }
  }

  /** The retry policy: `None` retries, anything else ends the cycle. */
  function RetryVerdict(e: StreamError, left: nat, t: Turn, through: bool): (Option<Outcome>, nat) {
    if e.Transient? && left > 0 then (Woken(through, t.backoff), left - 1)
    else (Some(if Stallable(e) then Stalled(e) else Failed(e)), left)
  }

  /** A rate limit named at `at` holds requests back for as long as it says, up to the cap, and never
      shortens a window that is longer. */
  predicate Staked(before: Option<nat>, after: Option<nat>, at: nat, hintMs: nat, cap: nat) {
    after == Some(Max(if before.Some? then before.value else 0, at + Min(hintMs, cap)))
  }

  /** Apply it; a named rate limit also stakes its window on the session, up to the cap. */
  method RetryOrStall(s: SessionInner, e: StreamError, left: nat, t: Turn, at: nat, through: bool)
    returns (out: Option<Outcome>, left1: nat)
    modifies s`sh
    ensures (out, left1) == RetryVerdict(e, left, t, through)
    ensures s.sh == old(s.sh).(notBefore := s.sh.notBefore) && Later(old(s.sh.notBefore), s.sh.notBefore)
    ensures out == Some(Preempted) ==> !through
    ensures !e.RateLimited? || e.retryAfterMs.None? ==> s.sh == old(s.sh)
    ensures e.RateLimited? && e.retryAfterMs.Some? ==>
              Staked(old(s.sh.notBefore), s.sh.notBefore, at + t.latency, e.retryAfterMs.value, s.cfg.cooldownCap)
  {
    left1 := left;
    if e.Transient? && left > 0 {
      left1 := left - 1;
      return Woken(through, t.backoff), left1;
    }
    if e.RateLimited? && e.retryAfterMs.Some? {
      s.SetCooldown(at + t.latency + Min(e.retryAfterMs.value, s.cfg.cooldownCap));
    }
    out := Some(if Stallable(e) then Stalled(e) else Failed(e));
  }

  /** What a re-mint answers, once the budgets let it through or did not, and the bookkeeping it leaves:
      a late answer is network wobble, and only the pinned source is adopted. */
  function MintVerdict(core: PumpCore, called: bool, mint: Mint): (PumpCore, Result<(), StreamError>) {
    if !called then (core, Err(StreamsCapped))
    else
      match mint
      case MintFailed(e) => (core, Err(e))
      case MintHung => (core, Err(Transient))
      case MintCancelled => (core, Err(Cancelled))
      case Minted(source, _) =>
        match core.Adopt(source)
        case Err(e) => (core, Err(e))
        case Ok(next) => (next, Ok(()))
  }

  /** `finish_mint`: the pins, then the hint. */
  method FinishMint(s: SessionInner, source: Source, hint: Option<U64>) returns (r: Result<(), StreamError>)
    requires s.Valid()
    modifies s`core, s.store`hintTotal
    ensures s.Valid() && s.store.Content() == old(s.store.Content())
    ensures (s.core, r) == MintVerdict(old(s.core), true, Minted(source, hint))
    ensures s.store.hintTotal == if r.Ok? && hint.Some? then hint else old(s.store.hintTotal)
  {
    if source.track != s.core.source.track || source.provider != s.core.source.provider {
      return Err(InvalidResponse);
    }
    if source.mime != s.core.source.mime {
      return Err(InvalidResponse);
    }
    if s.core.source.itag.Some? && source.itag != s.core.source.itag {
      return Err(InvalidResponse);
    }
    if hint.Some? {
      s.store.hintTotal := hint;
    }
    s.core := s.core.(source := s.core.source.(itag := source.itag));
    r := Ok(());
  }

  /** Re-resolve the source: budgets first, then the deadline, then the pins. */
  method Remint(s: SessionInner, mint: Mint) returns (r: Result<(), StreamError>, called: bool)
    requires s.Valid()
    modifies s`core, s.store`hintTotal
    ensures s.Valid() && s.store.Content() == old(s.store.Content())
    ensures called <==> MintStep(old(s.core), s.sh.committed, s.cfg).1.Ok?
    ensures (s.core, r) == MintVerdict(MintStep(old(s.core), s.sh.committed, s.cfg).0, called, mint)
    ensures called ==> s.core.Remaining(s.cfg.mintBudget) + 1 == old(s.core).Remaining(s.cfg.mintBudget)
    ensures !called ==> s.core.Remaining(s.cfg.mintBudget) <= old(s.core).Remaining(s.cfg.mintBudget)
    ensures old(s.core).mintsUsed <= s.core.mintsUsed && (called ==> s.core.mintsUsed == old(s.core).mintsUsed + 1)
    ensures r.Ok? ==> called
    ensures s.store.hintTotal == if r.Ok? && mint.hint.Some? then mint.hint else old(s.store.hintTotal)
  {
    var b := s.BeginMint();
    if b.Err? {
      return b, false;
    }
    called := true;
    match mint
    case MintFailed(e) => r := Err(e);
    case MintHung => r := Err(Transient);
    case MintCancelled => r := Err(Cancelled);
    case Minted(source, hint) => r := FinishMint(s, source, hint);
  }

  /** A failed re-mint ends the cycle: wobble latches, a verdict is terminal. */
  function MintEnds(e: StreamError): Outcome {
    if Stallable(e) then Stalled(e) else Failed(e)
  }

  /** Whether a bare `416` proves end-of-stream: a fresh mint already refused, or the offset is
      at or past the wire total. The hint is never authority. */
  predicate EofConfirmed(total: Option<nat>, offset: nat, retried: bool) {
    retried || (total.Some? && offset >= total.value)
  }

  // ---- one pass ----------------------------------------------------------------------------

  /** Whether an attempt ends before its request: on the liveness it checked, then on the cooldown it
      looked up. */
  function DepartVerdict(checked: Shared, cooled: Shared, t: Turn, through: bool): Option<Outcome> {
    if checked.life.terminal.Some? then Some(Failed(checked.life.terminal.value))
    else if cooled.notBefore.Some? && cooled.notBefore.value > t.now then Woken(through, t.wait)
    else None
  }

  /** Up to the moment a request may leave: liveness, then the remainder of any cooldown. Both are
      looked at once; what changes while it sleeps is not looked at again. */
  method Depart(s: SessionInner, t: Turn, through: bool, ghost res: seq<Byte>)
    returns (out: Option<Outcome>, due: Option<nat>, at: nat, ghost checked: State, ghost cooled: State)
    requires s.Valid()
    modifies s`sh, s`readerNotes, s`headReady, s`permit, s`teardown, s.store, s.pool
    ensures s.Valid()
    ensures Onward(old(Now(s, res)), checked, TurnTrue(t, res)) && Onward(checked, cooled, TurnTrue(t, res))
    ensures Onward(cooled, Now(s, res), TurnTrue(t, res)) && Onward(old(Now(s, res)), Now(s, res), TurnTrue(t, res))
    ensures Learned(old(Now(s, res)), Now(s, res), TurnNames(t))
    ensures out == DepartVerdict(checked.sh, cooled.sh, t, through)
    ensures out.None? ==> checked.sh.life.Live() && due == cooled.sh.notBefore && (due.Some? ==> due.value <= at)
    ensures out.Some? ==> out.value.Preempted? || out.value.Failed?
    ensures out == Some(Preempted) ==> !through
    ensures out.Some? && out.value.Failed? && Now(s, res).sh.life.Live() ==> out.value.error == Cancelled
  {
    hide Onward, Learned, TurnTrue, TurnNames, Store.SparseStore.Valid, Store.SparseStore.Content, TrueTo;
    ghost var first := Now(s, res);
    StillOnward(first, TurnTrue(t, res), TurnNames(t));
    Meanwhile(s, t, t.others, first, res);
    checked, cooled := Now(s, res), Now(s, res);
    due, at := None, t.now;
    StillOnward(checked, TurnTrue(t, res), {});
    if s.sh.life.terminal.Some? {
      return Some(Failed(s.sh.life.terminal.value)), due, at, checked, cooled;
    }
    Meanwhile(s, t, t.between, first, res);
    cooled := Now(s, res);
    StillOnward(cooled, TurnTrue(t, res), {});
    due := s.sh.notBefore;
    if due.Some? && due.value > t.now {
      Meanwhile(s, t, t.asleep, first, res);
      return Woken(through, t.wait), due, due.value + t.late, checked, cooled;
    }
    out := None;
  }

  /** A `416` that settles on its own: its total is authoritative, or end-of-stream is already
      confirmed. `None` leaves the ambiguity to a fresh mint. */
  function RefusalVerdict(known: Option<nat>, total: Option<U64>, offset: U64, retried: bool): Option<Outcome> {
    if total.Some? then
      Some(if (known.None? || known == Some(total.value)) && offset >= total.value then Eof(offset)
           else Failed(InvalidResponse))
    else if EofConfirmed(known, offset, retried) then Some(Eof(offset))
    else None
  }

  method Refused(s: SessionInner, total: Option<U64>, offset: U64, retried: bool, ghost res: seq<Byte>)
    returns (out: Option<Outcome>)
    requires s.Valid()
    modifies s`sh, s`readerNotes, s`permit, s.store`total, s.pool
    ensures s.Valid() && Onward(old(Now(s, res)), Now(s, res), true)
    ensures Learned(old(Now(s, res)), Now(s, res), Named(total))
    ensures out == RefusalVerdict(old(s.store.total), total, offset, retried)
    ensures out == Some(Eof(offset)) ==> retried || (s.store.total.Some? && s.store.total.value <= offset)
    ensures if total.Some? && (old(s.store.total).None? || old(s.store.total) == Some(total.value))
            then s.store.total == Some(total.value) && s.sh == old(s.sh).MarkEof(total.value)
            else s.store.total == old(s.store.total) && s.sh == old(s.sh)
  {
    hide Store.SparseStore.Valid, Store.SparseStore.Content, TrueTo;
    if total.Some? {
      var adopted := CheckTotal(s, total.value);
      if !adopted {
        return Some(Failed(InvalidResponse));
      }
      s.MarkEofBelow(total.value);
      return Some(if offset >= total.value then Eof(offset) else Failed(InvalidResponse));
    }
    out := if EofConfirmed(s.store.total, offset, retried) then Some(Eof(offset)) else None;
  }

  /** What one pass ends with: a verdict, or the counters the next pass starts from. */
  datatype Pass = Pass(out: Option<Outcome>, left: nat, retried: bool, minted: bool, core: PumpCore)

  predicate AnsweredWith(r: Result<FetchOutcome, StreamError>, status: nat) {
    r.Ok? && r.value.Status? && r.value.status == status
  }

  /** What to do with an answered, failed or refused request, given the total and the byte count
      known when the answer arrived. */
  function SettleVerdict(cfg: Config, core: PumpCore, committed: nat, known: Option<nat>, t: Turn,
                         r: Result<FetchOutcome, StreamError>, offset: U64, through: bool, left: nat,
                         retried: bool): Pass
  {
    if r.Ok? && r.value.Committed? then Pass(Some(Bytes), left, retried, false, core)
    else if AnsweredWith(r, 416) && RefusalVerdict(known, r.value.total, offset, retried).Some? then
      Pass(RefusalVerdict(known, r.value.total, offset, retried), left, retried, false, core)
    else if AnsweredWith(r, 416) || AnsweredWith(r, 403) then
      var (after, granted) := MintStep(core, committed, cfg);
      var (pinned, m) := MintVerdict(after, granted.Ok?, t.mint);
      if m.Err? then Pass(Some(MintEnds(m.error)), left, retried, granted.Ok?, pinned)
      else Pass(None, cfg.fetchRetries, retried || r.value.status == 416, true, pinned)
    else
      var e := if r.Err? then r.error else ClassifyStatus(r.value.status, r.value.retryAfterMs);
      var (out, left1) := RetryVerdict(e, left, t, through);
      Pass(out, left1, retried, false, core)
  }

  method Settle(s: SessionInner, t: Turn, r: Result<FetchOutcome, StreamError>, at: nat, offset: U64, through: bool,
                left: nat, retried: bool, ghost res: seq<Byte>)
    returns (p: Pass)
    requires s.Valid() && (r == Ok(Committed) ==> offset in s.store.Content())
    requires r.Ok? && r.value.Status? && r.value.total.Some? ==> AnsweredWith(r, 416)
    modifies s`sh, s`core, s`readerNotes, s`permit, s.store, s.pool
    ensures s.Valid() && Onward(old(Now(s, res)), Now(s, res), true)
    ensures Learned(old(Now(s, res)), Now(s, res), Relayed(r))
    ensures p == SettleVerdict(s.cfg, old(s.core), old(s.sh.committed), old(s.store.total), t, r, offset, through,
                               left, retried)
    ensures s.core == p.core && Paid(s.cfg, old(s.core), s.core, left, p)
    ensures p.retried ==> retried || (p.minted && AnsweredWith(r, 416))
    ensures p.out.Some? ==> Settled(Now(s, res), p, r, offset, through, retried)
    ensures if AnsweredWith(r, 429) && r.value.retryAfterMs.Some?
            then Staked(old(s.sh.notBefore), s.sh.notBefore, at + t.latency, r.value.retryAfterMs.value,
                        s.cfg.cooldownCap)
            else r.Ok? ==> s.sh.notBefore == old(s.sh.notBefore)
  {
    hide Store.SparseStore.Valid, Store.SparseStore.Content, TrueTo, MintStep, MintVerdict, PumpCore.Remaining,
      RetryVerdict, RefusalVerdict, Staked;
    if r.Ok? && r.value.Committed? {
      return Pass(Some(Bytes), left, retried, false, s.core);
    }
    if AnsweredWith(r, 416) {
      var out := Refused(s, r.value.total, offset, retried, res);
      RefusalMeans(old(s.store.total), r.value.total, offset, retried);
      if out.Some? {
        return Pass(out, left, retried, false, s.core);
      }
    }
    if AnsweredWith(r, 416) || AnsweredWith(r, 403) {
      var m, called := Remint(s, t.mint);
      return if m.Err? then Pass(Some(MintEnds(m.error)), left, retried, called, s.core)
             else Pass(None, s.cfg.fetchRetries, retried || r.value.status == 416, called, s.core);
    }
    var e := if r.Err? then r.error else ClassifyStatus(r.value.status, r.value.retryAfterMs);
    RetryMeans(e, left, t, through);
    var stop, left1 := RetryOrStall(s, e, left, t, at, through);
    return Pass(stop, left1, retried, false, s.core);
  }

  lemma RefusalMeans(known: Option<nat>, total: Option<U64>, offset: U64, retried: bool)
    ensures var out := RefusalVerdict(known, total, offset, retried);
            && (out.Some? ==> out.value in {Eof(offset), Failed(InvalidResponse)})
            && (out.None? ==> total.None? && !retried)
  {
  }

  lemma RetryMeans(e: StreamError, left: nat, t: Turn, through: bool)
    ensures var (out, left1) := RetryVerdict(e, left, t, through);
            && (out.None? ==> e.Transient? && left1 + 1 == left)
            && (out.Some? ==> match out.value
                              case Preempted => !through
                              case Stalled(x) => x == e && Stallable(x)
                              case Failed(x) => !Stallable(x)
                              case _ => false)
  {
  }

  /** Every pass pays: a retry out of the transient budget, a re-mint out of the session's. */
  ghost predicate Paid(cfg: Config, before: PumpCore, after: PumpCore, left: nat, p: Pass) {
    && before.mintsUsed <= after.mintsUsed
    && after.Remaining(cfg.mintBudget) + (if p.minted then 1 else 0) <= before.Remaining(cfg.mintBudget)
    && (p.minted ==> after.mintsUsed == before.mintsUsed + 1)
    && (p.out.None? ==> if p.minted then p.left == cfg.fetchRetries else p.left + 1 == left)
  }

  /** What each verdict means. */
  ghost predicate Settled(now: State, p: Pass, r: Result<FetchOutcome, StreamError>, offset: nat, through: bool,
                          retried: bool)
    requires p.out.Some?
  {
    match p.out.value
    case Bytes => offset in now.cover && r == Ok(Committed)
    case Eof(at) => at == offset && AnsweredWith(r, 416) && !p.minted
                    && (retried || (now.total.Some? && now.total.value <= offset))
    case Preempted => !through
    case Stalled(e) => Stallable(e)
    case Failed(e) => !Stallable(e)
  }

  /** The request of a pass and what is made of its answer, from the state the answer found. */
  function ExchangeVerdict(cfg: Config, core: PumpCore, mid: State, t: Turn, offset: U64, len: U64, through: bool,
                           left: nat, retried: bool): Pass
  {
    var cut := if t.reply.Dropped? then Interrupted(through, t.reply.winner) else None;
    if cut.Some? then Pass(cut, left, retried, false, core)
    else
      SettleVerdict(cfg, core, mid.sh.committed, mid.total, t, ReplyVerdict(mid.total, t.reply, offset, len), offset,
                    through, left, retried)
  }

  /** The session as a pass finds it: at its liveness check, at its look at the cooldown, and when the
      answer arrives. */
  datatype Looks = Looks(checked: State, cooled: State, answered: State)

  /** The whole pass, from what it found at each look. */
  function AttemptVerdict(cfg: Config, core: PumpCore, looks: Looks, t: Turn, offset: U64, len: U64, through: bool,
                          left: nat, retried: bool): Pass
  {
    var early := DepartVerdict(looks.checked.sh, looks.cooled.sh, t, through);
    if early.Some? then Pass(early, left, retried, false, core)
    else ExchangeVerdict(cfg, core, looks.answered, t, offset, len, through, left, retried)
  }

  /** The looks lie in order on the way from `a` to `b`. */
  ghost predicate OnTheWay(a: State, looks: Looks, b: State, bytesTrue: bool) {
    && Onward(a, looks.checked, bytesTrue) && Onward(looks.checked, looks.cooled, bytesTrue)
    && Onward(looks.cooled, looks.answered, bytesTrue) && Onward(looks.answered, b, bytesTrue)
  }

  method Exchange(s: SessionInner, t: Turn, at: nat, offset: U64, len: U64, through: bool, left: nat, retried: bool,
                  ghost res: seq<Byte>)
    returns (p: Pass, status: Option<nat>)
    requires s.Valid()
    modifies s`sh, s`core, s`readerNotes, s`headReady, s`permit, s.store, s.pool
    ensures s.Valid() && Onward(old(Now(s, res)), Now(s, res), ReplyTrue(t.reply, res))
    ensures Learned(old(Now(s, res)), Now(s, res), Told(t.reply))
    ensures p == ExchangeVerdict(s.cfg, old(s.core), old(Now(s, res)), t, offset, len, through, left, retried)
    ensures s.core == p.core && Paid(s.cfg, old(s.core), s.core, left, p)
    ensures status == if t.reply.NoAnswer? then None else Some(t.reply.resp.status)
    ensures p.retried ==> retried || (p.minted && status == Some(416))
    ensures p.out.Some? ==> Verdict(Now(s, res), p, status, offset, through, retried)
  {
    hide Onward, Learned, TrueTo, BodyTrueToRange, Told, Relayed, Named, Store.SparseStore.Content,
      Store.SparseStore.Valid, Paid, SettleVerdict, ReplyVerdict;
    ghost var first := Now(s, res);
    status := if t.reply.NoAnswer? then None else Some(t.reply.resp.status);
    var out, r := Send(s, t.reply, offset, len, through, res);
    ghost var third := Now(s, res);
    if out.Some? {
      p := Pass(out, left, retried, false, s.core);
      NothingPaid(s.cfg, s.core, left, p);
      return;
    }
    SettleLooks(s.cfg, s.core, s.sh.committed, first.sh.committed, s.store.total, first.total, t, r, offset, through,
                left, retried);
    p := Settle(s, t, r, at, offset, through, left, retried, res);
    OnwardWeaken(third, Now(s, res), true, ReplyTrue(t.reply, res));
    OnwardJoin(first, third, Now(s, res), ReplyTrue(t.reply, res));
    LearnedJoin(first, third, Now(s, res), Told(t.reply), Relayed(r));
    assert Told(t.reply) + Relayed(r) == Told(t.reply);
  }

  /** One pass of the loop. */
  method Attempt(s: SessionInner, t: Turn, offset: U64, len: U64, through: bool, left: nat, retried: bool,
                 ghost res: seq<Byte>)
    returns (p: Pass, sent: Option<Request>, heard: set<nat>, ghost looks: Looks)
    requires s.Valid()
    modifies s`sh, s`core, s`readerNotes, s`headReady, s`permit, s`teardown, s.store, s.pool
    ensures s.Valid()
    ensures Onward(old(Now(s, res)), Now(s, res), TurnTrue(t, res))
    ensures OnTheWay(old(Now(s, res)), looks, Now(s, res), TurnTrue(t, res))
    ensures Learned(old(Now(s, res)), Now(s, res), heard)
    ensures heard == TurnNames(t) + if sent.Some? then Told(t.reply) else {}
    ensures p == AttemptVerdict(s.cfg, old(s.core), looks, t, offset, len, through, left, retried) && s.core == p.core
    ensures Paid(s.cfg, old(s.core), s.core, left, p)
    ensures sent.Some? ==> sent.value.For(offset, len, old(s.core.mintsUsed))
    ensures sent.None? <==> DepartVerdict(looks.checked.sh, looks.cooled.sh, t, through).Some?
    ensures sent.Some? ==> sent.value.status == if t.reply.NoAnswer? then None else Some(t.reply.resp.status)
    ensures sent.None? ==> p.out.Some? && !p.minted
    ensures p.retried ==> retried || (p.minted && RefusedRequest(sent))
    ensures p.out.Some? ==> Verdict(Now(s, res), p, StatusOf(sent), offset, through, retried)
    ensures p.out.Some? && (p.out.value.Bytes? || p.out.value.Eof? || p.out.value.Stalled?) ==> sent.Some?
  {
    hide Onward, Learned, Now, TurnTrue, TurnNames, TrueAt, TrueTo, ReplyTrue, Told, Store.SparseStore.Content,
      Store.SparseStore.Valid, Paid, ExchangeVerdict, DepartVerdict;
    ghost var first := Now(s, res);
    var out, due, at;
    ghost var checked, cooled;
    out, due, at, checked, cooled := Depart(s, t, through, res);
    heard := TurnNames(t);
    if out.Some? {
      looks := Looks(checked, cooled, cooled);
      StillOnward(cooled, TurnTrue(t, res), {});
      p, sent := Pass(out, left, retried, false, s.core), None;
      NothingPaid(s.cfg, s.core, left, p);
      NoVerdictYet(Now(s, res), p, offset, through, retried);
      return;
    }
    ghost var left1 := Now(s, res);
    Meanwhile(s, t, t.flight, first, res);
    looks := Looks(checked, cooled, Now(s, res));
    OnwardJoin(cooled, left1, looks.answered, TurnTrue(t, res));
    var mint := s.core.mintsUsed;
    var status;
    p, status := Exchange(s, t, at, offset, len, through, left, retried, res);
    sent := Some(Request(offset, len, mint, due, at, status));
    ReplyPart(t, res);
    OnwardWeaken(looks.answered, Now(s, res), ReplyTrue(t.reply, res), TurnTrue(t, res));
    OnwardJoin(first, looks.answered, Now(s, res), TurnTrue(t, res));
    LearnedJoin(first, looks.answered, Now(s, res), heard, Told(t.reply));
    heard := heard + Told(t.reply);
  }

  lemma ReplyPart(t: Turn, res: seq<Byte>)
    ensures TurnTrue(t, res) ==> ReplyTrue(t.reply, res)
  {
  }

  /** What an attempt that sent nothing may say. */
  lemma NoVerdictYet(now: State, p: Pass, offset: nat, through: bool, retried: bool)
    requires p.out.Some? && (p.out.value.Preempted? || p.out.value.Failed?)
    requires p.out == Some(Preempted) ==> !through
    requires p.out.value.Failed? && now.sh.life.Live() ==> p.out.value.error == Cancelled
    ensures Verdict(now, p, None, offset, through, retried)
  {
  }

  function StatusOf(sent: Option<Request>): Option<nat> {
    if sent.Some? then sent.value.status else None
  }

  /** Only a status answer is settled on the total and the byte count. */
  lemma SettleLooks(cfg: Config, core: PumpCore, c0: nat, c1: nat, k0: Option<nat>, k1: Option<nat>, t: Turn,
                    r: Result<FetchOutcome, StreamError>, offset: U64, through: bool, left: nat, retried: bool)
    requires r.Ok? && r.value.Status? ==> c0 == c1 && k0 == k1
    ensures SettleVerdict(cfg, core, c0, k0, t, r, offset, through, left, retried)
            == SettleVerdict(cfg, core, c1, k1, t, r, offset, through, left, retried)
  {
  }

  lemma NothingPaid(cfg: Config, core: PumpCore, left: nat, p: Pass)
    requires p.out.Some? && !p.minted
    ensures Paid(cfg, core, core, left, p)
  {
  }

  predicate RefusedRequest(sent: Option<Request>) {
    sent.Some? && sent.value.status == Some(416)
  }

  /** What a verdict of the cycle means, in terms of what the wire answered. */
  ghost predicate Verdict(now: State, p: Pass, status: Option<nat>, offset: nat, through: bool, retried: bool)
    requires p.out.Some?
  {
    match p.out.value
    case Bytes => offset in now.cover && status == Some(206)
    case Eof(at) => at == offset && status == Some(416) && !p.minted
                    && (retried || (now.total.Some? && now.total.value <= offset))
    case Preempted => !through
    case Stalled(e) => Stallable(e)
    case Failed(e) => now.sh.life.Live() ==> !Stallable(e)
  }
}
