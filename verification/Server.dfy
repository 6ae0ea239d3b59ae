/** The loopback server's replies: status, advertised bounds and streamed body, over any seam
    whose reads are true to a resource. */
module Server {
  import opened Prelude
  import opened Wire

  const READ_CHUNK: nat := 256 * 1024

  /** The `k`-th read of the connection, at a position, for at most so many bytes. */
  type Reads = (nat, nat, nat) -> Result<seq<Byte>, StreamError>

  /** A read that succeeds is a non-empty slice of the resource where asked, or empty at or past
      its end. */
  ghost predicate TrueRead(bytes: seq<Byte>, pos: nat, want: nat, res: seq<Byte>) {
    && |bytes| <= want
    && (bytes == [] ==> pos >= |res|)
    && (bytes != [] ==> pos + |bytes| <= |res| && bytes == res[pos..pos + |bytes|])
  }

  ghost predicate TrueReads(read: Reads, res: seq<Byte>) {
    forall k: nat, pos: nat, want: nat {:trigger read(k, pos, want)} ::
      want > 0 && read(k, pos, want).Ok? ==> TrueRead(read(k, pos, want).value, pos, want, res)
  }

  datatype Verb = GET | HEAD | Other

  /** The seam as one request meets it: the total before and after the first read, whether the
      session has ended, and what attaching answers. */
  datatype Seam = Seam(
    hinted: Result<Option<U64>, StreamError>,
    ended: Option<StreamError>,
    attach: Option<StreamError>,
    reattach: Option<StreamError>,
    latest: Option<U64>)

  datatype Reply = Reply(status: nat, contentLength: Option<nat>, contentRange: Option<string>, body: seq<Byte>)

  /** A reply that is only a status promises an empty body. */
  function Bare(status: nat): Reply {
    Reply(status, Some(0), None, [])
  }

  function Unsatisfied(total: Option<nat>): Reply {
    Reply(416, Some(0), Some(UnsatisfiedRange(total)), [])
  }

  function StatusFor(e: StreamError): nat {
    match e
    case NotFound => 404
    case Cancelled => 410
    case Released => 410
    case Superseded => 410
    case Evicted => 410
    case Expired => 410
    case Transient => 503
    case AuthRequired => 503
    case RateLimited(_) => 502
    case StreamsCapped => 502
    case InvalidResponse => 502
    case ProviderWall => 502
    case Internal => 500
  }

  /** Unknown handles are not found, retired sessions gone, waits are retried, our own faults ours, and the
      rest the provider's. */
  lemma StatusGroups(e: StreamError)
    ensures StatusFor(e) == 404 <==> e.NotFound?
    ensures StatusFor(e) == 410 <==> e in {Cancelled, Released, Superseded, Evicted, Expired}
    ensures StatusFor(e) == 503 <==> e in {Transient, AuthRequired}
    ensures StatusFor(e) == 500 <==> e.Internal?
    ensures StatusFor(e) == 502 <==> e.RateLimited? || e in {StreamsCapped, InvalidResponse, ProviderWall}
  {
  }

  /** The head of a reply that serves `[start, end]`, or to the end when there is no bound. */
  function Headed(ranged: bool, start: nat, end: Option<nat>, total: Option<nat>): Reply
    requires end.Some? ==> start <= end.value
  {
    Reply(if ranged then 206 else 200,
          if end.Some? then Some(end.value - start + 1) else if total == Some(0) then Some(0) else None,
          if ranged then
            Some(ContentRange(start, if end.Some? then end.value else start, if total.Some? then total.value else 0))
          else None,
          [])
  }

  /** Where to probe before the bounds are settled: the range's own start when it lies inside
      the hinted bounds, else just before the hinted end. */
  function Provisional(range: Option<RangeSpec>, hinted: Option<nat>): nat {
    match range
    case Some(Interval(s, _)) => if hinted.Some? then Min(s, Max(hinted.value - 1, 0)) else s
    case Some(From(s)) => if hinted.Some? then Min(s, Max(hinted.value - 1, 0)) else s
    case Some(Suffix(n)) => if hinted.Some? then Max(hinted.value - n, 0) else 0
    case _ => 0
  }

  /** The bounds a request is served with. */
  function Bounds(range: Option<RangeSpec>, total: Option<U64>): Result<(nat, Option<nat>), nat> {
    match range
    case None => Ok((0, if total.Some? && total.value > 0 then Some(total.value - 1) else None))
    case Some(spec) =>
      match ResolveRange(spec, total)
      case Ok((s, e)) => Ok((s, Some(e)))
      case Err(status) => Err(status)
  }

  lemma BoundsOrdered(range: Option<RangeSpec>, total: Option<U64>)
    requires Bounds(range, total).Ok?
               && (range.Some? && range.value.Interval? ==> range.value.first <= range.value.last)
    requires range.Some? && range.value.Suffix? ==> range.value.count > 0
    ensures var (start, end) := Bounds(range, total).value;
            (end.Some? ==> start <= end.value && total.Some? && end.value < total.value)
            && (range.Some? ==> end.Some?) && (range.None? ==> start == 0)
  {
    if range.Some? {
      ResolveExact(range.value, total);
    }
  }

  /** What is left of a span from `pos`, at most one chunk. */
  function Want(pos: nat, end: Option<nat>): nat {
    if end.Some? && pos <= end.value then Min(end.value - pos + 1, READ_CHUNK) else READ_CHUNK
  }

  /** What a write that fails part-way still delivered. */
  function Sent(piece: seq<Byte>, fault: Option<nat>): (sent: seq<Byte>)
    ensures sent <= piece && (fault.None? ==> sent == piece)
  {
    if fault.Some? && fault.value < |piece| then piece[..fault.value] else piece
  }

  /** The body so far is the resource from `start` on. */
  ghost predicate PrefixAt(body: seq<Byte>, start: nat, res: seq<Byte>) {
    body != [] ==> start + |body| <= |res| && body == res[start..start + |body|]
  }

  lemma NothingSent(start: nat, res: seq<Byte>)
    ensures PrefixAt([], start, res)
  {
  }

  lemma PrefixGrows(body: seq<Byte>, start: nat, piece: seq<Byte>, want: nat, fault: Option<nat>, res: seq<Byte>)
    requires PrefixAt(body, start, res) && TrueRead(piece, start + |body|, want, res)
    ensures PrefixAt(body + Sent(piece, fault), start, res)
  {
    var sent, pos := Sent(piece, fault), start + |body|;
    if sent != [] {
      assert sent == res[pos..pos + |sent|];
      if body != [] {
        assert res[start..pos] + res[pos..pos + |sent|] == res[start..pos + |sent|];
      }
    }
  }

  lemma FirstIsPrefix(first: seq<Byte>, start: nat, end: Option<nat>, fault: Option<nat>, res: seq<Byte>)
    requires TrueRead(first, start, |first|, res) && (end.Some? ==> start <= end.value)
    ensures PrefixAt(Sent(Clip(first, start, end), fault), start, res)
    ensures Clip(first, start, end) == [] ==> start >= |res|
    ensures end.Some? ==> |Clip(first, start, end)| <= end.value - start + 1
  {
  }

  /** A prefix that stops at neither end is not the whole. */
  lemma WholeBody(body: seq<Byte>, start: nat, end: Option<nat>, res: seq<Byte>)
    requires PrefixAt(body, start, res) && (end.Some? ==> start <= end.value && |body| <= end.value - start + 1)
    requires start + |body| >= |res| || (end.Some? && start + |body| == end.value + 1)
    ensures end.Some? && end.value < |res| ==> body == res[start..end.value + 1]
    ensures (end.None? || end.value >= |res|) && start <= |res| ==> body == res[start..]
  {
  }

  /** Nothing fails: no read, no write. */
  ghost predicate NoFaults(read: Reads, sink: nat -> Option<nat>) {
    && (forall k: nat :: sink(k).None?)
    && (forall k: nat, pos: nat, want: nat {:trigger read(k, pos, want)} :: read(k, pos, want).Ok?)
  }

  /** The copy loop, from the first read onwards. `sink` says which writes to the client fail,
      and after how many bytes; `whole` is whether nothing failed. */
  method Stream(read: Reads, sink: nat -> Option<nat>, k0: nat, first: seq<Byte>, start: nat, end: Option<nat>,
                ghost res: seq<Byte>)
    returns (body: seq<Byte>, whole: bool)
    requires TrueReads(read, res) && (end.Some? ==> start <= end.value)
    requires TrueRead(first, start, |first|, res)
    ensures PrefixAt(body, start, res)
    ensures end.Some? ==> |body| <= end.value - start + 1
    ensures whole && end.Some? && end.value < |res| ==> body == res[start..end.value + 1]
    ensures whole && (end.None? || end.value >= |res|) && start <= |res| ==> body == res[start..]
    ensures whole && first != [] ==> body != []
    ensures NoFaults(read, sink) ==> whole
  {
    hide PrefixAt, TrueReads, Sent, Clip;
    var piece := Clip(first, start, end);
    FirstIsPrefix(first, start, end, sink(0), res);
    body := Sent(piece, sink(0));
    if sink(0).Some? {
      return body, false;
    }
    var k: nat := 0;
    var open := true;
    whole := true;
    while open && (end.None? || start + |body| <= end.value)
      invariant PrefixAt(body, start, res)
      invariant end.Some? ==> |body| <= end.value - start + 1
      invariant open ==> whole
      invariant NoFaults(read, sink) ==> whole
      invariant !open && whole ==> start + |body| >= |res|
      invariant |body| >= |piece|
      decreases open, if start + |body| <= |res| then |res| - start - |body| else 0
    {
      var pos := start + |body|;
      var want := Want(pos, end);
      var r := read(k0 + k, pos, want);
      ReadIsTrue(read, res, k0 + k, pos, want);
      if r.Err? {
        open, whole := false, false;
      } else if r.value == [] {
        open := false;
      } else {
        PrefixGrows(body, start, r.value, want, sink(k + 1), res);
        body := body + Sent(r.value, sink(k + 1));
        if sink(k + 1).Some? {
          open, whole := false, false;
        }
      }
      k := k + 1;
    }
    if whole {
      WholeBody(body, start, end, res);
    }
  }

  lemma ReadIsTrue(read: Reads, res: seq<Byte>, k: nat, pos: nat, want: nat)
    requires TrueReads(read, res) && want > 0
    ensures read(k, pos, want).Ok? ==> TrueRead(read(k, pos, want).value, pos, want, res)
  {
  }

  /** The part of the first read that lies inside the span. */
  function Clip(first: seq<Byte>, start: nat, end: Option<nat>): (piece: seq<Byte>)
    requires end.Some? ==> start <= end.value
    ensures piece <= first && (end.None? ==> piece == first) && (first != [] ==> piece != [])
    ensures end.Some? ==> |piece| == Min(end.value - start + 1, |first|)
  {
    if end.Some? && end.value - start + 1 < |first| then first[..end.value - start + 1] else first
  }

  // ---- a whole request ---------------------------------------------------------------------

  /** A parsed range is well-formed unless it says otherwise. */
  lemma ParsedIsProper(header: string)
    ensures var r := ParseRange(header);
            && (r.Some? && r.value.Interval? ==> r.value.first <= r.value.last)
            && (r.Some? && r.value.Suffix? ==> r.value.count > 0)
  {
  }

  /** The total the bounds are settled on: the freshest, else the hint. */
  function Settled(seam: Seam): Option<U64> {
    if seam.latest.Some? then seam.latest else if seam.hinted.Ok? then seam.hinted.value else None
  }

  function RangeOf(header: Option<string>): Option<RangeSpec> {
    if header.Some? then ParseRange(header.value) else None
  }

  /** The reply a GET is turned away with, if it is: at the attach, at the probe read, on the
      settled bounds, at the re-read, or because the range turns out to hold nothing. */
  function TurnedAway(range: Option<RangeSpec>, seam: Seam, read: Reads): Option<Reply> {
    var hinted := if seam.hinted.Ok? then seam.hinted.value else None;
    var provisional := Provisional(range, hinted);
    var first := read(0, provisional, READ_CHUNK);
    var total := Settled(seam);
    if seam.attach.Some? then Some(Bare(StatusFor(seam.attach.value)))
    else if first.Err? then Some(Bare(StatusFor(first.error)))
    else
      match Bounds(range, total)
      case Err(_) => Some(Unsatisfied(total))
      case Ok((start, end)) =>
        if start == provisional then
          if first.value == [] && range.Some? then Some(Unsatisfied(total)) else None
        else if seam.reattach.Some? then Some(Bare(StatusFor(seam.reattach.value)))
        else
          var again := read(1, start, Want(start, end));
          if again.Err? then Some(Bare(StatusFor(again.error)))
          else if again.value == [] && range.Some? then Some(Unsatisfied(total))
          else None
  }

  /** A failure of the seam is what the client is told, in the order the seam is used: the attach, the probe
      read, and where the range turns out to start elsewhere, the second attach and the second read. */
  lemma FailuresSurface(range: Option<RangeSpec>, seam: Seam, read: Reads)
    ensures seam.attach.Some? ==> TurnedAway(range, seam, read) == Some(Bare(StatusFor(seam.attach.value)))
    ensures var provisional := Provisional(range, if seam.hinted.Ok? then seam.hinted.value else None);
            var first := read(0, provisional, READ_CHUNK);
            seam.attach.None? ==>
              && (first.Err? ==> TurnedAway(range, seam, read) == Some(Bare(StatusFor(first.error))))
              && (first.Ok? && Bounds(range, Settled(seam)).Ok?
                  && Bounds(range, Settled(seam)).value.0 != provisional ==>
                    var (start, end) := Bounds(range, Settled(seam)).value;
                    var again := read(1, start, Want(start, end));
                    && (seam.reattach.Some? ==>
                          TurnedAway(range, seam, read) == Some(Bare(StatusFor(seam.reattach.value))))
                    && (seam.reattach.None? && again.Err? ==>
                          TurnedAway(range, seam, read) == Some(Bare(StatusFor(again.error)))))
  {
    hide ResolveRange;
  }

  /** What answers before any GET work: method, grant, session, malformed or empty. */
  function AnsweredEarly(verb: Verb, granted: bool, range: Option<RangeSpec>, seam: Seam): Option<Reply> {
    if verb.Other? then Some(Bare(405))
    else if !granted then Some(Bare(404))
    else if seam.hinted.Err? then Some(Bare(StatusFor(seam.hinted.error)))
    else if seam.ended.Some? then Some(Bare(StatusFor(seam.ended.value)))
    else if range == Some(Invalid) then Some(Unsatisfied(seam.hinted.value))
    else if seam.hinted.value == Some(0) then
      Some(if range.Some? then Unsatisfied(Some(0)) else Headed(false, 0, None, Some(0)))
    else None
  }

  /** A reply that carries a body advertises exactly the resolved bounds and sends a prefix of
      what they select; all of it when nothing failed and the resource reaches that far. */
  ghost predicate Faithful(reply: Reply, whole: bool, range: Option<RangeSpec>, total: Option<U64>, res: seq<Byte>) {
    Bounds(range, total).Ok? &&
    var (start, end) := Bounds(range, total).value;
    && (end.Some? ==> start <= end.value)
    && reply == Headed(range.Some?, start, end, total).(body := reply.body)
    && PrefixAt(reply.body, start, res)
    && (end.Some? ==> reply.contentLength == Some(end.value - start + 1) && |reply.body| <= end.value - start + 1)
    && (whole && end.Some? && end.value < |res| ==> reply.body == res[start..end.value + 1])
    && (whole && (end.None? || end.value >= |res|) && start <= |res| ==> reply.body == res[start..])
  }

  /** A partial reply in the numbers of the request it answers: it serves `[start, end]` of `total`. */
  ghost predicate Spans(reply: Reply, whole: bool, start: nat, end: int, total: nat, res: seq<Byte>) {
    && start <= end < total
    && reply.contentLength == Some(end - start + 1) && reply.contentRange == Some(ContentRange(start, end, total))
    && |reply.body| <= end - start + 1 && PrefixAt(reply.body, start, res)
    && (whole && end < |res| ==> reply.body == res[start..end + 1])
  }

  /** Which bytes a partial reply serves, for every form of range there is. */
  ghost predicate SpansAsked(header: Option<string>, reply: Reply, whole: bool, total: Option<U64>, res: seq<Byte>) {
    && total.Some?
    && (forall s: U64 :: header == Some(FromHeader(s)) ==> Spans(reply, whole, s, total.value - 1, total.value, res))
    && (forall n: U64 :: header == Some(SuffixHeader(n)) ==>
          n > 0 && Spans(reply, whole, Max(total.value - n, 0), total.value - 1, total.value, res))
    && (forall a: U64, b: U64 :: header == Some(IntervalHeader(a, b)) ==>
          a <= b && Spans(reply, whole, a, Min(b, total.value - 1), total.value, res))
  }

  /** A hint that is right spares the second read: the probe is where the range starts. */
  lemma ProbeIsStart(range: Option<RangeSpec>, total: U64)
    requires Bounds(range, Some(total)).Ok?
    requires range.Some? && range.value.Suffix? ==> range.value.count > 0
    ensures Provisional(range, Some(total)) == Bounds(range, Some(total)).value.0
  {
  }

  /** A seam that hides nothing: the session is live, every read succeeds, and the first one settles the
      true length. */
  ghost predicate Open(granted: bool, seam: Seam, read: Reads, res: seq<Byte>) {
    && granted && seam.hinted.Ok? && seam.hinted.value != Some(0) && seam.ended.None?
    && seam.attach.None? && seam.reattach.None? && seam.latest == Some(|res|)
    && (forall k: nat, pos: nat, want: nat {:trigger read(k, pos, want)} :: read(k, pos, want).Ok?)
  }

  /** The range, if there is one, asks for something the resource has. */
  ghost predicate Asks(range: Option<RangeSpec>, res: seq<Byte>) {
    range.Some? ==> exists p: nat :: Selects(range.value, |res|, p)
  }

  /** Through such a seam no request that asks for something is turned away. */
  lemma OpenIsServed(header: Option<string>, granted: bool, seam: Seam, read: Reads, res: seq<Byte>)
    requires TrueReads(read, res)
    ensures Open(granted, seam, read, res) && Asks(RangeOf(header), res) ==>
              AnsweredEarly(GET, granted, RangeOf(header), seam).None? && TurnedAway(RangeOf(header), seam, read).None?
  {
    hide ParseRange;
    var range := RangeOf(header);
    if !Open(granted, seam, read, res) || !Asks(range, res) {
      return;
    }
    var provisional := Provisional(range, seam.hinted.value);
    if header.Some? {
      ParsedIsProper(header.value);
    }
    if range.Some? {
      ResolveExact(range.value, Some(|res|));
      var (start, end) := ResolveRange(range.value, Some(|res|)).value;
      ReadIsTrue(read, res, 0, provisional, READ_CHUNK);
      ReadIsTrue(read, res, 1, start, Want(start, Some(end)));
    }
  }

  /** A plain reply in numbers: it promises the whole of the total it settled on, none if there is none,
      and sends the resource from its first byte. */
  ghost predicate Plain(reply: Reply, whole: bool, total: Option<U64>, res: seq<Byte>) {
    && reply.contentLength == total && reply.contentRange.None? && PrefixAt(reply.body, 0, res)
    && (whole && (total.None? || total.value == 0 || total.value >= |res|) ==> reply.body == res)
    && (whole && total.Some? && 0 < total.value <= |res| ==> reply.body == res[..total.value])
  }

  lemma FaithfulPlain(reply: Reply, whole: bool, total: Option<U64>, res: seq<Byte>)
    requires Faithful(reply, whole, None, total, res)
    ensures Plain(reply, whole, total, res)
  {
    assert res[0..] == res;
  }

  lemma TurnedAwayBare(range: Option<RangeSpec>, seam: Seam, read: Reads)
    ensures TurnedAway(range, seam, read).Some? ==> TurnedAway(range, seam, read).value.status >= 400
  {
  }

  lemma HeadIsFaithful(range: Option<RangeSpec>, total: Option<U64>, res: seq<Byte>)
    requires Bounds(range, total).Ok?
    requires range.Some? && range.value.Interval? ==> range.value.first <= range.value.last
    requires range.Some? && range.value.Suffix? ==> range.value.count > 0
    ensures var (start, end) := Bounds(range, total).value;
            && (end.Some? ==> start <= end.value)
            && Faithful(Headed(range.Some?, start, end, total), false, range, total, res)
  {
    BoundsOrdered(range, total);
  }

  lemma FaithfulSpans(header: Option<string>, reply: Reply, whole: bool, total: Option<U64>, res: seq<Byte>)
    requires Faithful(reply, whole, RangeOf(header), total, res) && reply.status == 206
    ensures SpansAsked(header, reply, whole, total, res)
  {
    hide ParseRange, FromHeader, SuffixHeader, IntervalHeader, ContentRange, PrefixAt;
    forall s: U64 { FromRoundTrip(s); }
    forall n: U64 { SuffixRoundTrip(n); }
    forall a: U64, b: U64 { IntervalRoundTrip(a, b); }
  }

  /** One request, from its verb to the last body byte. A head that cannot be written (`deaf`) ends the
      connection before any body. */
  method Respond(verb: Verb, granted: bool, header: Option<string>, seam: Seam, read: Reads, deaf: bool,
                 sink: nat -> Option<nat>, ghost res: seq<Byte>)
    returns (reply: Reply, whole: bool)
    requires TrueReads(read, res)
    ensures AnsweredEarly(verb, granted, RangeOf(header), seam).Some? ==>
              reply == AnsweredEarly(verb, granted, RangeOf(header), seam).value
    ensures AnsweredEarly(verb, granted, RangeOf(header), seam).None? && verb.HEAD? ==>
              match Bounds(RangeOf(header), seam.hinted.value)
              case Err(_) => reply == Unsatisfied(seam.hinted.value)
              case Ok((start, end)) =>
                if seam.attach.Some? then reply == Bare(StatusFor(seam.attach.value))
                else
                  && (end.Some? ==> start <= end.value)
                  && reply == Headed(RangeOf(header).Some?, start, end, seam.hinted.value)
    ensures AnsweredEarly(verb, granted, RangeOf(header), seam).None? && verb.GET? ==>
              if TurnedAway(RangeOf(header), seam, read).Some?
              then reply == TurnedAway(RangeOf(header), seam, read).value
              else Faithful(reply, whole, RangeOf(header), Settled(seam), res)
    ensures verb.Other? ==> reply.status == 405
    ensures !verb.Other? && !granted ==> reply.status == 404
    ensures !verb.Other? && granted && seam.hinted.Ok? && seam.ended.Some? ==>
              reply.status == StatusFor(seam.ended.value) && reply.contentLength == Some(0) && reply.body == []
    ensures !verb.Other? && granted && seam.hinted.Ok? && seam.ended.None? && RangeOf(header) == Some(Invalid) ==>
              reply == Reply(416, Some(0), Some(UnsatisfiedRange(seam.hinted.value)), [])
    ensures NoFaults(read, sink) && !deaf ==> whole
    ensures deaf ==> !whole && reply.body == []
    ensures reply.body != [] ==> verb.GET? && (reply.status == 200 || reply.status == 206)
    ensures reply.status == 206 ==> RangeOf(header).Some? && reply.contentRange.Some?
    ensures reply.status == 416 ==> RangeOf(header).Some?
    ensures verb.GET? && reply.status == 206 && whole ==> reply.body != []
    ensures reply.status == 206 ==>
              SpansAsked(header, reply, whole && verb.GET?,
                         if verb.HEAD? then seam.hinted.value else Settled(seam), res)
    ensures reply.status == 200 ==>
              && seam.hinted.Ok? && !RangeOf(header).Some?
              && (seam.hinted.value == Some(0) ==> reply.contentLength == Some(0) && reply.body == [])
              && (seam.hinted.value != Some(0) ==>
                    Plain(reply, whole && verb.GET?, if verb.HEAD? then seam.hinted.value else Settled(seam), res))
    ensures verb.GET? && Open(granted, seam, read, res) && Asks(RangeOf(header), res) ==>
              reply.status == if RangeOf(header).Some? then 206 else 200
  {
    hide TrueReads, TrueRead, ParseRange, PrefixAt, ResolveRange, ContentRange, UnsatisfiedRange, Sent, Clip;
    whole := !deaf;
    if verb.Other? {
      return Bare(405), whole;
    }
    if !granted {
      return Bare(404), whole;
    }
    if seam.hinted.Err? {
      return Bare(StatusFor(seam.hinted.error)), whole;
    }
    if seam.ended.Some? {
      return Bare(StatusFor(seam.ended.value)), whole;
    }
    var hinted := seam.hinted.value;
    var range := RangeOf(header);
    if header.Some? {
      ParsedIsProper(header.value);
    }
    if range == Some(Invalid) {
      return Unsatisfied(hinted), whole;
    }
    if hinted == Some(0) {
      return if range.Some? then Unsatisfied(Some(0)) else Headed(false, 0, None, Some(0)), whole;
    }
    if verb.HEAD? {
      var bounds := Bounds(range, hinted);
      if bounds.Err? {
        return Unsatisfied(hinted), whole;
      }
      if seam.attach.Some? {
        return Bare(StatusFor(seam.attach.value)), whole;
      }
      BoundsOrdered(range, hinted);
      reply := Headed(range.Some?, bounds.value.0, bounds.value.1, hinted);
      HeadIsFaithful(range, hinted, res);
      if range.Some? {
        FaithfulSpans(header, reply, false, hinted, res);
      } else {
        FaithfulPlain(reply, false, hinted, res);
      }
      return;
    }
    reply, whole := Get(range, seam, read, deaf, sink, res);
    OpenIsServed(header, granted, seam, read, res);
    TurnedAwayBare(range, seam, read);
    if reply.status == 206 {
      FaithfulSpans(header, reply, whole, Settled(seam), res);
    } else if reply.status == 200 {
      FaithfulPlain(reply, whole, Settled(seam), res);
    }
  }

  /** A GET, once its range is known to be well-formed and the hint is not zero. */
  method Get(range: Option<RangeSpec>, seam: Seam, read: Reads, deaf: bool, sink: nat -> Option<nat>,
             ghost res: seq<Byte>)
    returns (reply: Reply, whole: bool)
    requires TrueReads(read, res) && seam.hinted.Ok? && seam.hinted != Ok(Some(0))
    requires range.Some? && range.value.Interval? ==> range.value.first <= range.value.last
    requires range.Some? && range.value.Suffix? ==> range.value.count > 0
    ensures reply.body != [] ==> reply.status == 200 || reply.status == 206
    ensures reply.status == 206 ==> range.Some? && reply.contentRange.Some?
    ensures reply.status == 416 ==> range.Some?
    ensures if TurnedAway(range, seam, read).Some? then reply == TurnedAway(range, seam, read).value
            else Faithful(reply, whole, range, Settled(seam), res)
    ensures NoFaults(read, sink) && !deaf ==> whole
    ensures deaf ==> !whole && reply.body == []
    ensures reply.status == 206 && whole ==> reply.body != []
  {
    hide TrueReads, TrueRead, PrefixAt, ResolveRange, ContentRange, UnsatisfiedRange, Sent, Clip;
    var provisional := Provisional(range, seam.hinted.value);
    if seam.attach.Some? {
      return Bare(StatusFor(seam.attach.value)), !deaf;
    }
    var first := read(0, provisional, READ_CHUNK);
    ReadIsTrue(read, res, 0, provisional, READ_CHUNK);
    if first.Err? {
      return Bare(StatusFor(first.error)), !deaf;
    }
    var total := Settled(seam);
    var bounds := Bounds(range, total);
    if bounds.Err? {
      return Unsatisfied(total), !deaf;
    }
    BoundsOrdered(range, total);
    var (start, end) := bounds.value;
    if start != provisional {
      if seam.reattach.Some? {
        return Bare(StatusFor(seam.reattach.value)), !deaf;
      }
      first := read(1, start, Want(start, end));
      ReadIsTrue(read, res, 1, start, Want(start, end));
      if first.Err? {
        return Bare(StatusFor(first.error)), !deaf;
      }
    }
    if first.value == [] && range.Some? {
      return Unsatisfied(total), !deaf;
    }
    reply := Headed(range.Some?, start, end, total);
    if deaf {
      NothingSent(start, res);
      return reply, false;
    }
    SliceIsTrue(first.value, start, READ_CHUNK, res);
    var body;
    body, whole := Stream(read, sink, 2, first.value, start, end, res);
    reply := reply.(body := body);
  }

  lemma SliceIsTrue(bytes: seq<Byte>, pos: nat, want: nat, res: seq<Byte>)
    requires TrueRead(bytes, pos, want, res) || exists w :: TrueRead(bytes, pos, w, res)
    ensures TrueRead(bytes, pos, |bytes|, res)
  {
  }

  /** The advertised length is never exceeded, but for one reply: an unranged one whose settled
      total is zero promises an empty body and then streams to the end of the resource. */
  lemma LengthKept(reply: Reply, whole: bool, range: Option<RangeSpec>, total: Option<U64>, res: seq<Byte>)
    requires Faithful(reply, whole, range, total, res) && reply.contentLength.Some?
    ensures !(range.None? && total == Some(0)) ==> |reply.body| <= reply.contentLength.value
    ensures whole && range.None? && total == Some(0) ==> (|reply.body| <= reply.contentLength.value <==> res == [])
  {
    var (start, end) := Bounds(range, total).value;
    if whole && range.None? && total == Some(0) {
      assert res[0..] == res;
    }
  }

  /** A one-byte resource, read truly. */
  function OneByte(k: nat, pos: nat, want: nat): Result<seq<Byte>, StreamError> {
    Ok(if pos == 0 && want > 0 then [7] else [])
  }

  /** That reply exists: one byte behind a re-minted hint of zero is served whole under a promised
      length of zero. */
  lemma ZeroPromiseBroken(reply: Reply)
    requires Faithful(reply, true, None, Some(0), [7])
    ensures TrueReads(OneByte, [7])
    ensures TurnedAway(None, Seam(Ok(None), None, None, None, Some(0)), OneByte).None?
    ensures Settled(Seam(Ok(None), None, None, None, Some(0))) == Some(0)
    ensures reply.contentLength == Some(0) && reply.body == [7]
  {
    var res: seq<Byte> := [7];
    assert res[0..] == res;
  }
}
