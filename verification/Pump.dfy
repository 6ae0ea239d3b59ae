/** The pump's fetch cycle: one range request driven into piecewise commits, and the
    loop of retries and re-mints around it, against any server at all. */
module Pump {
  import opened Prelude
  import opened Extents
  import opened SessionState
  import opened SessionObjects
  import Store = SparseStore
  import Wire

  // ---- what the wire may deliver ---------------------------------------------------

  /** One item of a body stream. `disk` is a store write that fails after that many bytes. */
  datatype Piece = Chunk(bytes: seq<Byte>, disk: Option<nat>) | Broken(error: StreamError)

  datatype Response = Response(
    status: nat,
    contentRange: Option<string>,
    retryAfterMs: Option<nat>,
    body: seq<Piece>)

  /** The bytes a body delivers before it breaks. */
  function Delivered(body: seq<Piece>): seq<Byte> {
    if body == [] || body[0].Broken? then [] else body[0].bytes + Delivered(body[1..])
  }

  /** The resource has byte `b` at `p`. */
  ghost predicate Has(res: seq<Byte>, p: nat, b: Byte) {
    p < |res| && res[p] == b
  }

  /** What a body delivers inside a declared span is true to the resource. */
  ghost predicate SpanTrue(body: seq<Piece>, offset: nat, declared: nat, res: seq<Byte>) {
    forall i :: 0 <= i < |Delivered(body)| && i < declared ==>
      Has(res, offset + i, Delivered(body)[i])
  }

  /** A 206 whose body is true to its declared range, however it is framed. */
  ghost predicate BodyTrueToRange(resp: Response, res: seq<Byte>) {
    resp.status == 206 && resp.contentRange.Some? && Wire.ParseContentRange(resp.contentRange.value).Some? ==>
      var (start, end, _) := Wire.ParseContentRange(resp.contentRange.value).value;
      start <= end ==> SpanTrue(resp.body, start, end - start + 1, res)
  }

  ghost predicate TrueTo(content: map<nat, Byte>, res: seq<Byte>) {
    forall p :: p in content ==> Has(res, p, content[p])
  }

  /** What a range request produced once its headers arrived. */
  datatype FetchOutcome = Committed | Status(status: nat, total: Option<U64>, retryAfterMs: Option<nat>)

  // ---- one range request -------------------------------------------------------------

  /** Drive one response: validate the range before trusting a byte, then commit each piece
      as it lands, never past the declared span. */
  method DriveFetch(s: SessionInner, resp: Response, offset: U64, len: U64, ghost res: seq<Byte>)
    returns (r: Result<FetchOutcome, StreamError>)
    requires s.Valid()
    modifies s`sh, s`readerNotes, s`headReady, s.store
    ensures s.Valid()
    ensures TrueTo(old(s.store.Content()), res) && BodyTrueToRange(resp, res) ==> TrueTo(s.store.Content(), res)
    ensures old(s.store.Content()).Keys <= s.store.Content().Keys
    ensures s.store.Content().Keys <= old(s.store.Content()).Keys + Span(offset, offset + len)
    ensures s.store.Content().Keys <= old(s.store.Content()).Keys + Span(offset, offset + |Delivered(resp.body)|)
    ensures r == Ok(Committed) ==> resp.status == 206 && offset in s.store.Content()
    ensures r.Ok? && r.value.Status? ==>
              && resp.status != 206 && r.value.status == resp.status && r.value.retryAfterMs == resp.retryAfterMs
              && r.value.total == (if resp.status == 416 && resp.contentRange.Some?
                                   then Wire.UnsatisfiedTotal(resp.contentRange.value) else None)
    ensures resp.status != 206 ==>
              r.Ok? && r.value.Status? && s.sh == old(s.sh) && s.store.Content() == old(s.store.Content())
    ensures s.store.total == old(s.store.total)
            || (old(s.store.total).None? && s.store.total == ReportedTotal(resp))
    ensures s.sh == old(s.sh).(committed := s.sh.committed) && s.sh.committed >= old(s.sh.committed)
    ensures r == DriveVerdict(old(s.store.total), resp, offset, len)
    ensures r == Ok(Committed) ==>
              var head := Wire.ValidateHead(old(s.store.total), resp.contentRange, offset, len);
              && head.Ok?
              && s.store.Content().Keys == old(s.store.Content()).Keys + Span(offset, offset + head.value.declared)
  {
    hide Wire.ParseContentRange, Wire.ValidateHead, Wire.UnsatisfiedTotal, BodyTrueToRange, SpanTrue, TrueTo,
      ReportedTotal, BodyVerdict, Span, NeverBreaks, Delivered, Store.SparseStore.Valid, Store.SparseStore.Content;
    if resp.status != 206 {
      var total := if resp.status == 416 && resp.contentRange.Some? then Wire.UnsatisfiedTotal(resp.contentRange.value)
                   else None;
      return Ok(Status(resp.status, total, resp.retryAfterMs));
    }
    var head := Wire.ValidateHead(s.store.total, resp.contentRange, offset, len);
    if head.Err? {
      return Err(head.error);
    }
    var declared := head.value.declared;
    HeadMeans(s.store.total, resp, offset, len, res);
    LatchTotal(s, head.value.total);
    ghost var first := Snap(s, res);
    var got;
    r, got := CommitBody(s, resp.body, offset, declared, res);
    LandedWithin(first, Snap(s, res), offset, got, len, SpanTrue(resp.body, offset, declared, res));
    LandedWithin(first, Snap(s, res), offset, got, |Delivered(resp.body)|, SpanTrue(resp.body, offset, declared, res));
  }

  /** What an accepted head leaves as the known total. */
  method LatchTotal(s: SessionInner, total: Option<nat>)
    requires s.Valid()
    modifies s.store`total
    ensures s.Valid() && s.store.Content() == old(s.store.Content()) && s.store.total == total
  {
    s.store.total := total;
  }

  lemma LandedWithin(a: Snapshot, b: Snapshot, at: nat, n: nat, len: nat, bytesTrue: bool)
    requires Landed(a, b, at, n, bytesTrue) && n <= len
    ensures a.cover <= b.cover <= a.cover + Span(at, at + len) && (n >= 1 ==> at in b.cover)
  {
  }

  /** What an accepted head fixes for the body that follows. */
  lemma HeadMeans(known: Option<nat>, resp: Response, offset: U64, len: U64, res: seq<Byte>)
    requires resp.status == 206 && Wire.ValidateHead(known, resp.contentRange, offset, len).Ok?
    ensures var h := Wire.ValidateHead(known, resp.contentRange, offset, len).value;
            && 1 <= h.declared <= len && offset + h.declared - 1 <= U64_MAX
            && (BodyTrueToRange(resp, res) ==> SpanTrue(resp.body, offset, h.declared, res))
            && (h.total == known || (known.None? && h.total == ReportedTotal(resp)))
  {
    Wire.AcceptedHead(known, resp.contentRange, offset, len);
  }

  /** The total a 206 reports, when its `Content-Range` carries one. */
  function ReportedTotal(resp: Response): Option<nat> {
    if resp.status == 206 && resp.contentRange.Some? && Wire.ParseContentRange(resp.contentRange.value).Some? then
      Wire.ParseContentRange(resp.contentRange.value).value.2
    else None
  }

  predicate NeverBreaks(body: seq<Piece>) {
    forall i :: 0 <= i < |body| ==> body[i].Chunk?
  }

  /** A true piece written at its place, in full or torn, keeps the store true. */
  lemma PieceKeepsTruth(content: map<nat, Byte>, at: nat, bytes: seq<Byte>, torn: nat, res: seq<Byte>)
    requires TrueTo(content, res) && torn <= |bytes| && TrueAt(bytes, at, res)
    ensures TrueTo(content + Store.Placed(at, bytes), res)
    ensures TrueTo(Store.Overwritten(content, at, bytes[..torn]), res)
  {
    forall p | p in Store.Placed(at, bytes) ensures Has(res, p, Store.Placed(at, bytes)[p]) {
      var i := p - at;
      assert Has(res, at + i, bytes[i]);
    }
    forall p | p in content && at <= p < at + torn ensures Has(res, p, bytes[..torn][p - at]) {
      var i := p - at;
      assert Has(res, at + i, bytes[i]);
    }
  }

  /** Bytes that are the resource's, at their place. */
  ghost predicate TrueAt(bytes: seq<Byte>, at: nat, res: seq<Byte>) {
    forall i :: 0 <= i < |bytes| ==> Has(res, at + i, bytes[i])
  }

  /** What the commits of one response can change about a session, as a value. */
  datatype Snapshot = Snapshot(cover: set<nat>, trusty: bool, total: Option<nat>, hint: Option<nat>, sh: Shared)

  ghost function Snap(s: SessionInner, res: seq<Byte>): Snapshot
    reads s, s.store
    requires s.Valid()
  {
    Snapshot(s.store.Content().Keys, TrueTo(s.store.Content(), res), s.store.total, s.store.hintTotal, s.sh)
  }

  /** From `a` to `b` exactly the span `[at, at + n)` was covered, the byte counter of a live
      session grew by as much, and a true store stays true when the bytes were. */
  ghost predicate Landed(a: Snapshot, b: Snapshot, at: nat, n: nat, bytesTrue: bool) {
    && b.cover == a.cover + Span(at, at + n)
    && (a.trusty && bytesTrue ==> b.trusty)
    && b.total == a.total && b.hint == a.hint
    && b.sh == a.sh.(committed := a.sh.committed + if a.sh.life.Live() then n else 0)
  }

  lemma NothingLanded(a: Snapshot, at: nat, bytesTrue: bool)
    ensures Landed(a, a, at, 0, bytesTrue)
  {
    assert Span(at, at) == {};
  }

  lemma LandedJoin(a: Snapshot, b: Snapshot, c: Snapshot, at: nat, n: nat, m: nat, bytesTrue: bool)
    requires Landed(a, b, at, n, bytesTrue) && Landed(b, c, at + n, m, bytesTrue)
    ensures Landed(a, c, at, n + m, bytesTrue)
  {
    assert Span(at, at + n) + Span(at + n, at + n + m) == Span(at, at + n + m);
  }

  method CommitPiece(s: SessionInner, at: U64, bytes: seq<Byte>, disk: Option<nat>, ghost res: seq<Byte>)
    returns (r: Result<(), StreamError>)
    requires s.Valid() && bytes != []
    modifies s`sh, s`readerNotes, s`headReady, s.store
    ensures s.Valid()
    ensures Landed(old(Snap(s, res)), Snap(s, res), at, if r.Ok? then |bytes| else 0, TrueAt(bytes, at, res))
    ensures r.Ok? <==> disk.None? && at + |bytes| <= U64_MAX
    ensures r.Err? ==> r.error == Internal
  {
    hide Store.SparseStore.Valid, Store.SparseStore.Content, Store.ContentOf, WellFormed, Ordered, Cover, Covered;
    var torn := if disk.Some? then Some(Min(disk.value, |bytes|)) else None;
    if TrueTo(s.store.Content(), res) && TrueAt(bytes, at, res) {
      PieceKeepsTruth(s.store.Content(), at, bytes, if torn.Some? then torn.value else |bytes|, res);
      assert bytes[..|bytes|] == bytes;
    }
    assert Store.Placed(at, bytes).Keys == Span(at, at + |bytes|);
    assert Span(at, at) == {};
    hide TrueTo, TrueAt, Span;
    var kick;
    r, kick := s.Commit(at, bytes, torn);
  }

  /** Why a piece ends the request, if it does: a broken stream, a failed write, an overrun. */
  function Refusal(piece: Piece, at: nat, room: nat): Option<StreamError> {
    if piece.Broken? then Some(piece.error)
    else
      var n := Min(room, |piece.bytes|);
      if n > 0 && (piece.disk.Some? || at + n > U64_MAX) then Some(Internal)
      else if n < |piece.bytes| then Some(InvalidResponse)
      else None
  }

  /** What a body amounts to for a declared span of `room` bytes at `at`. */
  function BodyVerdict(body: seq<Piece>, at: nat, room: nat): (r: Result<FetchOutcome, StreamError>)
    ensures r.Ok? ==> r.value.Committed?
    decreases body
  {
    if body == [] then if room == 0 then Ok(Committed) else Err(InvalidResponse)
    else
      var bad := Refusal(body[0], at, room);
      if bad.Some? then Err(bad.value)
      else BodyVerdict(body[1..], at + |Payload(body[0])|, Max(room - |Payload(body[0])|, 0))
  }

  /** What one response amounts to, given the total known before it. */
  function DriveVerdict(known: Option<nat>, resp: Response, offset: U64, len: U64): Result<FetchOutcome, StreamError> {
    if resp.status != 206 then
      Ok(Status(resp.status,
                if resp.status == 416 && resp.contentRange.Some? then Wire.UnsatisfiedTotal(resp.contentRange.value)
                else None,
                resp.retryAfterMs))
    else
      match Wire.ValidateHead(known, resp.contentRange, offset, len)
      case Err(e) => Err(e)
      case Ok(head) => BodyVerdict(resp.body, offset, head.declared)
  }

  /** One piece of the body: commit at most the room left of the declared span, and refuse
      what overruns it. */
  method TakePiece(s: SessionInner, at: nat, piece: Piece, room: nat, ghost res: seq<Byte>)
    returns (took: nat, bad: Option<StreamError>)
    requires s.Valid() && at + room <= U64_MAX + 1
    modifies s`sh, s`readerNotes, s`headReady, s.store
    ensures s.Valid() && took <= room
    ensures Landed(old(Snap(s, res)), Snap(s, res), at, took, TrueAt(Cut(Payload(piece), room), at, res))
    ensures bad.None? ==> piece.Chunk? && took == |Payload(piece)|
    ensures bad == Refusal(piece, at, room) && took <= |Payload(piece)|
  {
    hide Snap, Landed, TrueAt;
    NothingLanded(Snap(s, res), at, TrueAt(Cut(Payload(piece), room), at, res));
    took := 0;
    if piece.Broken? {
      return 0, Some(piece.error);
    }
    var part := Cut(piece.bytes, room);
    if part != [] {
      var r := CommitPiece(s, at, part, piece.disk, res);
      if r.Err? {
        return 0, Some(r.error);
      }
      took := |part|;
    }
    bad := if |part| < |piece.bytes| then Some(InvalidResponse) else None;
  }

  /** The bytes a stream item carries. */
  function Payload(piece: Piece): seq<Byte> {
    if piece.Chunk? then piece.bytes else []
  }

  /** At most the first `room` bytes. */
  function Cut(bytes: seq<Byte>, room: nat): (part: seq<Byte>)
    ensures part <= bytes && |part| == Min(room, |bytes|)
  {
    if room <= |bytes| then bytes[..room] else bytes
  }

  /** The body loop: commit at most the declared span, and refuse an overrun or a shortfall. */
  method CommitBody(s: SessionInner, body: seq<Piece>, offset: U64, declared: nat, ghost res: seq<Byte>)
    returns (r: Result<FetchOutcome, StreamError>, got: nat)
    requires s.Valid() && declared >= 1 && offset + declared - 1 <= U64_MAX
    modifies s`sh, s`readerNotes, s`headReady, s.store
    ensures s.Valid() && got <= declared
    ensures Landed(old(Snap(s, res)), Snap(s, res), offset, got, SpanTrue(body, offset, declared, res))
    ensures r.Ok? ==> r.value == Committed && NeverBreaks(body) && |Delivered(body)| == declared == got
    ensures got <= |Delivered(body)|
    ensures r == BodyVerdict(body, offset, declared)
  {
    hide *;
    ghost var first, bodyTrue := Snap(s, res), SpanTrue(body, offset, declared, res);
    var i: nat := 0;
    var bad: Option<StreamError> := None;
    got := 0;
    NothingLanded(first, offset, bodyTrue);
    NothingArrived(body);
    assert body[0..] == body;
    while bad.None? && i < |body|
      invariant i <= |body| && got <= declared && s.Valid()
      invariant bad.None? ==>
                  && Arrived(body, i, got)
                  && BodyVerdict(body, offset, declared) == BodyVerdict(body[i..], offset + got, declared - got)
      invariant bad.Some? ==> BodyVerdict(body, offset, declared) == Err(bad.value)
      invariant got <= |Delivered(body)|
      invariant Landed(first, Snap(s, res), offset, got, bodyTrue)
      decreases |body| - i
    {
      PieceInPlace(body, i, got, offset, declared, res);
      VerdictStep(body, i, offset + got, declared - got);
      ghost var before := Snap(s, res);
      var at, room, took := offset + got, declared - got, 0;
      took, bad := TakePiece(s, at, body[i], room, res);
      TookDelivered(body, i, got, took);
      LandedWeaken(before, Snap(s, res), at, took, TrueAt(Cut(Payload(body[i]), room), at, res), bodyTrue);
      LandedJoin(first, before, Snap(s, res), offset, got, took, bodyTrue);
      got := got + took;
      i := i + 1;
    }
    if bad.Some? {
      return Err(bad.value), got;
    }
    AllArrived(body, got);
    VerdictEnds(body[i..], offset + got, declared - got);
    r := if got != declared then Err(InvalidResponse) else Ok(Committed);
  }

  lemma VerdictStep(body: seq<Piece>, i: nat, at: nat, room: nat)
    requires i < |body|
    ensures var bad := Refusal(body[i], at, room);
            if bad.Some? then BodyVerdict(body[i..], at, room) == Err(bad.value)
            else |Payload(body[i])| <= room
                 && BodyVerdict(body[i..], at, room)
                     == BodyVerdict(body[i + 1..], at + |Payload(body[i])|, room - |Payload(body[i])|)
  {
    assert body[i..][1..] == body[i + 1..];
  }

  lemma VerdictEnds(body: seq<Piece>, at: nat, room: nat)
    requires body == []
    ensures BodyVerdict(body, at, room) == if room == 0 then Ok(Committed) else Err(InvalidResponse)
  {
  }

  /** A body that arrives whole, at the declared length, onto a working disk is accepted. */
  lemma {:induction false} CleanBodyAccepted(body: seq<Piece>, at: nat, room: nat)
    requires NeverBreaks(body) && |Delivered(body)| == room && at + room <= U64_MAX
    requires forall i :: 0 <= i < |body| && body[i].Chunk? ==> body[i].disk.None?
    ensures BodyVerdict(body, at, room) == Ok(Committed)
    decreases body
  {
    if body != [] {
      assert body[0].Chunk?;
      CleanBodyAccepted(body[1..], at + |body[0].bytes|, room - |body[0].bytes|);
    }
  }

  /** A body that breaks before it has delivered too much fails with the error it broke with, whatever
      follows. */
  lemma {:induction false} BreakIsOwnError(good: seq<Piece>, e: StreamError, rest: seq<Piece>, at: nat, room: nat)
    requires NeverBreaks(good) && |Delivered(good)| <= room && at + room <= U64_MAX
    requires forall i :: 0 <= i < |good| && good[i].Chunk? ==> good[i].disk.None?
    ensures BodyVerdict(good + [Broken(e)] + rest, at, room) == Err(e)
    decreases good
  {
    var body := good + [Broken(e)] + rest;
    if good != [] {
      assert good[0].Chunk?;
      assert body[1..] == good[1..] + [Broken(e)] + rest;
      BreakIsOwnError(good[1..], e, rest, at + |good[0].bytes|, room - |good[0].bytes|);
    }
  }

  /** One that delivers more or less than was declared is an invalid response. */
  lemma {:induction false} WrongLengthRefused(body: seq<Piece>, at: nat, room: nat)
    requires NeverBreaks(body) && |Delivered(body)| != room && at + room <= U64_MAX
    requires forall i :: 0 <= i < |body| && body[i].Chunk? ==> body[i].disk.None?
    ensures BodyVerdict(body, at, room) == Err(InvalidResponse)
    decreases body
  {
    if body != [] {
      assert body[0].Chunk?;
      if |body[0].bytes| <= room {
        WrongLengthRefused(body[1..], at + |body[0].bytes|, room - |body[0].bytes|);
      }
    }
  }

  /** A write that fails under bytes the range still wants is an internal error. */
  lemma {:induction false} DiskFaultIsInternal(good: seq<Piece>, bytes: seq<Byte>, fault: nat, rest: seq<Piece>,
                                               at: nat, room: nat)
    requires NeverBreaks(good) && |Delivered(good)| < room && at + room <= U64_MAX && bytes != []
    requires forall i :: 0 <= i < |good| && good[i].Chunk? ==> good[i].disk.None?
    ensures BodyVerdict(good + [Chunk(bytes, Some(fault))] + rest, at, room) == Err(Internal)
    decreases good
  {
    var body := good + [Chunk(bytes, Some(fault))] + rest;
    if good != [] {
      assert good[0].Chunk?;
      assert body[1..] == good[1..] + [Chunk(bytes, Some(fault))] + rest;
      DiskFaultIsInternal(good[1..], bytes, fault, rest, at + |good[0].bytes|, room - |good[0].bytes|);
    }
  }

  lemma LandedWeaken(a: Snapshot, b: Snapshot, at: nat, n: nat, pieceTrue: bool, bodyTrue: bool)
    requires Landed(a, b, at, n, pieceTrue) && (bodyTrue ==> pieceTrue)
    ensures Landed(a, b, at, n, bodyTrue)
  {
  }

  /** The first `i` pieces arrived whole, `got` bytes of them. */
  ghost predicate Arrived(body: seq<Piece>, i: nat, got: nat) {
    i <= |body| && NeverBreaks(body[..i]) && |Delivered(body[..i])| == got
  }

  /** What a piece adds was delivered. */
  lemma TookDelivered(body: seq<Piece>, i: nat, got: nat, took: nat)
    requires i < |body| && Arrived(body, i, got) && took <= |Payload(body[i])|
    ensures got + took <= |Delivered(body)|
  {
    assert body == body[..i] + body[i..];
    DeliveredSplits(body[..i], body[i..]);
    assert Delivered(body[i..]) == if body[i].Broken? then [] else body[i].bytes + Delivered(body[i + 1..]) by {
      assert body[i..][1..] == body[i + 1..];
    }
  }

  lemma NothingArrived(body: seq<Piece>)
    ensures Arrived(body, 0, 0)
  {
  }

  lemma AllArrived(body: seq<Piece>, got: nat)
    requires Arrived(body, |body|, got)
    ensures NeverBreaks(body) && |Delivered(body)| == got
  {
    assert body[..|body|] == body;
  }

  /** Delivery of whole pieces followed by the rest. */
  lemma {:induction false} DeliveredSplits(a: seq<Piece>, b: seq<Piece>)
    requires NeverBreaks(a)
    ensures Delivered(a + b) == Delivered(a) + Delivered(b)
  {
    if a == [] {
      assert a + b == b;
    } else {
      assert a[0].Chunk? && NeverBreaks(a[1..]);
      DeliveredSplits(a[1..], b);
      assert (a + b)[1..] == a[1..] + b;
    }
  }

  /** The next piece of the body: what it adds, and that its part of the span is true. */
  lemma PieceInPlace(body: seq<Piece>, i: nat, got: nat, offset: nat, declared: nat, res: seq<Byte>)
    requires i < |body| && got <= declared && Arrived(body, i, got)
    ensures body[i].Chunk? ==> Arrived(body, i + 1, got + |Payload(body[i])|)
    ensures SpanTrue(body, offset, declared, res) ==> TrueAt(Cut(Payload(body[i]), declared - got), offset + got, res)
  {
    if body[i].Chunk? {
      var piece := body[i].bytes;
      assert body[..i + 1] == body[..i] + [body[i]];
      assert [body[i]][1..] == [];
      DeliveredSplits(body[..i], [body[i]]);
      assert Delivered([body[i]]) == piece;
      assert body == body[..i + 1] + body[i + 1..];
      DeliveredSplits(body[..i + 1], body[i + 1..]);
      if SpanTrue(body, offset, declared, res) {
        SpanPiece(Delivered(body), offset, declared, res, got, Cut(piece, declared - got));
      }
    }
  }

  /** A stretch of a true span is true at its place. */
  lemma SpanPiece(all: seq<Byte>, offset: nat, declared: nat, res: seq<Byte>, got: nat, part: seq<Byte>)
    requires forall i :: 0 <= i < |all| && i < declared ==> Has(res, offset + i, all[i])
    requires got + |part| <= declared && got + |part| <= |all| && all[got..got + |part|] == part
    ensures TrueAt(part, offset + got, res)
  {
    var at := offset + got;
    forall k | 0 <= k < |part| ensures Has(res, at + k, part[k]) {
      var i := got + k;
      assert all[i] == all[got..got + |part|][k];
      assert offset + i == at + k;
    }
  }
}
