/** The non-demanding read for decorations: it answers from committed bytes, or spends one
    request, and reports its own end-of-stream verdict. */
module Probe {
  import opened Prelude
  import opened Extents
  import opened SessionState
  import opened SessionObjects
  import opened Pump
  import opened FetchCycle
  import opened FetchPass
  import Store = SparseStore
  import Wire

  datatype ProbeRead = ProbeRead(bytes: seq<Byte>, total: Option<nat>, eof: bool)

  /** Wire evidence that `pos` is at or past the end. */
  predicate PastKnown(sh: Shared, total: Option<nat>, pos: nat) {
    (total.Some? && pos >= total.value) || sh.PastEof(pos)
  }

  /** A refusal that names no total: end-of-stream, or a dead URL. */
  predicate BareRefusal(reply: Reply) {
    !reply.NoAnswer? && reply.resp.status == 416 && NamedBy(reply.resp).None?
  }

  /** When a probe that returns claims end-of-stream. */
  predicate EofClaim(covered: bool, pastKnown: bool, fetch: bool, reply: Reply) {
    !covered && (pastKnown || (fetch && !reply.NoAnswer? && reply.resp.status == 416))
  }

  /** `peek`: a hit, a confirmed end (`Some([])`), or a hole. */
  method Peek(s: SessionInner, pos: nat, maxLen: nat, ioFails: bool) returns (r: Result<Option<seq<Byte>>, StreamError>)
    requires s.Valid() && maxLen > 0
    ensures !s.sh.life.Live() ==> r == Err(s.sh.life.terminal.value)
    ensures s.sh.life.Live() && pos in s.store.Content() ==>
              r == if ioFails then Err(Internal) else Ok(Some(Store.Serve(s.store.Content(), pos, maxLen)))
    ensures s.sh.life.Live() && pos !in s.store.Content() ==>
              r == Ok(if (s.store.total.Some? && pos >= s.store.total.value)
                         || (s.sh.eofBelow.Some? && pos >= s.sh.eofBelow.value) then Some([]) else None)
  {
    hide Store.SparseStore.Valid, Store.SparseStore.Content, Store.Serve;
    if s.sh.life.terminal.Some? {
      return Err(s.sh.life.terminal.value);
    }
    var covered := s.store.Covers(pos);
    if covered {
      var bytes := s.store.ReadAt(pos, maxLen, ioFails);
      return if bytes.Err? then Err(bytes.error) else Ok(Some(bytes.value));
    }
    return Ok(if PastKnown(s.sh, s.store.total, pos) then Some([]) else None);
  }

  /** The wire total, or the hint for want of one. */
  function EffectiveTotal(s: SessionInner): Option<nat>
    reads s.store
  {
    if s.store.total.Some? then s.store.total else s.store.hintTotal
  }

  lemma TellIs(reply: Reply)
    ensures Told(reply) == if reply.NoAnswer? then {}
              else if NamedBy(reply.resp).Some? then {NamedBy(reply.resp).value} else {}
  {
  }

  lemma KeepsSound(a: State, heard: set<nat>, n: nat)
    ensures forall b: State :: Learned(a, b, heard) && Sound(a, n) && heard <= {n} ==> Sound(b, n)
  {
    hide Learned, Sound;
    forall b: State | Learned(a, b, heard)
      ensures Sound(a, n) && heard <= {n} ==> Sound(b, n)
    {
      SoundKept(a, b, heard, n);
    }
  }

  /** What a probe reports for an answered request: `known` the total before it, `served` what the
      store then holds at `pos`, `total` the total then known. */
  function ProbeVerdict(r: Result<FetchOutcome, StreamError>, known: Option<nat>, pos: nat,
                        served: Result<seq<Byte>, StreamError>,
                        total: Option<nat>): Result<ProbeRead, StreamError>
  {
    if r.Err? then Err(r.error)
    else if r.value.Committed? then
      if served.Err? then Err(served.error) else Ok(ProbeRead(served.value, total, false))
    else if AnsweredWith(r, 416) then
      var named := r.value.total;
      if named.Some? && (pos < named.value || (known.Some? && known.value != named.value)) then Err(InvalidResponse)
      else Ok(ProbeRead([], total, true))
    else if AnsweredWith(r, 403) then Err(Expired)
    else Err(ClassifyStatus(r.value.status, r.value.retryAfterMs))
  }

  /** What each answer of the wire comes to, told by its status. */
  ghost predicate AnswerMeans(reply: Reply, known: Option<nat>, pos: U64, want: U64,
                              served: Result<seq<Byte>, StreamError>,
                              total: Option<nat>, r: Result<ProbeRead, StreamError>)
  {
    if reply.NoAnswer? then r == Err(reply.error)
    else
      var status := reply.resp.status;
      if status == 206 && DriveVerdict(known, reply.resp, pos, want).Err? then
        r == Err(DriveVerdict(known, reply.resp, pos, want).error)
      else if status == 206 then
        r == if served.Err? then Err(served.error) else Ok(ProbeRead(served.value, total, false))
      else if status == 416 && NamedBy(reply.resp).Some?
              && (pos < NamedBy(reply.resp).value || (known.Some? && known != NamedBy(reply.resp))) then
        r == Err(InvalidResponse)
      else if status == 416 then r == Ok(ProbeRead([], total, true))
      else if status == 401 || status == 403 then r == Err(Expired)
      else if status == 404 || status == 410 then r == Err(NotFound)
      else if status == 429 then r == Err(RateLimited(reply.resp.retryAfterMs))
      else if status in {408, 425} || status < 200 || status >= 500 then r == Err(Transient)
      else r == Err(InvalidResponse)
  }

  lemma VerdictMeans(reply: Reply, known: Option<nat>, pos: U64, want: U64, served: Result<seq<Byte>, StreamError>,
                     total: Option<nat>)
    ensures AnswerMeans(reply, known, pos, want, served, total,
                        ProbeVerdict(ReplyVerdict(known, reply, pos, want), known, pos, served, total))
  {
    hide Wire.ValidateHead, Wire.UnsatisfiedTotal;
  }

  /** The bytes at a position as the store holds them. */
  ghost function ServedAt(s: SessionInner, pos: nat, want: nat, ioFails: bool): Result<seq<Byte>, StreamError>
    reads s, s.store
    requires s.Valid() && want > 0
  {
    if pos !in s.store.Content() || ioFails then Err(Internal) else Ok(Store.Serve(s.store.Content(), pos, want))
  }

  /** The request a probe spends on a hole. */
  method ProbeWire(s: SessionInner, pos: U64, want: U64, now: nat, reply: Reply, ioFails: bool, ghost res: seq<Byte>)
    returns (r: Result<ProbeRead, StreamError>)
    requires s.Valid() && want >= 1 && !reply.Dropped? && s.sh.life.Live() && pos !in s.store.Content()
    modifies s`sh, s`readerNotes, s`headReady, s`permit, s.store, s.pool
    ensures s.Valid() && Onward(old(Now(s, res)), Now(s, res), ReplyTrue(reply, res))
    ensures Learned(old(Now(s, res)), Now(s, res), Told(reply))
    ensures Sound(old(Now(s, res)), |res|) && Told(reply) <= {|res|} ==> Sound(Now(s, res), |res|)
    ensures r.Ok? ==> r.value.total == EffectiveTotal(s)
    ensures r.Ok? ==> r.value.eof == (!reply.NoAnswer? && reply.resp.status == 416)
    ensures r.Ok? && !r.value.eof ==>
              pos in s.store.Content() && r.value.bytes == Store.Serve(s.store.Content(), pos, want)
    ensures r.Ok? && r.value.eof ==> r.value.bytes == []
    ensures r.Ok? && r.value.eof && !BareRefusal(reply) ==>
              s.store.total == NamedBy(reply.resp) && s.store.total.value <= pos && s.sh.PastEof(pos)
    ensures r == ProbeVerdict(ReplyVerdict(old(s.store.total), reply, pos, want), old(s.store.total), pos,
                              ServedAt(s, pos, want, ioFails), EffectiveTotal(s))
    ensures AnswerMeans(reply, old(s.store.total), pos, want, ServedAt(s, pos, want, ioFails), EffectiveTotal(s), r)
    ensures if !reply.NoAnswer? && reply.resp.status == 429 && reply.resp.retryAfterMs.Some?
            then Staked(old(s.sh.notBefore), s.sh.notBefore, now, reply.resp.retryAfterMs.value, s.cfg.cooldownCap)
            else s.sh.notBefore == old(s.sh.notBefore)
    ensures s.sh.life == old(s.sh.life) && s.sh.readPos == old(s.sh.readPos)
              && s.sh.transientError == old(s.sh.transientError)
  {
    hide Store.SparseStore.Valid, Store.SparseStore.Content, Store.Serve, TrueTo, BodyTrueToRange, NamedBy, Named,
      DriveVerdict, AnswerMeans;
    forall served: Result<seq<Byte>, StreamError>, total: Option<nat> {
      VerdictMeans(reply, s.store.total, pos, want, served, total);
    }
    TellIs(reply);
    if !reply.NoAnswer? {
      VerdictStatus(s.store.total, reply.resp, pos, want);
    }
    ghost var first := Now(s, res);
    KeepsSound(first, Told(reply), |res|);
    var out, sent := Send(s, reply, pos, want, false, res);
    if sent.Err? {
      return Err(sent.error);
    }
    if sent.value.Committed? {
      var again := Peek(s, pos, want, ioFails);
      if again.Err? {
        return Err(again.error);
      }
      return Ok(ProbeRead(again.value.value, EffectiveTotal(s), again.value.value == []));
    }
    if sent.value.status == 416 && sent.value.total.Some? {
      var total := sent.value.total.value;
      var adopted := CheckTotal(s, total);
      if !adopted || pos < total {
        return Err(InvalidResponse);
      }
      s.MarkEofBelow(total);
      return Ok(ProbeRead([], EffectiveTotal(s), true));
    }
    if sent.value.status == 416 {
      return Ok(ProbeRead([], EffectiveTotal(s), true));
    }
    if sent.value.status == 429 && sent.value.retryAfterMs.Some? {
      s.SetCooldown(now + Min(sent.value.retryAfterMs.value, s.cfg.cooldownCap));
    }
    return Err(if sent.value.status == 403 then Expired
               else ClassifyStatus(sent.value.status, sent.value.retryAfterMs));
  }

  /** `probe` at `pos` for up to `maxLen` bytes, at time `now`. */
  method ProbeAt(s: SessionInner, pos: U64, maxLen: U64, fetch: bool, now: nat, reply: Reply, ioFails: bool,
                 ghost res: seq<Byte>)
    returns (r: Result<ProbeRead, StreamError>)
    requires s.Valid() && s.cfg.Valid() && !reply.Dropped?
    modifies s`sh, s`readerNotes, s`headReady, s`permit, s.store, s.pool
    ensures s.Valid() && Onward(old(Now(s, res)), Now(s, res), ReplyTrue(reply, res))
    ensures Learned(old(Now(s, res)), Now(s, res), Told(reply))
    ensures Sound(old(Now(s, res)), |res|) && Told(reply) <= {|res|} ==> Sound(Now(s, res), |res|)
    ensures !old(s.sh.life.Live()) ==> r == Err(old(s.sh.life.terminal.value)) && s.sh == old(s.sh)
    ensures r.Ok? ==> r.value.total == if s.store.total.Some? then s.store.total else s.store.hintTotal
    ensures r.Ok? ==> r.value.eof == EofClaim(old(pos in s.store.Content()),
                                              old(PastKnown(s.sh, s.store.total, pos)), fetch, reply)
    ensures r.Ok? && r.value.bytes != [] ==>
              && pos in s.store.Content()
              && r.value.bytes == Store.Serve(s.store.Content(), pos, Max(1, Min(maxLen, s.cfg.chunkBytes)))
    ensures r.Ok? && r.value.bytes == [] ==> r.value.eof || (!fetch && old(pos !in s.store.Content()))
    ensures var want := Max(1, Min(maxLen, s.cfg.chunkBytes));
            old(s.sh.life.Live()) ==>
              if old(pos in s.store.Content()) then
                s.sh == old(s.sh) && s.store.total == old(s.store.total)
                && r == if ioFails then Err(Internal)
                        else Ok(ProbeRead(Store.Serve(old(s.store.Content()), pos, want), EffectiveTotal(s), false))
              else if old(PastKnown(s.sh, s.store.total, pos)) || !fetch then
                s.sh == old(s.sh) && r == Ok(ProbeRead([], EffectiveTotal(s), old(PastKnown(s.sh, s.store.total, pos))))
              else if old(s.sh.notBefore).Some? && old(s.sh.notBefore).value > now then
                s.sh == old(s.sh) && r == Err(RateLimited(Some(old(s.sh.notBefore).value - now)))
              else
                r == ProbeVerdict(ReplyVerdict(old(s.store.total), reply, pos, want), old(s.store.total), pos,
                                  ServedAt(s, pos, want, ioFails), EffectiveTotal(s))
    ensures s.sh.life == old(s.sh.life) && s.sh.readPos == old(s.sh.readPos)
              && s.sh.transientError == old(s.sh.transientError)
  {
    hide Store.SparseStore.Valid, Store.SparseStore.Content, Store.Serve, TrueTo, BodyTrueToRange, ReportedTotal,
      ProbeVerdict, ReplyVerdict, ReplyTrue;
    KeepsSound(Now(s, res), Told(reply), |res|);
    var want := Max(1, Min(maxLen, s.cfg.chunkBytes));
    var hit := Peek(s, pos, want, ioFails);
    if hit.Err? {
      return Err(hit.error);
    }
    if hit.value.Some? {
      return Ok(ProbeRead(hit.value.value, EffectiveTotal(s), hit.value.value == []));
    }
    if !fetch {
      return Ok(ProbeRead([], EffectiveTotal(s), false));
    }
    if s.sh.notBefore.Some? && s.sh.notBefore.value > now {
      return Err(RateLimited(Some(s.sh.notBefore.value - now)));
    }
    r := ProbeWire(s, pos, want, now, reply, ioFails, res);
  }

  /** How far the claim can be trusted. With sound beliefs and an honest wire it is right from what was
      known, and a request that is spent ends in a false claim exactly when a bare refusal answers it
      inside the resource, dead URL or not. */
  lemma EofClaimExact(sh: Shared, total: Option<nat>, pos: U64, want: U64, reply: Reply,
                      served: Result<seq<Byte>, StreamError>,
                      after: Option<nat>, n: nat)
    requires SoundAt(sh, total, n) && Told(reply) <= {n}
    ensures PastKnown(sh, total, pos) ==> n <= pos
    ensures var r := ProbeVerdict(ReplyVerdict(total, reply, pos, want), total, pos, served, after);
            r.Ok? && r.value.eof && pos < n <==> BareRefusal(reply) && pos < n
  {
    hide Wire.ValidateHead, Wire.UnsatisfiedTotal;
    if !reply.NoAnswer? && reply.resp.status == 416 {
      assert ReplyVerdict(total, reply, pos, want) == Ok(Status(416, NamedBy(reply.resp), reply.resp.retryAfterMs));
      assert !BareRefusal(reply) ==> NamedBy(reply.resp).value in Told(reply);
    }
  }

  /** The claim is false on a dead URL: of any resource and at any position inside it, as long as nothing
      is covered or known there, a bare refusal answers the probe and the probe calls it the end. */
  lemma DeadUrlReadsAsEnd(sh: Shared, pos: U64, want: U64, res: seq<Byte>, served: Result<seq<Byte>, StreamError>)
    requires pos < |res| && !PastKnown(sh, None, pos)
    ensures var reply := Answered(Response(416, None, None, []));
            && BareRefusal(reply) && EofClaim(false, PastKnown(sh, None, pos), true, reply) && Told(reply) <= {|res|}
            && ProbeVerdict(ReplyVerdict(None, reply, pos, want), None, pos, served, None)
                == Ok(ProbeRead([], None, true))
  {
  }
}
