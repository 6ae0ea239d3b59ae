/** The fetcher's side of a request: the capped body stream and the scope of a redirect. */
module Fetch {
  import opened Prelude
  import opened Pump
  import opened Text

  /** What the wire does next: a frame, an error or stall, or the abort of a cancel. */
  datatype Frame = Frame(bytes: seq<Byte>) | Fault(error: StreamError)

  function Raw(wire: seq<Frame>): seq<Piece> {
    if wire == [] then []
    else if wire[0].Fault? then [Broken(wire[0].error)]
    else [Chunk(wire[0].bytes, None)] + Raw(wire[1..])
  }

  /** The streamed body: an error item ends it, and so does one byte past the request. */
  function Capped(wire: seq<Frame>, left: nat): seq<Piece> {
    if left == 0 || wire == [] then []
    else if wire[0].Fault? then [Broken(wire[0].error)]
    else
      var take := Min(|wire[0].bytes|, left);
      [Chunk(wire[0].bytes[..take], None)] + Capped(wire[1..], left - take)
  }

  /** The body stream, piece by piece. */
  method StreamBody(wire: seq<Frame>, maxLen: U64) returns (body: seq<Piece>)
    ensures body == Capped(wire, SatAdd(maxLen, 1))
  {
    var cap: nat := SatAdd(maxLen, 1);
    body := [];
    var got: nat, i: nat := 0, 0;
    assert wire[0..] == wire;
    while got < cap && i < |wire|
      invariant got <= cap && i <= |wire|
      invariant body + Capped(wire[i..], cap - got) == Capped(wire, cap)
    {
      assert wire[i..][1..] == wire[i + 1..];
      if wire[i].Fault? {
        body := body + [Broken(wire[i].error)];
        got := cap;
      } else {
        var take := Min(|wire[i].bytes|, cap - got);
        body := body + [Chunk(wire[i].bytes[..take], None)];
        got := got + take;
      }
      i := i + 1;
    }
  }

  lemma {:induction false} CappedDelivers(wire: seq<Frame>, left: nat)
    ensures var all, some := Delivered(Raw(wire)), Delivered(Capped(wire, left));
            |some| == Min(|all|, left) && some == all[..|some|]
    decreases wire
  {
    if left > 0 && wire != [] && wire[0].Frame? {
      var first := wire[0].bytes;
      var take := Min(|first|, left);
      CappedDelivers(wire[1..], left - take);
      assert Raw(wire)[1..] == Raw(wire[1..]) && Capped(wire, left)[1..] == Capped(wire[1..], left - take);
      CutJoin(first, Delivered(Raw(wire[1..])), Delivered(Capped(wire[1..], left - take)), left);
    }
  }

  lemma CutJoin(first: seq<Byte>, rest: seq<Byte>, cut: seq<Byte>, left: nat)
    requires var take := Min(|first|, left); |cut| == Min(|rest|, left - take) && cut == rest[..|cut|]
    ensures var take := Min(|first|, left);
            var some := first[..take] + cut;
            |some| == Min(|first + rest|, left) && some == (first + rest)[..|some|]
  {
  }

  /** A body that ends within the cap keeps every item, its error included. */
  lemma {:induction false} CappedBreaks(wire: seq<Frame>, left: nat)
    requires |Delivered(Raw(wire))| < left
    ensures NeverBreaks(Raw(wire)) <==> NeverBreaks(Capped(wire, left))
    decreases wire
  {
    if wire != [] && wire[0].Frame? {
      var raw, cut := Raw(wire), Capped(wire, left);
      assert raw[1..] == Raw(wire[1..]) && cut[1..] == Capped(wire[1..], left - |wire[0].bytes|);
      CappedBreaks(wire[1..], left - |wire[0].bytes|);
      BreaksLater(raw);
      BreaksLater(cut);
    } else if wire != [] {
      assert Raw(wire)[0].Broken? && Capped(wire, left)[0].Broken?;
    }
  }

  lemma BreaksLater(body: seq<Piece>)
    requires body != [] && body[0].Chunk?
    ensures NeverBreaks(body) <==> NeverBreaks(body[1..])
  {
    if NeverBreaks(body[1..]) {
      forall i | 0 <= i < |body| ensures body[i].Chunk? {
        assert i > 0 ==> body[i] == body[1..][i - 1];
      }
    }
  }

  /** The cap never shows: for any declared length the request allows, the pump accepts the
      capped body exactly when it would have accepted the whole one, and takes the same bytes
      from both. An overrun stays an overrun, a shortfall a shortfall. */
  lemma CapIsInvisible(wire: seq<Frame>, maxLen: U64, declared: nat)
    requires 1 <= declared <= maxLen < U64_MAX
    ensures var raw, cut := Raw(wire), Capped(wire, SatAdd(maxLen, 1));
            && (NeverBreaks(raw) && |Delivered(raw)| == declared <==> NeverBreaks(cut) && |Delivered(cut)| == declared)
            && (|Delivered(raw)| > declared <==> |Delivered(cut)| > declared)
            && Delivered(cut)[..Min(declared, |Delivered(cut)|)] == Delivered(raw)[..Min(declared, |Delivered(raw)|)]
    ensures |Delivered(Capped(wire, SatAdd(maxLen, 1)))| <= maxLen + 1
  {
    CappedDelivers(wire, SatAdd(maxLen, 1));
    if |Delivered(Raw(wire))| <= maxLen {
      CappedBreaks(wire, SatAdd(maxLen, 1));
    }
  }

  // ---- redirects -------------------------------------------------------------------------

  const EDGE_PARENT_ZONES: set<string> := {"googlevideo.com", "dzcdn.net"}

  /** `host` is a subdomain of `parent`. */
  predicate Under(host: string, parent: string) {
    |host| > |parent| && host[|host| - |parent| - 1] == '.' && host[|host| - |parent|..] == parent
  }

  /** The mint host itself, one of its subdomains, or a sibling under an edge zone that the mint
      host sits under, however deep. */
  ghost predicate InScope(target: string, mint: string) {
    || target == mint || Under(target, mint)
    || exists zone :: zone in EDGE_PARENT_ZONES && Under(mint, zone) && Under(target, zone)
  }

  /** Everything above `a.rest` is `rest` or above it. */
  lemma ParentsOf(host: string, a: string, rest: string, zone: string)
    requires host == a + ['.'] + rest && '.' !in a
    ensures Under(host, zone) <==> zone == rest || Under(rest, zone)
  {
    var at := |host| - |zone| - 1;
    if Under(host, zone) {
      assert host[at] == '.';
      if at > |a| {
        assert rest[|rest| - |zone| - 1] == host[at];
        assert rest[|rest| - |zone|..] == host[|host| - |zone|..];
      } else {
        assert host[|a| + 1..] == rest;
      }
    }
    if Under(rest, zone) {
      assert host[at] == rest[|rest| - |zone| - 1];
      assert host[|host| - |zone|..] == rest[|rest| - |zone|..];
    }
    if zone == rest {
      assert host[|a|] == '.' && host[|a| + 1..] == rest;
    }
  }

  /** `redirect_in_scope`: walk the mint host's labels up to the last. */
  method RedirectInScope(target: string, mint: string) returns (ok: bool)
    ensures ok <==> InScope(target, mint)
  {
    if target == mint || Under(target, mint) {
      return true;
    }
    var parent := mint;
    while '.' in parent
      invariant forall zone :: zone in EDGE_PARENT_ZONES && Under(mint, zone) && Under(target, zone) ==>
                  Under(parent, zone)
      invariant parent == mint || Under(mint, parent)
      invariant forall zone :: Under(parent, zone) ==> Under(mint, zone)
      decreases |parent|
    {
      var (a, rest) := SplitOnce(parent, '.').value;
      forall zone: string { ParentsOf(parent, a, rest, zone); }
      if rest in EDGE_PARENT_ZONES && Under(target, rest) {
        return true;
      }
      parent := rest;
    }
    return false;
  }
}
