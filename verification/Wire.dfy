/** The range protocol on both sides of the seam: what the fetcher prints, what
    the loopback server parses, resolves and prints back, and what the pump
    accepts. RFC 9110, sections 14.1.2, 14.2 and 14.4. */
module Wire {
  import opened Prelude
  import opened Text

  // ---- the fetcher's request -------------------------------------------------

  /** The `Range` value of a request for `maxLen` bytes at `offset`. */
  function RangeHeader(offset: U64, maxLen: U64): string {
    "bytes=" + Dec(offset) + "-" + Dec(SatAdd(offset, if maxLen == 0 then 0 else maxLen - 1))
  }

  // ---- the loopback server ---------------------------------------------------

  datatype RangeSpec =
    | Interval(first: U64, last: U64)
    | From(start: U64)
    | Suffix(count: U64)
    | Invalid

  /** `parse_range`: a unit other than `bytes` is ignored; anything else that is not
      one well-formed byte range is `Invalid`. */
  function ParseRange(value: string): Option<RangeSpec> {
    match SplitOnce(value, '=')
    case None => None
    case Some((unit, rest)) =>
      if !EqIgnoreCase(Trim(unit), "bytes") then None
      else
        var spec := Trim(rest);
        if ',' in spec then Some(Invalid) else Some(ParseSpec(SplitOnce(spec, '-')))
  }

  function ParseSpec(ends: Option<(string, string)>): RangeSpec {
    match ends
    case None => Invalid
    case Some((a, b)) =>
      if a == "" then
        match ParseU64(Trim(b))
        case Some(n) => if n > 0 then Suffix(n) else Invalid
        case None => Invalid
      else if b == "" then
        match ParseU64(Trim(a))
        case Some(s) => From(s)
        case None => Invalid
      else
        var s, e := ParseU64(Trim(a)), ParseU64(Trim(b));
        if s.Some? && e.Some? && s.value <= e.value then Interval(s.value, e.value) else Invalid
  }

  /** `resolve_range`: the inclusive bounds to serve; `Err` is the status to answer. */
  function ResolveRange(range: RangeSpec, total: Option<U64>): Result<(nat, nat), nat> {
    match (range, total)
    case (Invalid, _) => Err(416)
    case (_, None) => Err(416)
    case (Interval(s, e), Some(t)) => if s >= t then Err(416) else Ok((s, Min(e, t - 1)))
    case (From(s), Some(t)) => if s >= t then Err(416) else Ok((s, t - 1))
    case (Suffix(n), Some(t)) => if t == 0 then Err(416) else Ok((t - Min(n, t), t - 1))
  }

  /** What a range request selects from a representation of `t` bytes. */
  ghost predicate Selects(range: RangeSpec, t: nat, p: nat) {
    p < t &&
    match range
    case Interval(s, e) => s <= p <= e
    case From(s) => s <= p
    case Suffix(n) => t <= p + n
    case Invalid => false
  }

  /** Resolution is exact: it succeeds just when the range selects something of a known
      total, and its bounds are then precisely what the range selects. */
  lemma ResolveExact(range: RangeSpec, total: Option<U64>)
    requires range.Interval? ==> range.first <= range.last
    requires range.Suffix? ==> range.count > 0
    ensures ResolveRange(range, total).Ok? <==> total.Some? && exists p: nat :: Selects(range, total.value, p)
    ensures ResolveRange(range, total).Ok? ==>
              var (s, e) := ResolveRange(range, total).value;
              s <= e < total.value && forall p: nat :: s <= p <= e <==> Selects(range, total.value, p)
    ensures ResolveRange(range, total).Err? ==> ResolveRange(range, total).error == 416
  {
    if ResolveRange(range, total).Ok? {
      var (s, e) := ResolveRange(range, total).value;
      assert Selects(range, total.value, s);
    }
  }

  function ContentRange(start: nat, end: nat, total: nat): string {
    "bytes " + Dec(start) + "-" + Dec(end) + "/" + Dec(total)
  }

  /** `Content-Range` of a refusal: the total when known, else `*`. */
  function UnsatisfiedRange(total: Option<nat>): string {
    "bytes */" + if total.Some? then Dec(total.value) else "*"
  }

  // ---- the pump ----------------------------------------------------------------

  /** `unsatisfied_range_total`. */
  function UnsatisfiedTotal(cr: string): Option<U64> {
    match SplitOnce(cr, ' ')
    case None => None
    case Some((unit, range)) =>
      if EqIgnoreCase(unit, "bytes") && "*/" <= range then StrictU64(range[2..]) else None
  }

  /** `parse_content_range`: start, end and the total when it is not `*`. */
  function ParseContentRange(cr: string): Option<(U64, U64, Option<U64>)> {
    if |cr| < 6 || !EqIgnoreCase(cr[..6], "bytes ") then None
    else
      match SplitOnce(cr[6..], '/')
      case None => None
      case Some((range, totalText)) =>
        match SplitOnce(range, '-')
        case None => None
        case Some((a, b)) =>
          var start, end := StrictU64(a), StrictU64(b);
          if start.None? || end.None? then None
          else if Trim(totalText) == "*" then Some((start.value, end.value, None))
          else
            match StrictU64(totalText)
            case None => None
            case Some(t) => Some((start.value, end.value, Some(t)))
  }

  /** `check_total`: the wire total after a response that reported `t`. */
  function CheckTotal(known: Option<nat>, t: nat): Result<Option<nat>, StreamError> {
    if known.Some? && known.value != t then Err(InvalidResponse) else Ok(Some(t))
  }

  /** What `validate_206_head` grants: the declared body length and the wire total afterwards. */
  datatype Head = Head(declared: nat, total: Option<nat>)

  function ValidateHead(known: Option<nat>, cr: Option<string>, offset: U64, maxLen: U64): Result<Head, StreamError> {
    if cr.None? then Err(InvalidResponse)
    else
      match ParseContentRange(cr.value)
      case None => Err(InvalidResponse)
      case Some((start, end, total)) =>
        if start != offset || end < start || end - start + 1 > U64_MAX || end - start + 1 > maxLen then
          Err(InvalidResponse)
        else
          match total
          case None => Ok(Head(end - start + 1, known))
          case Some(t) =>
            if end >= t then Err(InvalidResponse)
            else
              match CheckTotal(known, t)
              case Ok(now) => Ok(Head(end - start + 1, now))
              case Err(e) => Err(e)
  }

  // ---- round trips -------------------------------------------------------------

  /** The printed form of a number, with the facts parsers rely on and nothing else. */
  lemma Printed(n: U64) returns (s: string)
    ensures s == Dec(n) && s != "" && AllDigits(s) && IsDigit(s[0]) && Trim(s) == s
    ensures ParseU64(s) == Some(n) && StrictU64(s) == Some(n)
  {
    s := Dec(n);
    DecRoundTrip(n);
  }

  /** The header the fetcher prints is the interval the server reads. */
  lemma RequestRoundTrip(offset: U64, maxLen: U64)
    requires maxLen >= 1
    ensures ParseRange(RangeHeader(offset, maxLen)) == Some(Interval(offset, SatAdd(offset, maxLen - 1)))
  {
    IntervalRoundTrip(offset, SatAdd(offset, maxLen - 1));
  }

  // ---- every form a client may send -----------------------------------------------

  /** The forms of RFC 9110, section 14.1.2, as a client prints them. */
  function IntervalHeader(first: U64, last: U64): string {
    "bytes=" + Dec(first) + "-" + Dec(last)
  }

  function FromHeader(start: U64): string {
    "bytes=" + Dec(start) + "-"
  }

  function SuffixHeader(count: U64): string {
    "bytes=-" + Dec(count)
  }

  /** An interval is read with both its ends, and refused when it is reversed. */
  lemma IntervalRoundTrip(first: U64, last: U64)
    ensures ParseRange(IntervalHeader(first, last)) == Some(if first <= last then Interval(first, last) else Invalid)
  {
    hide Dec, Trim, ParseU64, SplitOnce, EqIgnoreCase;
    var a := Printed(first);
    var b := Printed(last);
    var spec := a + ['-'] + b;
    assert IntervalHeader(first, last) == "bytes=" + spec;
    assert spec[0] == a[0] && spec[|spec| - 1] == b[|b| - 1];
    EdgedText(spec);
    NoSeparator(a, ',');
    NoSeparator(b, ',');
    NoSeparator(a, '-');
    SplitAt(a, '-', b);
  }

  /** An open-ended range is read with its own start. */
  lemma FromRoundTrip(start: U64)
    ensures ParseRange(FromHeader(start)) == Some(From(start))
  {
    hide Dec, Trim, ParseU64, SplitOnce, EqIgnoreCase;
    var a := Printed(start);
    var spec := a + ['-'] + "";
    assert FromHeader(start) == "bytes=" + spec;
    assert spec[0] == a[0] && spec[|spec| - 1] == '-';
    EdgedText(spec);
    NoSeparator(a, ',');
    NoSeparator(a, '-');
    SplitAt(a, '-', "");
  }

  /** A suffix is read with its own length, and refused when it asks for nothing. */
  lemma SuffixRoundTrip(count: U64)
    ensures ParseRange(SuffixHeader(count)) == Some(if count > 0 then Suffix(count) else Invalid)
  {
    hide Dec, Trim, ParseU64, SplitOnce, EqIgnoreCase;
    var b := Printed(count);
    var spec := "" + ['-'] + b;
    assert SuffixHeader(count) == "bytes=" + spec;
    assert spec[0] == '-' && spec[|spec| - 1] == b[|b| - 1];
    EdgedText(spec);
    NoSeparator(b, ',');
    SplitAt("", '-', b);
  }

  /** A list of ranges is refused, whatever it lists. */
  lemma ListIsInvalid(a: string, b: string)
    ensures ParseRange("bytes=" + a + "," + b) == Some(Invalid)
  {
    hide Trim, SplitOnce;
    var spec := a + [','] + b;
    assert "bytes=" + a + "," + b == "bytes" + ['='] + spec;
    SplitAt("bytes", '=', spec);
    assert ',' == spec[|a|];
    TrimKeeps(spec, ',');
    TrimKeeps("bytes", 'b');
    BytesTrimmed();
  }

  lemma BytesTrimmed()
    ensures Trim("bytes") == "bytes"
  {
  }

  /** The unit is `bytes` in any case. */
  lemma UnitCaseIgnored(start: U64)
    ensures ParseRange("BYTES=" + Dec(start) + "-") == Some(From(start))
    ensures ParseRange("Bytes=" + Dec(start) + "-") == Some(From(start))
  {
    hide Dec, Trim, ParseU64, SplitOnce;
    var a := Printed(start);
    var spec := a + ['-'] + "";
    EdgedText(spec);
    NoSeparator(a, ',');
    NoSeparator(a, '-');
    SplitAt(a, '-', "");
    assert "BYTES=" + a + "-" == "BYTES" + ['='] + spec;
    SplitAt("BYTES", '=', spec);
    assert "Bytes=" + a + "-" == "Bytes" + ['='] + spec;
    SplitAt("Bytes", '=', spec);
    UnitsTrimmed();
  }

  lemma UnitsTrimmed()
    ensures Trim("BYTES") == "BYTES" && Trim("Bytes") == "Bytes"
  {
  }

  /** White space around the unit and around the range is ignored. */
  lemma SpacesIgnored(a: string, b: string, c: string, d: string, start: U64)
    requires AllSpace(a) && AllSpace(b) && AllSpace(c) && AllSpace(d)
    ensures ParseRange(a + "bytes" + b + "=" + c + Dec(start) + "-" + d) == Some(From(start))
  {
    hide Dec, Trim, ParseU64, SplitOnce;
    var n := Printed(start);
    var spec := n + ['-'] + "";
    var value := a + "bytes" + b + "=" + c + n + "-" + d;
    assert value == (a + "bytes" + b) + ['='] + (c + spec + d);
    SplitAt(a + "bytes" + b, '=', c + spec + d);
    TrimStrips(a, "bytes", b);
    TrimStrips(c, spec, d);
    NoSeparator(n, ',');
    NoSeparator(n, '-');
    SplitAt(n, '-', "");
  }

  /** Another unit, or no unit at all, is no range request. */
  lemma OtherUnitIgnored(unit: string, rest: string)
    requires '=' !in unit
    ensures ParseRange(unit + "=" + rest).None? <==> !EqIgnoreCase(Trim(unit), "bytes")
    ensures ParseRange(unit).None?
  {
    assert unit + "=" + rest == unit + ['='] + rest;
    SplitAt(unit, '=', rest);
  }

  /** A number without a dash is refused, and so is a dash without a number. */
  lemma MalformedIsInvalid(a: string)
    requires AllDigits(a)
    ensures ParseRange("bytes=" + a) == Some(Invalid) && ParseRange("bytes=-") == Some(Invalid)
  {
    hide SplitOnce, EqIgnoreCase, Value;
    BytesSplit(a);
    BytesSplit("-");
    assert "bytes=-" == "bytes=" + "-";
    NoSeparator(a, ',');
    NoSeparator(a, '-');
    if a != "" {
      TrimDigits(a);
    }
    assert "-" == "" + ['-'] + "";
    SplitAt("", '-', "");
  }

  /** So is a number past 64 bits, on either side of the dash. */
  lemma OversizeIsInvalid(a: string, b: string)
    requires AllDigits(a) && AllDigits(b)
    requires (a != "" && Value(a) > U64_MAX) || (b != "" && Value(b) > U64_MAX)
    ensures ParseRange("bytes=" + a + "-" + b) == Some(Invalid)
  {
    hide SplitOnce, EqIgnoreCase, Value, Trim;
    var spec := a + ['-'] + b;
    assert "bytes=" + a + "-" + b == "bytes=" + spec;
    assert spec[0] == (if a == "" then '-' else a[0]) && spec[|spec| - 1] == (if b == "" then '-' else b[|b| - 1]);
    EdgedText(spec);
    NoSeparator(a, ',');
    NoSeparator(b, ',');
    NoSeparator(a, '-');
    SplitAt(a, '-', b);
    if a != "" {
      TrimDigits(a);
    }
    if b != "" {
      TrimDigits(b);
    }
  }

  /** The unit and what it is said of. */
  lemma BytesSplit(spec: string)
    ensures SplitOnce("bytes=" + spec, '=') == Some(("bytes", spec)) && EqIgnoreCase(Trim("bytes"), "bytes")
  {
    hide SplitOnce;
    assert "bytes=" + spec == "bytes" + ['='] + spec;
    SplitAt("bytes", '=', spec);
    BytesTrimmed();
  }

  /** A header value splits at its sign, and text without white space at its edges keeps them. */
  lemma EdgedText(spec: string)
    requires spec != "" && !IsSpace(spec[0]) && !IsSpace(spec[|spec| - 1])
    ensures SplitOnce("bytes=" + spec, '=') == Some(("bytes", spec))
    ensures EqIgnoreCase(Trim("bytes"), "bytes") && Trim(spec) == spec
  {
    hide SplitOnce, EqIgnoreCase;
    BytesSplit(spec);
  }

  lemma NoSeparator(s: string, c: char)
    requires AllDigits(s) && !IsDigit(c)
    ensures c !in s
  {
  }

  lemma ContentRangeText(a: string, b: string, c: string, start: U64, end: U64, total: U64)
    requires AllDigits(a) && AllDigits(b) && c != "" && IsDigit(c[0])
    requires StrictU64(a) == Some(start) && StrictU64(b) == Some(end)
    requires Trim(c) == c && StrictU64(c) == Some(total)
    ensures ParseContentRange("bytes " + a + "-" + b + "/" + c) == Some((start, end, Some(total)))
  {
    hide StrictU64, Trim;
    var cr := "bytes " + a + "-" + b + "/" + c;
    assert cr[..6] == "bytes ";
    var range := a + ['-'] + b;
    assert cr[6..] == range + ['/'] + c;
    NoSeparator(a, '/');
    NoSeparator(b, '/');
    SplitAt(range, '/', c);
    NoSeparator(a, '-');
    SplitAt(a, '-', b);
  }

  /** A printed `Content-Range` reads back as exactly its three numbers. */
  lemma ContentRangeRoundTrip(start: U64, end: U64, total: U64)
    ensures ParseContentRange(ContentRange(start, end, total)) == Some((start, end, Some(total)))
  {
    var a := Printed(start);
    var b := Printed(end);
    var c := Printed(total);
    ContentRangeText(a, b, c, start, end, total);
  }

  /** A total the server does not know reads back as unknown. */
  lemma UnknownTotalRoundTrip(start: U64, end: U64)
    ensures ParseContentRange("bytes " + Dec(start) + "-" + Dec(end) + "/*") == Some((start, end, None))
  {
    hide Dec;
    var a := Printed(start);
    var b := Printed(end);
    StarText(a, b, start, end);
  }

  lemma StarText(a: string, b: string, start: U64, end: U64)
    requires AllDigits(a) && AllDigits(b) && StrictU64(a) == Some(start) && StrictU64(b) == Some(end)
    ensures ParseContentRange("bytes " + a + "-" + b + "/*") == Some((start, end, None))
  {
    hide StrictU64, SplitOnce;
    var range := a + ['-'] + b;
    var cr := "bytes " + a + "-" + b + "/*";
    assert cr[..6] == "bytes ";
    assert cr[6..] == range + ['/'] + "*";
    NoSeparator(a, '/');
    NoSeparator(b, '/');
    SplitAt(range, '/', "*");
    NoSeparator(a, '-');
    SplitAt(a, '-', b);
  }

  /** A refusal's total survives the trip, and an unknown one stays unknown. */
  lemma UnsatisfiedRoundTrip(total: Option<U64>)
    ensures UnsatisfiedTotal(UnsatisfiedRange(total)) == total
  {
    var text := if total.Some? then Dec(total.value) else "*";
    assert UnsatisfiedRange(total) == "bytes" + [' '] + ("*/" + text);
    SplitAt("bytes", ' ', "*/" + text);
    assert ("*/" + text)[2..] == text;
    if total.Some? {
      DecRoundTrip(total.value);
    } else {
      assert Trim("*") == "*" && !IsDigit("*"[0]);
    }
  }

  /** The whole trip: the fetcher's header, the server's parse and resolution, the bounds
      printed in its reply, the pump's validation. The pump accepts, for exactly the bytes
      that exist. */
  lemma WireRoundTrip(t: U64, offset: U64, len: U64, known: Option<nat>) returns (spec: RangeSpec, end: U64)
    requires offset < t && len >= 1
    requires known.None? || known.value == t
    ensures ParseRange(RangeHeader(offset, len)) == Some(spec)
    ensures ResolveRange(spec, Some(t)) == Ok((offset, end))
    ensures ValidateHead(known, Some(ContentRange(offset, end, t)), offset, len)
            == Ok(Head(Min(len, t - offset), Some(t)))
  {
    hide ParseRange, RangeHeader, ValidateHead, ContentRange;
    spec := Interval(offset, SatAdd(offset, len - 1));
    end := Min(spec.last, t - 1);
    RequestRoundTrip(offset, len);
    ReplyAccepted(t, offset, end, len, known);
  }

  lemma ReplyAccepted(t: U64, offset: U64, end: U64, len: U64, known: Option<nat>)
    requires offset <= end < t && end - offset + 1 <= len
    requires known.None? || known.value == t
    ensures ValidateHead(known, Some(ContentRange(offset, end, t)), offset, len) == Ok(Head(end - offset + 1, Some(t)))
  {
    ContentRangeRoundTrip(offset, end, t);
    HeadOf(known, ContentRange(offset, end, t), offset, end, t, len);
  }

  lemma HeadOf(known: Option<nat>, cr: string, offset: U64, end: U64, t: U64, len: U64)
    requires ParseContentRange(cr) == Some((offset, end, Some(t)))
    requires offset <= end < t && end - offset + 1 <= len
    requires known.None? || known.value == t
    ensures ValidateHead(known, Some(cr), offset, len) == Ok(Head(end - offset + 1, Some(t)))
  {
  }

  /** What acceptance means, for any header text at all: the declared bytes start at the
      request, fit it, stay below any reported total, and never move a known total. */
  lemma AcceptedHead(known: Option<nat>, cr: Option<string>, offset: U64, maxLen: U64)
    requires ValidateHead(known, cr, offset, maxLen).Ok?
    ensures var h := ValidateHead(known, cr, offset, maxLen).value;
            && cr.Some?
            && 1 <= h.declared <= maxLen
            && (known.Some? ==> h.total == known)
            && ParseContentRange(cr.value).Some?
            && var (start, end, total) := ParseContentRange(cr.value).value;
            && start == offset && end == offset + h.declared - 1
            && (total.Some? ==> h.total == total && offset + h.declared <= total.value)
  {
  }

  /** When a readable head is accepted: exactly if it starts at the request, is not reversed, is no longer
      than what was asked for, ends below the total it reports and does not move a known one. */
  lemma HeadExact(known: Option<nat>, cr: string, offset: U64, maxLen: U64)
    requires ParseContentRange(cr).Some?
    ensures var (start, end, total) := ParseContentRange(cr).value;
            ValidateHead(known, Some(cr), offset, maxLen).Ok? <==>
              && start == offset && offset <= end < offset + maxLen
              && (total.Some? ==> end < total.value && (known.None? || known == total))
    ensures ValidateHead(known, Some(cr), offset, maxLen).Err? ==>
              ValidateHead(known, Some(cr), offset, maxLen).error == InvalidResponse
  {
  }
}
