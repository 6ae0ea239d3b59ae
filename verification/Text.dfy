/** The few string operations the range headers need, over ASCII text. */
module Text {
  import opened Prelude

  predicate IsDigit(c: char) {
    '0' <= c <= '9'
  }

  predicate IsSpace(c: char) {
    c == ' ' || ('\t' <= c <= '\r')
  }

  predicate AllDigits(s: string) {
    forall i :: 0 <= i < |s| ==> IsDigit(s[i])
  }

  function Lower(c: char): char {
    if 'A' <= c <= 'Z' then c - 'A' + 'a' else c
  }

  predicate EqIgnoreCase(a: string, b: string) {
    |a| == |b| && forall i :: 0 <= i < |a| ==> Lower(a[i]) == Lower(b[i])
  }

  /** `str::trim` over ASCII white space. */
  function Trim(s: string): (t: string) {
    if s != "" && IsSpace(s[0]) then Trim(s[1..])
    else if s != "" && IsSpace(s[|s| - 1]) then Trim(s[..|s| - 1])
    else s
  }

  /** Trimming drops white space alone. */
  lemma {:induction false} TrimKeeps(s: string, c: char)
    requires !IsSpace(c)
    ensures c in Trim(s) <==> c in s
    decreases |s|
  {
    if s != "" && IsSpace(s[0]) {
      TrimKeeps(s[1..], c);
      assert s == [s[0]] + s[1..];
    } else if s != "" && IsSpace(s[|s| - 1]) {
      TrimKeeps(s[..|s| - 1], c);
      assert s == s[..|s| - 1] + [s[|s| - 1]];
    }
  }

  predicate AllSpace(s: string) {
    forall i :: 0 <= i < |s| ==> IsSpace(s[i])
  }

  /** And it drops all of it at both ends. */
  lemma {:induction false} TrimStrips(a: string, s: string, b: string)
    requires AllSpace(a) && AllSpace(b)
    requires s != "" && !IsSpace(s[0]) && !IsSpace(s[|s| - 1])
    ensures Trim(a + s + b) == s
    decreases |a| + |b|
  {
    var t := a + s + b;
    if a != "" {
      assert t[0] == a[0] && t[1..] == a[1..] + s + b;
      TrimStrips(a[1..], s, b);
    } else if b != "" {
      assert t[0] == s[0] && t[|t| - 1] == b[|b| - 1] && t[..|t| - 1] == a + s + b[..|b| - 1];
      TrimStrips(a, s, b[..|b| - 1]);
    } else {
      assert t == s;
    }
  }

  /** `str::split_once`: around the first occurrence. */
  function SplitOnce(s: string, c: char): (r: Option<(string, string)>)
    ensures r.Some? ==> s == r.value.0 + [c] + r.value.1 && c !in r.value.0
    ensures r.None? <==> c !in s
  {
    if s == "" then None
    else if s[0] == c then Some(("", s[1..]))
    else
      match SplitOnce(s[1..], c)
      case None => None
      case Some((a, b)) =>
        assert s == [s[0]] + s[1..];
        Some(([s[0]] + a, b))
  }

  /** The split is the only one with no separator on the left. */
  lemma {:induction false} SplitAt(a: string, c: char, b: string)
    requires c !in a
    ensures SplitOnce(a + [c] + b, c) == Some((a, b))
    decreases a
  {
    var s := a + [c] + b;
    if a == "" {
      assert s[1..] == b;
    } else {
      assert s[1..] == a[1..] + [c] + b;
      SplitAt(a[1..], c, b);
      assert a == [a[0]] + a[1..];
    }
  }

  /** Decimal value of a digit string. */
  function Value(s: string): nat
    requires AllDigits(s)
  {
    if s == "" then 0 else Value(s[..|s| - 1]) * 10 + (s[|s| - 1] - '0') as nat
  }

  /** Decimal digits, as `format!` prints an unsigned integer. */
  function Dec(n: nat): string {
    var d := [('0' as int + n % 10) as char];
    if n < 10 then d else Dec(n / 10) + d
  }

  lemma {:induction false} DecValue(n: nat)
    ensures Dec(n) != "" && AllDigits(Dec(n)) && Value(Dec(n)) == n
  {
    var s := Dec(n);
    if n >= 10 {
      DecValue(n / 10);
      assert s[..|s| - 1] == Dec(n / 10);
    } else {
      assert s[..0] == "";
    }
  }

  /** Digits only, inside 64 bits. */
  function DigitsToU64(s: string): Option<U64> {
    if s == "" || !AllDigits(s) || Value(s) > U64_MAX then None else Some(Value(s))
  }

  /** The pump's number rule: trimmed, digits only. */
  function StrictU64(s: string): Option<U64> {
    DigitsToU64(Trim(s))
  }

  /** `str::parse::<u64>`, which tolerates one leading `+`. */
  function ParseU64(s: string): Option<U64> {
    if s != "" && s[0] == '+' then DigitsToU64(s[1..]) else DigitsToU64(s)
  }

  /** One leading plus is tolerated by the server and refused by the pump. */
  lemma PlusTolerated(n: U64)
    ensures ParseU64("+" + Dec(n)) == Some(n) && StrictU64("+" + Dec(n)) == None
  {
    DecValue(n);
    var s := "+" + Dec(n);
    assert s[1..] == Dec(n) && !IsDigit(s[0]);
    assert s[|s| - 1] == Dec(n)[|Dec(n)| - 1];
    assert Trim(s) == s;
  }

  lemma TrimDigits(s: string)
    requires s != "" && AllDigits(s)
    ensures Trim(s) == s
  {
    assert IsDigit(s[0]) && IsDigit(s[|s| - 1]);
  }

  /** Printing then reading a 64-bit number, under either rule, is the identity. */
  lemma DecRoundTrip(n: U64)
    ensures Dec(n) != "" && AllDigits(Dec(n)) && Trim(Dec(n)) == Dec(n)
    ensures StrictU64(Dec(n)) == Some(n) && ParseU64(Dec(n)) == Some(n)
  {
    DecValue(n);
    TrimDigits(Dec(n));
    assert IsDigit(Dec(n)[0]);
  }
}
