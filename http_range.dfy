/** The two textual forms of byte ranges the downloaders use: the `Range: bytes=a-b`
    request header (section 14.2 of RFC 9110) and the `Content-Range: bytes a-b/total`
    response header (section 14.4 of RFC 9110), read with the regular expression
    `bytes (\d+)-(\d+)\/(\d+)`. */
module HttpRange {
  import opened Basics
  import opened Decimal

  /** An inclusive byte range `first-last`. */
  datatype ByteRange = ByteRange(first: nat, last: nat)

  /** The three numbers captured from a `Content-Range` value. */
  datatype ContentRange = ContentRange(start: nat, end: nat, total: nat)

  /** The chunk's `range` field, the template literal `${first}-${last}`. */
  function RangeText(r: ByteRange): string {
    NatToString(r.first) + "-" + NatToString(r.last)
  }

  /** The value of the `range` request header, `bytes=${range}`. */
  function RangeHeader(r: ByteRange): string {
    "bytes=" + RangeText(r)
  }

  /** The length of the longest run of digits in `s` starting at `i`. */
  function DigitRun(s: string, i: nat): (n: nat)
    requires i <= |s|
    ensures i + n <= |s|
    ensures AllDigits(s[i..i + n])
    ensures i + n == |s| || !IsDigit(s[i + n])
    decreases |s| - i
  {
    if i < |s| && IsDigit(s[i]) then
      var n := DigitRun(s, i + 1);
      assert s[i..i + 1 + n] == [s[i]] + s[i + 1..i + 1 + n];
      1 + n
    else 0
  }

  /** A run of `n` digits that is not followed by a digit is exactly what `DigitRun` finds. */
  lemma {:induction false} DigitRunExact(s: string, i: nat, n: nat)
    requires i + n <= |s| && AllDigits(s[i..i + n])
    requires i + n == |s| || !IsDigit(s[i + n])
    ensures DigitRun(s, i) == n
    decreases n
  {
    if n > 0 {
      assert IsDigit(s[i..i + n][0]);
      assert s[i + 1..i + n] == s[i..i + n][1..];
      DigitRunExact(s, i + 1, n - 1);
    }
  }

  /** Reads the range text `first-last` back: a digit run, a dash, a digit run, and nothing else.
      This is the reading a server applies to the `range` header after `bytes=`. */
  function ParseRangeText(s: string): Option<ByteRange> {
    var n := DigitRun(s, 0);
    if n == 0 || n >= |s| || s[n] != '-' then None
    else
      var m := DigitRun(s, n + 1);
      if m == 0 || n + 1 + m != |s| then None
      else Some(ByteRange(ParseDigits(s[..n]), ParseDigits(s[n + 1..])))
  }

  /** The range text round-trips: the server reads back exactly the range the chunk holds. */
  lemma {:induction false} RangeTextRoundTrip(r: ByteRange)
    ensures ParseRangeText(RangeText(r)) == Some(r)
  {
    var a, b := NatToString(r.first), NatToString(r.last);
    var s := RangeText(r);
    assert s[..|a|] == a;
    assert s[|a| + 1..|a| + 1 + |b|] == b;
    DigitRunExact(s, 0, |a|);
    DigitRunExact(s, |a| + 1, |b|);
    assert s[|a| + 1..] == b;
    ParseNatToString(r.first);
    ParseNatToString(r.last);
  }

  /** Different chunks always send different `range` headers. */
  lemma {:induction false} RangeHeaderInjective(r1: ByteRange, r2: ByteRange)
    requires RangeHeader(r1) == RangeHeader(r2)
    ensures r1 == r2
  {
    assert RangeText(r1) == RangeHeader(r1)[6..];
    assert RangeText(r2) == RangeHeader(r2)[6..];
    RangeTextRoundTrip(r1);
    RangeTextRoundTrip(r2);
  }

  /** One `(\d+)` capture followed by the separator `sep`, starting at `i`: the number and
      the position after the separator. `\d+` takes the longest digit run; a shorter one is
      followed by a digit, never by `sep`, so backtracking cannot change the capture. */
  function Field(s: string, i: nat, sep: char): (r: Option<(nat, nat)>)
    requires i <= |s|
    ensures r.Some? ==> i < r.value.1 <= |s|
  {
    var n := DigitRun(s, i);
    if n == 0 || i + n >= |s| || s[i + n] != sep then None
    else Some((ParseDigits(s[i..i + n]), i + n + 1))
  }

  /** The final `(\d+)` capture starting at `i`. */
  function Tail(s: string, i: nat): Option<nat>
    requires i <= |s|
  {
    var n := DigitRun(s, i);
    if n == 0 then None else Some(ParseDigits(s[i..i + n]))
  }

  /** The regular expression `bytes (\d+)-(\d+)\/(\d+)` tried at position `p`. */
  function MatchAt(s: string, p: nat): Option<ContentRange>
    requires p <= |s|
  {
    if !OccursAt("bytes ", s, p) then None
    else
      match Field(s, p + 6, '-')
      case None => None
      case Some((x, b)) =>
        match Field(s, b, '/')
        case None => None
        case Some((y, c)) =>
          match Tail(s, c)
          case None => None
          case Some(z) => Some(ContentRange(x, y, z))
  }

  /** The leftmost match at or after position `p`. */
  function FirstMatch(s: string, p: nat): (r: Option<ContentRange>)
    requires p <= |s|
    decreases |s| - p
  {
    if MatchAt(s, p).Some? then MatchAt(s, p)
    else if p == |s| then None
    else FirstMatch(s, p + 1)
  }

  /** `FirstMatch` finds nothing exactly when the expression matches at no position. */
  lemma {:induction false} FirstMatchNone(s: string, p: nat)
    requires p <= |s|
    ensures FirstMatch(s, p).None? <==> forall q :: p <= q <= |s| ==> MatchAt(s, q).None?
    decreases |s| - p
  {
    if MatchAt(s, p).None? && p < |s| {
      FirstMatchNone(s, p + 1);
    }
  }

  /** What `FirstMatch` finds is the match at some position `q` with no match before `q`. */
  lemma {:induction false} FirstMatchLeftmost(s: string, p: nat) returns (q: nat)
    requires p <= |s|
    requires FirstMatch(s, p).Some?
    ensures p <= q <= |s| && MatchAt(s, q) == FirstMatch(s, p)
    ensures forall q' :: p <= q' < q ==> MatchAt(s, q').None?
    decreases |s| - p
  {
    if MatchAt(s, p).Some? {
      q := p;
    } else {
      q := FirstMatchLeftmost(s, p + 1);
    }
  }

  /** `contentRange.match(/bytes (\d+)-(\d+)\/(\d+)/)`: the unanchored regular expression
      searches for its leftmost match; `None` when the value has no match at all. */
  function ParseContentRange(s: string): Option<ContentRange> {
    FirstMatch(s, 0)
  }

  /** The `Content-Range` value a server sends, `bytes start-end/total`. */
  function ContentRangeText(c: ContentRange): string {
    "bytes " + NatToString(c.start) + "-" + NatToString(c.end) + "/" + NatToString(c.total)
  }

  lemma {:induction false} FieldAfter(pre: string, d: string, sep: char, rest: string)
    requires |d| > 0 && AllDigits(d) && !IsDigit(sep)
    ensures Field(pre + d + [sep] + rest, |pre|, sep) == Some((ParseDigits(d), |pre| + |d| + 1))
  {
    var s := pre + d + [sep] + rest;
    assert s[|pre|..|pre| + |d|] == d;
    DigitRunExact(s, |pre|, |d|);
  }

  lemma {:induction false} TailAfter(pre: string, d: string)
    requires |d| > 0 && AllDigits(d)
    ensures Tail(pre + d, |pre|) == Some(ParseDigits(d))
  {
    var s := pre + d;
    assert s[|pre|..|pre| + |d|] == d;
    DigitRunExact(s, |pre|, |d|);
  }

  /** The expression matches at the start of `bytes x-y/z` for digit runs `x`, `y`, `z`. */
  lemma {:induction false} MatchAtStart(x: string, y: string, z: string)
    requires |x| > 0 && |y| > 0 && |z| > 0 && AllDigits(x) && AllDigits(y) && AllDigits(z)
    ensures MatchAt("bytes " + x + "-" + y + "/" + z, 0)
            == Some(ContentRange(ParseDigits(x), ParseDigits(y), ParseDigits(z)))
  {
    var p1 := "bytes ";
    var p2 := p1 + x + "-";
    var p3 := p2 + y + "/";
    var s := p3 + z;
    assert s == p1 + x + "-" + y + "/" + z;
    assert OccursAt(p1, s, 0) by {
      assert s[..6] == p1;
    }
    assert Field(s, 6, '-') == Some((ParseDigits(x), |p2|)) by {
      assert s == p1 + x + ['-'] + (y + "/" + z);
      FieldAfter(p1, x, '-', y + "/" + z);
    }
    assert Field(s, |p2|, '/') == Some((ParseDigits(y), |p3|)) by {
      assert s == p2 + y + ['/'] + z;
      FieldAfter(p2, y, '/', z);
    }
    TailAfter(p3, z);
  }

  /** A well-formed `Content-Range` value parses back to its three numbers. */
  lemma {:induction false} ContentRangeRoundTrip(c: ContentRange)
    ensures ParseContentRange(ContentRangeText(c)) == Some(c)
  {
    var x, y, z := NatToString(c.start), NatToString(c.end), NatToString(c.total);
    MatchAtStart(x, y, z);
    ParseNatToString(c.start);
    ParseNatToString(c.end);
    ParseNatToString(c.total);
  }
}
