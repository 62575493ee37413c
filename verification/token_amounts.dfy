/** Token amounts: parsing and formatting decimals with six places. */
module TokenAmounts {
  import opened WalletTypes
  import opened Numerals

  const PLACES := 6
  const UNIT := 1_000_000

  /** White space as String.prototype.trim removes it. */
  predicate IsSpace(c: char) {
    '\t' <= c <= '\r' || c == ' ' || c == '\U{a0}' || c == '\U{1680}' || '\U{2000}' <= c <= '\U{200a}'
    || c == '\U{2028}' || c == '\U{2029}' || c == '\U{202f}' || c == '\U{205f}' || c == '\U{3000}' || c == '\U{feff}'
  }

  function Trim(s: string): string {
    TrimEnd(TrimStart(s))
  }

  function TrimStart(s: string): string {
    if s != "" && IsSpace(s[0]) then TrimStart(s[1..]) else s
  }

  function TrimEnd(s: string): string {
    if s != "" && IsSpace(s[|s| - 1]) then TrimEnd(s[..|s| - 1]) else s
  }

  function DigitRun(s: string): (k: nat)
    ensures k <= |s|
  {
    if s == "" || !IsDecimal(s[0]) then 0 else DigitRun(s[1..]) + 1
  }

  lemma {:induction false} DigitRunIsLongest(s: string)
    ensures AllDecimal(s[..DigitRun(s)]) && (DigitRun(s) < |s| ==> !IsDecimal(s[DigitRun(s)]))
  {
    if s != "" && IsDecimal(s[0]) {
      DigitRunIsLongest(s[1..]);
      var k := DigitRun(s[1..]);
      assert s[..k + 1] == [s[0]] + s[1..][..k];
    }
  }

  /** parseTokenAmount */
  function Parse(s: string): Option<nat> {
    ParseTrimmed(Trim(s))
  }

  function ParseTrimmed(t: string): Option<nat> {
    ParseAt(t, DigitRun(t))
  }

  /** The leading digits end at k. */
  function ParseAt(t: string, k: nat): Option<nat>
    requires k <= |t|
  {
    if k == 0 then None
    else
      var whole := Value(10, t[..k]) * UNIT;
      if k == |t| then Some(whole)
      else if t[k] != '.' || !AllDecimal(t[k + 1..]) || |t[k + 1..]| > PLACES then None
      else Some(whole + Value(10, PadEnd(t[k + 1..], PLACES)))
  }

  function StripZeros(s: string): (r: string)
    ensures |r| <= |s| && r == s[..|r|] && s[|r|..] == Zeros(|s| - |r|)
    ensures r != "" ==> r[|r| - 1] != '0'
  {
    if s != "" && s[|s| - 1] == '0' then
      var r := StripZeros(s[..|s| - 1]);
      assert s[|r|..] == s[..|s| - 1][|r|..] + ['0'];
      r
    else s
  }

  /** formatTokenAmount */
  function Format(v: nat): string {
    var whole := Numeral(10, v / UNIT);
    var fraction := StripZeros(PadStart(Numeral(10, v % UNIT), PLACES));
    if fraction == "" then whole else whole + "." + fraction
  }

  // --- Meaning and round trips ---------------------------------------------------------------

  lemma TrimNothing(s: string)
    requires s != "" && !IsSpace(s[0]) && !IsSpace(s[|s| - 1])
    ensures Trim(s) == s
  {
  }

  lemma {:induction false} DigitRunOf(w: string, rest: string)
    requires AllDecimal(w) && (rest != "" ==> !IsDecimal(rest[0]))
    ensures DigitRun(w + rest) == |w|
  {
    if w == "" {
      assert w + rest == rest;
    } else {
      assert (w + rest)[1..] == w[1..] + rest;
      DigitRunOf(w[1..], rest);
    }
  }

  /** Parsing s yields v. */
  predicate Parses(s: string, v: nat) {
    Parse(s) == Some(v)
  }

  lemma ParseWhole(w: string)
    requires w != "" && AllDecimal(w)
    ensures Parses(w, Value(10, w) * UNIT)
  {
    TrimNothing(w);
    DigitRunOf(w, "");
    assert w + "" == w;
  }

  lemma PointTrims(w: string, f: string)
    requires w != "" && AllDecimal(w) && AllDecimal(f)
    ensures Trim(w + "." + f) == w + "." + f
  {
    var t := w + "." + f;
    assert t[0] == w[0] && (t[|t| - 1] == '.' || t[|t| - 1] == f[|f| - 1]);
    TrimNothing(t);
  }

  lemma PointRuns(w: string, f: string)
    requires AllDecimal(w)
    ensures DigitRun(w + "." + f) == |w|
  {
    assert w + "." + f == w + ("." + f);
    DigitRunOf(w, "." + f);
  }

  lemma PointParses(w: string, f: string, fraction: nat)
    requires w != "" && AllDecimal(w) && AllDecimal(f) && |f| <= PLACES && Value(10, PadEnd(f, PLACES)) == fraction
    ensures ParseAt(w + "." + f, |w|) == Some(Value(10, w) * UNIT + fraction)
  {
    PointSlices(w, f);
    ParseAtParts(w + "." + f, |w|, w, f, fraction);
  }

  lemma PointSlices(w: string, f: string)
    ensures (w + "." + f)[..|w|] == w && (w + "." + f)[|w| + 1..] == f && (w + "." + f)[|w|] == '.'
  {
  }

  lemma ParseAtParts(t: string, k: nat, w: string, f: string, fraction: nat)
    requires 0 < k < |t| && t[..k] == w && t[k] == '.' && t[k + 1..] == f
    requires AllDecimal(f) && |f| <= PLACES && Value(10, PadEnd(f, PLACES)) == fraction
    ensures ParseAt(t, k) == Some(Value(10, w) * UNIT + fraction)
  {
  }

  lemma ParsePointValue(w: string, f: string, fraction: nat)
    requires w != "" && AllDecimal(w) && AllDecimal(f) && |f| <= PLACES && Value(10, PadEnd(f, PLACES)) == fraction
    ensures Parses(w + "." + f, Value(10, w) * UNIT + fraction)
  {
    PointTrims(w, f);
    PointRuns(w, f);
    PointParses(w, f, fraction);
  }

  lemma PadEndValue(f: string)
    requires |f| <= PLACES
    ensures Value(10, PadEnd(f, PLACES)) == Scaled(10, Value(10, f), PLACES - |f|)
  {
    if |f| < PLACES { TrailingZeros(10, f, PLACES - |f|); }
  }

  /** A decimal with at most six places means what it says, to the last place: the
      fraction f counts f * 10^(6 - |f|) millionths. */
  lemma ParseDecimal(w: string, f: string, millionths: nat)
    requires w != "" && AllDecimal(w) && AllDecimal(f) && |f| <= PLACES
    requires millionths == Scaled(10, Value(10, f), PLACES - |f|)
    ensures Parses(w + "." + f, Value(10, w) * UNIT + millionths)
  {
    PadEndValue(f);
    ParsePointValue(w, f, millionths);
  }

  /** Exactly those texts are accepted: digits, then at most a point and six more digits. */
  lemma AcceptsIff(s: string)
    ensures Parse(s).Some? <==>
            var t := Trim(s);
            exists k :: 0 < k <= |t| && AllDecimal(t[..k])
                        && (k == |t| || (t[k] == '.' && AllDecimal(t[k + 1..]) && |t| - k - 1 <= PLACES))
  {
    var t := Trim(s);
    var k := DigitRun(t);
    DigitRunIsLongest(t);
    forall j | 0 < j <= |t| && AllDecimal(t[..j]) && (j == |t| || t[j] == '.') ensures j == k {
      assert t == t[..j] + t[j..];
      DigitRunOf(t[..j], t[j..]);
    }
    if Parse(s).Some? { assert 0 < k <= |t| && AllDecimal(t[..k]); }
  }

  /** The printed fraction: six places without their trailing zeros. */
  lemma FractionValue(m: nat, f: string)
    requires m < UNIT && f == StripZeros(PadStart(Numeral(10, m), PLACES))
    ensures |f| <= PLACES && AllDecimal(f) && Value(10, PadEnd(f, PLACES)) == m
  {
    var n := Numeral(10, m);
    NumeralValue(10, m);
    DecimalDigits(m);
    assert Pow(10, 6) == UNIT;
    NumeralLength(10, m, PLACES);
    PaddedValue(10, n, PLACES);
    StripThenPad(PadStart(n, PLACES));
  }

  lemma StripThenPad(s: string)
    requires |s| == PLACES && AllDecimal(s)
    ensures AllDecimal(StripZeros(s)) && PadEnd(StripZeros(s), PLACES) == s
  {
    var f := StripZeros(s);
    assert s == f + Zeros(PLACES - |f|);
  }

  lemma ZeroFraction()
    ensures Value(10, PadEnd("", PLACES)) == 0
  {
    LeadingZeros(10, PLACES, "");
    assert Zeros(PLACES) + "" == "" + Zeros(PLACES);
  }

  lemma ParseParts(s: string, w: string, whole: nat, fraction: nat, f: string)
    requires s == if f == "" then w else w + "." + f
    requires w != "" && AllDecimal(w) && Value(10, w) == whole
    requires |f| <= PLACES && AllDecimal(f) && Value(10, PadEnd(f, PLACES)) == fraction
    ensures Parses(s, whole * UNIT + fraction)
  {
    if f == "" {
      ZeroFraction();
      ParseWhole(w);
    } else {
      ParsePointValue(w, f, fraction);
    }
  }

  /** What a formatted amount is made of. */
  lemma FormatParts(v: nat) returns (w: string, f: string)
    ensures Format(v) == if f == "" then w else w + "." + f
    ensures w != "" && AllDecimal(w) && Value(10, w) == v / UNIT
    ensures |f| <= PLACES && AllDecimal(f) && Value(10, PadEnd(f, PLACES)) == v % UNIT
  {
    w, f := Numeral(10, v / UNIT), StripZeros(PadStart(Numeral(10, v % UNIT), PLACES));
    NumeralValue(10, v / UNIT);
    DecimalDigits(v / UNIT);
    FractionValue(v % UNIT, f);
  }

  /** Parsing a formatted amount gives the amount back, for every natural number. */
  lemma FormatThenParse(v: nat)
    ensures Parses(Format(v), v)
  {
    var w, f := FormatParts(v);
    ParseParts(Format(v), w, v / UNIT, v % UNIT, f);
  }

  /** Different amounts look different. */
  lemma FormatInjective(a: nat, b: nat)
    requires Format(a) == Format(b)
    ensures a == b
  {
    FormatThenParse(a);
    FormatThenParse(b);
  }
}
