/** Human-readable byte rates and sizes: an exact rational parser and the
    printer whose text it reads back.

    Errors are not told apart: None stands for every refusal. */
module Quantity {
  import opened Wrappers
  import opened Text

  /** The bytes one unit stands for, as a fraction. */
  datatype Factor = Factor(num: nat, den: nat)

  datatype DisplayUnit = DisplayUnit(name: string, factor: Factor)

  const RATE_UNITS: map<string, Factor> := map[
    "bps" := Factor(1, 8), "Kbps" := Factor(1_000, 8), "Mbps" := Factor(1_000_000, 8),
    "Gbps" := Factor(1_000_000_000, 8), "Tbps" := Factor(1_000_000_000_000, 8),
    "B/s" := Factor(1, 1), "KB/s" := Factor(1_000, 1), "MB/s" := Factor(1_000_000, 1),
    "GB/s" := Factor(1_000_000_000, 1), "TB/s" := Factor(1_000_000_000_000, 1),
    "KiB/s" := Factor(0x400, 1), "MiB/s" := Factor(0x10_0000, 1),
    "GiB/s" := Factor(0x4000_0000, 1), "TiB/s" := Factor(0x100_0000_0000, 1)]

  const SIZE_UNITS: map<string, Factor> := map[
    "B" := Factor(1, 1), "KB" := Factor(1_000, 1), "MB" := Factor(1_000_000, 1),
    "GB" := Factor(1_000_000_000, 1), "TB" := Factor(1_000_000_000_000, 1),
    "KiB" := Factor(0x400, 1), "MiB" := Factor(0x10_0000, 1),
    "GiB" := Factor(0x4000_0000, 1), "TiB" := Factor(0x100_0000_0000, 1)]

  const RATE_DISPLAY: seq<DisplayUnit> := [
    DisplayUnit("Tbps", Factor(1_000_000_000_000, 8)), DisplayUnit("Gbps", Factor(1_000_000_000, 8)),
    DisplayUnit("Mbps", Factor(1_000_000, 8)), DisplayUnit("Kbps", Factor(1_000, 8)),
    DisplayUnit("TiB/s", Factor(0x100_0000_0000, 1)), DisplayUnit("GiB/s", Factor(0x4000_0000, 1)),
    DisplayUnit("MiB/s", Factor(0x10_0000, 1)), DisplayUnit("KiB/s", Factor(0x400, 1)),
    DisplayUnit("B/s", Factor(1, 1))]

  const SIZE_DISPLAY: seq<DisplayUnit> := [
    DisplayUnit("TB", Factor(1_000_000_000_000, 1)), DisplayUnit("GB", Factor(1_000_000_000, 1)),
    DisplayUnit("MB", Factor(1_000_000, 1)), DisplayUnit("KB", Factor(1_000, 1)),
    DisplayUnit("TiB", Factor(0x100_0000_0000, 1)), DisplayUnit("GiB", Factor(0x4000_0000, 1)),
    DisplayUnit("MiB", Factor(0x10_0000, 1)), DisplayUnit("KiB", Factor(0x400, 1)),
    DisplayUnit("B", Factor(1, 1))]

  // ---------- Decimal text ----------

  predicate IsDigit(c: char) { '0' <= c <= '9' }

  predicate AllDigits(s: string) { forall i :: 0 <= i < |s| ==> IsDigit(s[i]) }

  function Value(digits: string): nat
    requires AllDigits(digits)
  {
    if digits == "" then 0 else 10 * Value(digits[..|digits| - 1]) + (digits[|digits| - 1] as int - '0' as int)
  }

  function Pow10(k: nat): (p: nat)
    ensures p > 0
  {
    if k == 0 then 1 else 10 * Pow10(k - 1)
  }

  /** A decimal numeral: digits, or digits on both sides of a point. */
  datatype Number = Number(whole: string, frac: string)

  predicate NumberOk(n: Number) { n.whole != "" && AllDigits(n.whole) && AllDigits(n.frac) }

  function Numeral(n: Number): string { if n.frac == "" then n.whole else n.whole + "." + n.frac }

  /** The numeral is Scaled(n) / Pow10(|n.frac|). */
  function Scaled(n: Number): nat
    requires NumberOk(n)
  {
    Value(n.whole) * Pow10(|n.frac|) + Value(n.frac)
  }

  // ---------- Parsing ----------

  function DigitRun(s: string): (n: nat)
    ensures n <= |s| && AllDigits(s[..n]) && (n < |s| ==> !IsDigit(s[n]))
  {
    if s != "" && IsDigit(s[0]) then 1 + DigitRun(s[1..]) else 0
  }

  /** The longest numeral the text starts with. */
  function LeadingNumber(s: string): (n: Option<Number>)
    ensures n.Some? ==> NumberOk(n.value) && |Numeral(n.value)| <= |s|
  {
    var n := DigitRun(s);
    if n == 0 then None
    else if n + 1 < |s| && s[n] == '.' && DigitRun(s[n + 1..]) > 0 then
      Some(Number(s[..n], s[n + 1..][..DigitRun(s[n + 1..])]))
    else Some(Number(s[..n], ""))
  }

  /** The pattern's blanks. */
  predicate IsBlank(c: char) { c == ' ' || c == '\t' || c == '\n' || c == '\r' || c == '\U{c}' }

  function SkipBlanks(s: string): string { if s != "" && IsBlank(s[0]) then SkipBlanks(s[1..]) else s }

  predicate NoBlanks(s: string) { forall i :: 0 <= i < |s| ==> !IsBlank(s[i]) }

  /** Splits a number from its unit.  Where this finds no unit the pattern may
      still match by giving back part of the number, but to a "unit" that starts
      with a digit or a point, which no table has. */
  function Split(s: string): (r: Option<(Number, string)>)
    ensures r.Some? ==> NumberOk(r.value.0)
  {
    var n := LeadingNumber(s);
    if n.None? then None
    else
      var unit := SkipBlanks(s[|Numeral(n.value)|..]);
      if unit != "" && NoBlanks(unit) then Some((n.value, unit)) else None
  }

  /** A 64-bit integer with an optional sign. */
  function ParseInt(s: string): (r: Option<int>)
    ensures r.Some? ==> -MAX_INT64 - 1 <= r.value <= MAX_INT64
  {
    var signed := s != "" && (s[0] == '+' || s[0] == '-');
    var digits := if signed then s[1..] else s;
    if digits == "" || !AllDigits(digits) then None
    else
      var magnitude: int := Value(digits);
      var v := if signed && s[0] == '-' then -magnitude else magnitude;
      if -MAX_INT64 - 1 <= v <= MAX_INT64 then Some(v) else None
  }

  /** number * factor, when that is a whole number of bytes within range. */
  function Product(n: Number, f: Factor): (r: Option<int>)
    requires NumberOk(n)
    ensures r.Some? ==> 0 <= r.value <= MAX_INT64
  {
    var top, bottom := Scaled(n) * f.num, Pow10(|n.frac|) * f.den;
    if bottom == 0 || top % bottom != 0 || top / bottom > MAX_INT64 then None else Some(top / bottom)
  }

  function Parse(text: string, units: map<string, Factor>): (r: Option<int>)
    ensures r.Some? ==> 0 <= r.value <= MAX_INT64
  {
    var raw := TrimSpace(text);
    if raw == "" then None
    else if raw == "0" then Some(0)
    else
      var integer := ParseInt(raw);
      if integer.Some? then (if integer.value < 0 then None else integer)
      else
        var parts := Split(raw);
        if parts.None? || parts.value.1 !in units then None
        else Product(parts.value.0, units[parts.value.1])
  }

  /** A unit name the parser can tell from the number before it. */
  predicate UnitName(unit: string)
  {
    && unit != ""
    && !IsDigit(unit[0]) && unit[0] != '.'
    && (forall i :: 0 <= i < |unit| ==> !IsBlank(unit[i]))
    && !IsSpace(unit[|unit| - 1])
  }

  predicate AllBlank(s: string) { forall i :: 0 <= i < |s| ==> IsBlank(s[i]) }

  lemma {:induction false} DigitRunIs(s: string, n: nat)
    requires n <= |s| && AllDigits(s[..n]) && (n < |s| ==> !IsDigit(s[n]))
    ensures DigitRun(s) == n
  {
  }

  lemma {:induction false} BlanksSkipped(blanks: string, unit: string)
    requires AllBlank(blanks) && UnitName(unit)
    ensures SkipBlanks(blanks + unit) == unit
  {
    if blanks == "" {
      assert blanks + unit == unit;
    } else {
      BlanksSkipped(blanks[1..], unit);
      assert (blanks + unit)[1..] == blanks[1..] + unit;
    }
  }

  lemma LeadingNumberIs(n: Number, rest: string)
    requires NumberOk(n) && rest != "" && !IsDigit(rest[0]) && rest[0] != '.'
    ensures LeadingNumber(Numeral(n) + rest) == Some(n)
  {
    var s := Numeral(n) + rest;
    var w := |n.whole|;
    assert s[..w] == n.whole;
    DigitRunIs(s, w);
    if n.frac != "" {
      assert s[w] == '.';
      var after := s[w + 1..];
      assert after == n.frac + rest;
      assert after[..|n.frac|] == n.frac;
      DigitRunIs(after, |n.frac|);
    }
  }

  /** However many blanks stand between, a number and a unit are split as written. */
  lemma SplitAsWritten(n: Number, blanks: string, unit: string)
    requires NumberOk(n) && AllBlank(blanks) && UnitName(unit)
    ensures Split(Numeral(n) + blanks + unit) == Some((n, unit))
  {
    var rest := blanks + unit;
    assert rest[0] == if blanks == "" then unit[0] else blanks[0];
    assert Numeral(n) + blanks + unit == Numeral(n) + rest;
    LeadingNumberIs(n, rest);
    assert (Numeral(n) + rest)[|Numeral(n)|..] == rest;
    BlanksSkipped(blanks, unit);
  }

  lemma NumberThenUnit(n: Number, blanks: string, unit: string)
    requires NumberOk(n) && AllBlank(blanks) && UnitName(unit)
    ensures var s := Numeral(n) + blanks + unit;
      TrimSpace(s) == s && s != "" && s != "0" && ParseInt(s).None?
  {
    var s := Numeral(n) + blanks + unit;
    assert s[0] == n.whole[0] && s[|s| - 1] == unit[|unit| - 1];
    assert IsDigit(n.whole[0]);
    TrimSpaceTrims(s);
    var at := |Numeral(n)| + |blanks|;
    assert s[at] == unit[0];
    assert |s| >= 2;
  }

  /** A number with a unit means their exact product: accepted exactly when that
      is a whole number of bytes in range, whatever blanks stand between. */
  lemma ParseIsExact(n: Number, blanks: string, unit: string, units: map<string, Factor>)
    requires NumberOk(n) && AllBlank(blanks) && UnitName(unit) && unit in units
    ensures Parse(Numeral(n) + blanks + unit, units) == Product(n, units[unit])
  {
    hide TrimSpace, Split, ParseInt;
    NumberThenUnit(n, blanks, unit);
    SplitAsWritten(n, blanks, unit);
  }

  // ---------- Printing ----------

  function Digits(n: nat): (s: string)
    ensures s != "" && AllDigits(s)
  {
    if n < 10 then [DigitChar(n)] else Digits(n / 10) + [DigitChar(n % 10)]
  }

  function DigitChar(d: nat): (c: char)
    requires d < 10
    ensures IsDigit(c)
  {
    (d + '0' as int) as char
  }

  lemma {:induction false} DigitsValue(n: nat)
    ensures Value(Digits(n)) == n
  {
    if n < 10 {
      assert Digits(n)[..0] == "";
    } else {
      DigitsValue(n / 10);
      assert Digits(n)[..|Digits(n)| - 1] == Digits(n / 10);
    }
  }

  /** Thousandths as text with three decimal places. */
  function FloatString3(thousandths: nat): string
  {
    var f := thousandths % 1000;
    Digits(thousandths / 1000) + "." + [DigitChar(f / 100), DigitChar(f / 10 % 10), DigitChar(f % 10)]
  }

  function TrimRightChar(s: string, c: char): string
  {
    if s != "" && s[|s| - 1] == c then TrimRightChar(s[..|s| - 1], c) else s
  }

  function TrimDecimal(s: string): string { TrimRightChar(TrimRightChar(s, '0'), '.') }

  /** The unit shows the value as a number of at least 1 and below 10000 with at most three decimals. */
  predicate Shows(value: nat, f: Factor)
  {
    f.num > 0 && f.num <= value * f.den < 10_000 * f.num && (1000 * (value * f.den)) % f.num == 0
  }

  function Candidate(value: nat, unit: DisplayUnit): string
    requires Shows(value, unit.factor)
  {
    TrimDecimal(FloatString3(1000 * (value * unit.factor.den) / unit.factor.num)) + " " + unit.name
  }

  /** units[i] is the first unit whose text is shortest. */
  predicate IsBest(value: nat, units: seq<DisplayUnit>, i: nat)
  {
    && i < |units| && Shows(value, units[i].factor)
    && (forall j :: 0 <= j < |units| && Shows(value, units[j].factor) ==>
        |Candidate(value, units[i])| <= |Candidate(value, units[j])|)
    && (forall j :: 0 <= j < i && Shows(value, units[j].factor) ==>
        |Candidate(value, units[i])| < |Candidate(value, units[j])|)
  }

  function Fallback(value: nat, units: seq<DisplayUnit>): string
  {
    Digits(value) + " " + if units == [] then "B" else units[|units| - 1].name
  }

  /** The text printed for a value: the shortest exact form, or plain bytes. */
  ghost predicate Prints(value: int, units: seq<DisplayUnit>, text: string)
  {
    if value <= 0 then text == "0"
    else
      || (exists i: nat :: IsBest(value, units, i) && text == Candidate(value, units[i]))
      || ((forall j :: 0 <= j < |units| ==> !Shows(value, units[j].factor)) && text == Fallback(value, units))
  }

  method FormatHumanQuantity(value: int, units: seq<DisplayUnit>) returns (text: string)
    ensures Prints(value, units, text)
  {
    if value <= 0 { return "0"; }
    var best := "";
    ghost var at := 0;
    for i := 0 to |units|
      invariant best == "" ==> forall j :: 0 <= j < i ==> !Shows(value, units[j].factor)
      invariant best != "" ==> at < i && IsBest(value, units[..i], at) && best == Candidate(value, units[at])
    {
      assert units[..i + 1] == units[..i] + [units[i]];
      var f := units[i].factor;
      if !Shows(value, f) { continue; }
      var candidate := Candidate(value, units[i]);
      if best == "" || |candidate| < |best| {
        best := candidate;
        at := i;
      }
    }
    assert units[..|units|] == units;
    if best != "" { return best; }
    text := Fallback(value, units);
  }

  // ---------- Reading back what was printed ----------

  lemma TrimLast(s: string, d: char, c: char)
    ensures TrimRightChar(s + [d], c) == if d == c then TrimRightChar(s, c) else s + [d]
  {
    assert (s + [d])[..|s|] == s;
  }

  /** The numeral a number of thousandths is printed as. */
  function Shortened(thousandths: nat): (n: Number)
    ensures NumberOk(n)
  {
    var f := thousandths % 1000;
    var a, b, c := DigitChar(f / 100), DigitChar(f / 10 % 10), DigitChar(f % 10);
    Number(Digits(thousandths / 1000),
           if c != '0' then [a, b, c] else if b != '0' then [a, b] else if a != '0' then [a] else "")
  }

  lemma TrimmedText(w: string, a: char, b: char, c: char)
    requires w != "" && AllDigits(w)
    ensures TrimDecimal(w + "." + [a, b, c]) ==
            if c != '0' then w + "." + [a, b, c] else if b != '0' then w + "." + [a, b] else if a != '0' then w + "." + [a] else w
    requires IsDigit(a) && IsDigit(b) && IsDigit(c)
  {
    var p := w + ".";
    assert p + [a, b, c] == p + [a] + [b] + [c];
    assert p + [a, b] == p + [a] + [b];
    TrimLast(p + [a] + [b], c, '0');
    TrimLast(p + [a], b, '0');
    TrimLast(p, a, '0');
    TrimLast(w, '.', '0');
    TrimLast(p + [a] + [b], c, '.');
    TrimLast(p + [a], b, '.');
    TrimLast(p, a, '.');
    TrimLast(w, '.', '.');
    assert IsDigit(w[|w| - 1]);
    assert TrimRightChar(w, '.') == w;
  }

  lemma ShortenedText(thousandths: nat)
    ensures TrimDecimal(FloatString3(thousandths)) == Numeral(Shortened(thousandths))
  {
    hide TrimDecimal, Digits, DigitChar;
    var f := thousandths % 1000;
    TrimmedText(Digits(thousandths / 1000), DigitChar(f / 100), DigitChar(f / 10 % 10), DigitChar(f % 10));
  }

  lemma ValueOne(a: char)
    requires IsDigit(a)
    ensures Value([a]) == a as int - '0' as int
  {
    assert [a][..0] == "";
  }

  lemma ValueTwo(a: char, b: char)
    requires IsDigit(a) && IsDigit(b)
    ensures Value([a, b]) == 10 * (a as int - '0' as int) + (b as int - '0' as int)
  {
    ValueOne(a);
    assert [a, b][..1] == [a];
  }

  lemma ValueThree(a: char, b: char, c: char)
    requires IsDigit(a) && IsDigit(b) && IsDigit(c)
    ensures Value([a, b, c]) == 100 * (a as int - '0' as int) + 10 * (b as int - '0' as int) + (c as int - '0' as int)
  {
    ValueTwo(a, b);
    assert [a, b, c][..2] == [a, b];
  }

  lemma SmallPowers()
    ensures Pow10(0) == 1 && Pow10(1) == 10 && Pow10(2) == 100 && Pow10(3) == 1000
  {
    assert Pow10(1) == 10 * Pow10(0);
    assert Pow10(2) == 10 * Pow10(1);
  }

  /** Shortening loses nothing. */
  lemma ShortenedValue(thousandths: nat)
    ensures var n := Shortened(thousandths); Scaled(n) * 1000 == thousandths * Pow10(|n.frac|)
  {
    hide Value, Digits, Pow10;
    var w, f := thousandths / 1000, thousandths % 1000;
    DigitsValue(w);
    SmallPowers();
    var a, b, c := DigitChar(f / 100), DigitChar(f / 10 % 10), DigitChar(f % 10);
    ValueOne(a);
    ValueTwo(a, b);
    ValueThree(a, b, c);
    EmptyValue();
    assert f == 100 * (f / 100) + 10 * (f / 10 % 10) + f % 10;
  }

  lemma EmptyValue()
    ensures Value("") == 0
  {
  }

  lemma QuotientAndRest(x: int, b: nat)
    requires b > 0
    ensures x == b * (x / b) + x % b && 0 <= x % b < b
  {
  }

  lemma AtLeastOnce(b: int, k: int)
    requires b > 0
    ensures k >= 1 ==> b * k >= b
    ensures k <= -1 ==> b * k <= -b
  {
  }

  lemma Difference(b: nat, v: int, q: int)
    ensures b * (v - q) == v * b - b * q
  {
  }

  lemma OnlyQuotient(b: nat, v: int, q: int, r: int)
    requires b > 0 && v * b == b * q + r && 0 <= r < b
    ensures q == v && r == 0
  {
    AtLeastOnce(b, v - q);
    Difference(b, v, q);
  }

  lemma ExactDivision(v: nat, b: nat)
    requires b > 0
    ensures (v * b) % b == 0 && (v * b) / b == v
  {
    var x := v * b;
    QuotientAndRest(x, b);
    OnlyQuotient(b, v, x / b, x % b);
  }

  lemma Cancel(x: int, y: int, k: int)
    requires k > 0 && k * x == k * y
    ensures x == y
  {
  }

  /** scaled/p is thousandths/1000, and thousandths/1000 of the unit is the value. */
  lemma BackToBytes(scaled: nat, p: nat, thousandths: nat, value: nat, num: nat, den: nat)
    requires scaled * 1000 == thousandths * p
    requires thousandths * num == 1000 * (value * den)
    ensures scaled * num == value * (p * den)
  {
    assert 1000 * (scaled * num) == (scaled * 1000) * num == (thousandths * p) * num == (thousandths * num) * p;
    assert (thousandths * num) * p == (1000 * (value * den)) * p == 1000 * (value * (p * den));
    Cancel(scaled * num, value * (p * den), 1000);
  }

  lemma DivisionIsExact(x: nat, d: nat)
    requires d > 0 && x % d == 0
    ensures (x / d) * d == x
  {
  }

  lemma ProductOfShortened(value: nat, f: Factor)
    requires Shows(value, f) && f.den > 0 && value <= MAX_INT64
    ensures Product(Shortened(1000 * (value * f.den) / f.num), f) == Some(value)
  {
    hide Shortened, Scaled;
    var m := 1000 * (value * f.den) / f.num;
    var n := Shortened(m);
    ShortenedValue(m);
    DivisionIsExact(1000 * (value * f.den), f.num);
    BackToBytes(Scaled(n), Pow10(|n.frac|), m, value, f.num, f.den);
    PositiveProduct(Pow10(|n.frac|), f.den);
    ExactDivision(value, Pow10(|n.frac|) * f.den);
  }

  lemma PositiveProduct(a: nat, b: nat)
    requires a > 0 && b > 0
    ensures a * b > 0
  {
  }

  predicate UnitAgrees(unit: DisplayUnit, units: map<string, Factor>)
  {
    UnitName(unit.name) && unit.name in units && units[unit.name] == unit.factor && unit.factor.den > 0
  }

  /** What the printer needs of its units for the parser to read it back. */
  predicate TablesAgree(display: seq<DisplayUnit>, units: map<string, Factor>)
  {
    && (forall i :: 0 <= i < |display| ==> UnitAgrees(display[i], units))
    && display != [] && display[|display| - 1].factor == Factor(1, 1)
  }

  lemma CandidateReadsBack(value: nat, unit: DisplayUnit, units: map<string, Factor>)
    requires Shows(value, unit.factor) && value <= MAX_INT64
    requires UnitAgrees(unit, units)
    ensures Parse(Candidate(value, unit), units) == Some(value)
  {
    hide Parse, Shortened, TrimDecimal, FloatString3, Numeral, Product;
    var m := 1000 * (value * unit.factor.den) / unit.factor.num;
    ShortenedText(m);
    ProductOfShortened(value, unit.factor);
    ParseIsExact(Shortened(m), " ", unit.name, units);
  }

  lemma FallbackReadsBack(value: nat, display: seq<DisplayUnit>, units: map<string, Factor>)
    requires TablesAgree(display, units) && value <= MAX_INT64
    ensures Parse(Fallback(value, display), units) == Some(value)
  {
    hide Parse;
    var n := Number(Digits(value), "");
    var unit := display[|display| - 1];
    DigitsValue(value);
    EmptyValue();
    SmallPowers();
    ParseIsExact(n, " ", unit.name, units);
  }

  lemma ParseZero(units: map<string, Factor>)
    ensures Parse("0", units) == Some(0)
  {
    TrimSpaceTrims("0");
  }

  /** The text printed for a 64-bit value parses back to it exactly when the value is not negative. */
  lemma RoundTrip(value: int, display: seq<DisplayUnit>, units: map<string, Factor>, text: string)
    requires TablesAgree(display, units) && value <= MAX_INT64 && Prints(value, display, text)
    ensures Parse(text, units) == Some(value) <==> value >= 0
  {
    hide Parse, Candidate, Fallback, Shows;
    ParseZero(units);
    if value > 0 {
      if i: nat :| IsBest(value, display, i) && text == Candidate(value, display[i]) {
        CandidateReadsBack(value, display[i], units);
      } else {
        FallbackReadsBack(value, display, units);
      }
    }
  }

  lemma BitRatesAgree()
    ensures UnitAgrees(RATE_DISPLAY[0], RATE_UNITS) && UnitAgrees(RATE_DISPLAY[1], RATE_UNITS)
    ensures UnitAgrees(RATE_DISPLAY[2], RATE_UNITS) && UnitAgrees(RATE_DISPLAY[3], RATE_UNITS)
  {
  }

  lemma ByteRatesAgree()
    ensures UnitAgrees(RATE_DISPLAY[4], RATE_UNITS) && UnitAgrees(RATE_DISPLAY[5], RATE_UNITS)
    ensures UnitAgrees(RATE_DISPLAY[6], RATE_UNITS) && UnitAgrees(RATE_DISPLAY[7], RATE_UNITS)
    ensures UnitAgrees(RATE_DISPLAY[8], RATE_UNITS)
  {
  }

  lemma RateTablesAgree()
    ensures TablesAgree(RATE_DISPLAY, RATE_UNITS)
  {
    hide UnitAgrees;
    BitRatesAgree();
    ByteRatesAgree();
  }

  lemma DecimalSizesAgree()
    ensures UnitAgrees(SIZE_DISPLAY[0], SIZE_UNITS) && UnitAgrees(SIZE_DISPLAY[1], SIZE_UNITS)
    ensures UnitAgrees(SIZE_DISPLAY[2], SIZE_UNITS) && UnitAgrees(SIZE_DISPLAY[3], SIZE_UNITS)
  {
  }

  lemma BinarySizesAgree()
    ensures UnitAgrees(SIZE_DISPLAY[4], SIZE_UNITS) && UnitAgrees(SIZE_DISPLAY[5], SIZE_UNITS)
    ensures UnitAgrees(SIZE_DISPLAY[6], SIZE_UNITS) && UnitAgrees(SIZE_DISPLAY[7], SIZE_UNITS)
    ensures UnitAgrees(SIZE_DISPLAY[8], SIZE_UNITS)
  {
  }

  lemma SizeTablesAgree()
    ensures TablesAgree(SIZE_DISPLAY, SIZE_UNITS)
  {
    hide UnitAgrees;
    DecimalSizesAgree();
    BinarySizesAgree();
  }

  /** Every byte rate and every byte size survives printing and parsing. */
  lemma {:induction false} RatesRoundTrip(value: int, text: string)
    requires 0 <= value <= MAX_INT64 && Prints(value, RATE_DISPLAY, text)
    ensures Parse(text, RATE_UNITS) == Some(value)
  {
    RateTablesAgree();
    RoundTrip(value, RATE_DISPLAY, RATE_UNITS, text);
  }

  lemma {:induction false} SizesRoundTrip(value: int, text: string)
    requires 0 <= value <= MAX_INT64 && Prints(value, SIZE_DISPLAY, text)
    ensures Parse(text, SIZE_UNITS) == Some(value)
  {
    SizeTablesAgree();
    RoundTrip(value, SIZE_DISPLAY, SIZE_UNITS, text);
  }
}
