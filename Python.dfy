/** The few Python built-ins the drone-control code relies on, stated over
    Dafny strings: substring search (`p in s`), `str.split(sep)`, `str.split()`,
    `float(text)`, `str(number)`, the JSON values `json.loads` yields, and the
    exceptions the modelled code can raise. */
module Python {
  import opened Wrappers

  /** The exceptions that escape the modelled functions. */
  datatype Exception =
    | IndexError
    | KeyError(key: string)
    | TypeError
    | ValueError
    | AttributeError
    | JsonDecodeError
      /** `raise Exception(message)` */
    | Raised(message: string)

  // ---------------------------------------------------------------------------
  // Substring search: `p in s` and the index `s.split(p, 1)` cuts at.

  predicate OccursAt(p: string, s: string, i: int) {
    0 <= i && i + |p| <= |s| && s[i..i + |p|] == p
  }

  lemma OccursShift(p: string, s: string)
    requires s != []
    ensures forall j :: 1 <= j ==> (OccursAt(p, s[1..], j - 1) <==> OccursAt(p, s, j))
  {
    forall j | 1 <= j
      ensures OccursAt(p, s[1..], j - 1) <==> OccursAt(p, s, j)
    {
      if j + |p| <= |s| {
        assert s[1..][j - 1..j - 1 + |p|] == s[j..j + |p|];
      }
    }
  }

  /** The first index at which `p` occurs in `s`, if any. */
  function Find(p: string, s: string): (r: Option<nat>)
    ensures r.Some? ==> OccursAt(p, s, r.value)
    ensures r.Some? ==> forall j :: 0 <= j < r.value ==> !OccursAt(p, s, j)
    ensures r.None? ==> forall j :: !OccursAt(p, s, j)
    decreases |s|
  {
    if |s| < |p| then None
    else if s[..|p|] == p then Some(0)
    else
      OccursShift(p, s);
      match Find(p, s[1..])
      case None => None
      case Some(k) => Some(k + 1)
  }

  /** Python's `p in s`. */
  predicate Contains(p: string, s: string) {
    Find(p, s).Some?
  }

  // ---------------------------------------------------------------------------
  // `s.split(sep)` for a one-character separator.

  /** `sep.join(parts)` */
  function Join(parts: seq<string>, sep: char): string
    requires parts != []
  {
    if |parts| == 1 then parts[0] else parts[0] + [sep] + Join(parts[1..], sep)
  }

  /** Python's `s.split(sep)`: every piece between separators, empty ones included. */
  function Split(s: string, sep: char): (r: seq<string>)
    ensures r != []
    ensures forall i :: 0 <= i < |r| ==> sep !in r[i]
    ensures Join(r, sep) == s
    decreases |s|
  {
    if s == [] then [[]]
    else
      var rest := Split(s[1..], sep);
      if s[0] == sep then
        assert ([[]] + rest)[1..] == rest;
        [[]] + rest
      else
        var r := [[s[0]] + rest[0]] + rest[1..];
        assert |rest| > 1 ==> r[1..] == rest[1..] && Join(rest, sep) == rest[0] + [sep] + Join(rest[1..], sep);
        assert s == [s[0]] + s[1..];
        r
  }

  lemma {:induction false} SplitWithoutSeparator(a: string, sep: char)
    requires sep !in a
    ensures Split(a, sep) == [a]
    decreases |a|
  {
    if a != [] {
      SplitWithoutSeparator(a[1..], sep);
      assert [a[0]] + a[1..] == a;
    }
  }

  lemma {:induction false} SplitAtFirstSeparator(a: string, t: string, sep: char)
    requires sep !in a
    ensures Split(a + [sep] + t, sep) == [a] + Split(t, sep)
    decreases |a|
  {
    var s := a + [sep] + t;
    if a == [] {
      assert s[1..] == t;
    } else {
      assert s[1..] == a[1..] + [sep] + t;
      SplitAtFirstSeparator(a[1..], t, sep);
      assert [a[0]] + a[1..] == a;
    }
  }

  /** Splitting a join of separator-free pieces gives the pieces back. */
  lemma {:induction false} SplitJoin(parts: seq<string>, sep: char)
    requires parts != []
    requires forall i :: 0 <= i < |parts| ==> sep !in parts[i]
    ensures Split(Join(parts, sep), sep) == parts
    decreases |parts|
  {
    if |parts| == 1 {
      SplitWithoutSeparator(parts[0], sep);
    } else {
      SplitJoin(parts[1..], sep);
      SplitAtFirstSeparator(parts[0], Join(parts[1..], sep), sep);
      assert [parts[0]] + parts[1..] == parts;
    }
  }

  // ---------------------------------------------------------------------------
  // `s.split()` with no argument: words between runs of whitespace.

  /** The characters `str.isspace()` accepts. */
  predicate IsSpace(c: char) {
    || c == ' ' || c == '\t' || c == '\n' || c == '\r'
    || c == '\U{000B}' || c == '\U{000C}'
    || ('\U{001C}' <= c <= '\U{001F}')
    || c == '\U{0085}' || c == '\U{00A0}' || c == '\U{1680}'
    || ('\U{2000}' <= c <= '\U{200A}')
    || c == '\U{2028}' || c == '\U{2029}' || c == '\U{202F}' || c == '\U{205F}' || c == '\U{3000}'
  }

  predicate IsWord(w: string) {
    w != [] && forall i :: 0 <= i < |w| ==> !IsSpace(w[i])
  }

  /** Python's `s.split()`: the maximal runs of non-whitespace, in order. */
  function Words(s: string): (r: seq<string>)
    ensures forall i :: 0 <= i < |r| ==> IsWord(r[i])
    ensures s != [] && !IsSpace(s[0]) ==> r != []
    decreases |s|
  {
    if s == [] then []
    else
      var rest := Words(s[1..]);
      if IsSpace(s[0]) then rest
      else if |s| > 1 && !IsSpace(s[1]) then [[s[0]] + rest[0]] + rest[1..]
      else [[s[0]]] + rest
  }

  lemma {:induction false} WordsOfWord(a: string)
    requires IsWord(a)
    ensures Words(a) == [a]
    decreases |a|
  {
    if |a| > 1 {
      assert IsWord(a[1..]);
      WordsOfWord(a[1..]);
      assert [a[0]] + a[1..] == a;
    } else {
      assert a[1..] == [];
      assert [a[0]] == a;
    }
  }

  lemma {:induction false} WordsAtFirstSpace(a: string, t: string)
    requires IsWord(a)
    ensures Words(a + " " + t) == [a] + Words(t)
    decreases |a|
  {
    var s := a + " " + t;
    if |a| == 1 {
      assert s[1..] == " " + t;
      assert (" " + t)[1..] == t;
      assert Words(" " + t) == Words(t);
      assert [a[0]] == a;
    } else {
      assert s[1..] == a[1..] + " " + t;
      assert IsWord(a[1..]);
      WordsAtFirstSpace(a[1..], t);
      assert [a[0]] + a[1..] == a;
    }
  }

  /** Words joined by single spaces split back into the same words. */
  lemma {:induction false} WordsJoin(ws: seq<string>)
    requires ws != []
    requires forall i :: 0 <= i < |ws| ==> IsWord(ws[i])
    ensures Words(Join(ws, ' ')) == ws
    decreases |ws|
  {
    if |ws| == 1 {
      WordsOfWord(ws[0]);
    } else {
      WordsJoin(ws[1..]);
      WordsAtFirstSpace(ws[0], Join(ws[1..], ' '));
      assert [ws[0]] + ws[1..] == ws;
    }
  }

  /** `s.strip()`, which `float()` applies before parsing. */
  function StripLeading(s: string): (r: string)
    ensures r == [] || !IsSpace(r[0])
    decreases |s|
  {
    if s != [] && IsSpace(s[0]) then StripLeading(s[1..]) else s
  }

  function StripTrailing(s: string): (r: string)
    ensures r == [] || !IsSpace(r[|r| - 1])
    decreases |s|
  {
    if s != [] && IsSpace(s[|s| - 1]) then StripTrailing(s[..|s| - 1]) else s
  }

  function Strip(s: string): string {
    StripTrailing(StripLeading(s))
  }

  // ---------------------------------------------------------------------------
  // Decimal numerals.

  predicate IsDigit(c: char) {
    '0' <= c <= '9'
  }

  predicate AllDigits(s: string) {
    forall i :: 0 <= i < |s| ==> IsDigit(s[i])
  }

  function Pow10(n: nat): (r: nat)
    ensures r >= 1
  {
    if n == 0 then 1 else 10 * Pow10(n - 1)
  }

  /** The number a string of decimal digits denotes. */
  function DigitsValue(s: string): nat
    requires AllDigits(s)
    decreases |s|
  {
    if s == [] then 0 else DigitsValue(s[..|s| - 1]) * 10 + (s[|s| - 1] as int - '0' as int)
  }

  function DigitChar(d: nat): (c: char)
    requires d < 10
    ensures IsDigit(c) && c as int - '0' as int == d
  {
    (d + '0' as int) as char
  }

  /** `str(n)` for a non-negative int: its shortest decimal numeral. */
  function NatToString(n: nat): (r: string)
    ensures r != [] && AllDigits(r)
    ensures DigitsValue(r) == n
    decreases n
  {
    if n < 10 then [DigitChar(n)]
    else
      var r := NatToString(n / 10) + [DigitChar(n % 10)];
      assert r[..|r| - 1] == NatToString(n / 10);
      r
  }

  lemma {:induction false} NatToStringLength(n: nat, k: nat)
    requires k >= 1 && n < Pow10(k)
    ensures |NatToString(n)| <= k
    decreases n
  {
    if n >= 10 {
      assert k >= 2;
      NatToStringLength(n / 10, k - 1);
    }
  }

  /** `str(n)` for any int. */
  function IntToString(n: int): string {
    if n < 0 then "-" + NatToString(-n) else NatToString(n)
  }

  lemma NatToStringInjective(m: nat, n: nat)
    requires NatToString(m) == NatToString(n)
    ensures m == n
  {
  }

  /** Left-pads a numeral with zeros up to `width` characters. */
  function PadZeros(s: string, width: nat): (r: string)
    requires AllDigits(s)
    ensures AllDigits(r) && |r| == if |s| >= width then |s| else width
    ensures DigitsValue(r) == DigitsValue(s)
    decreases width - |s|
  {
    if |s| >= width then s
    else
      LeadingZero(s);
      PadZeros("0" + s, width)
  }

  lemma {:induction false} LeadingZero(s: string)
    requires AllDigits(s)
    ensures AllDigits("0" + s) && DigitsValue("0" + s) == DigitsValue(s)
    decreases |s|
  {
    if s != [] {
      LeadingZero(s[..|s| - 1]);
      assert ("0" + s)[..|s|] == "0" + s[..|s| - 1];
    }
  }

  // ---------------------------------------------------------------------------
  // Numbers as the source writes and reads them.

  /** A number written with `scale` digits after the point: `units / 10^scale`.
      Scale 0 stands for a Python int, a positive scale for a float written in
      decimal form (0.3, 1.0, 19410.25). Nothing here requires the digits to be
      the shortest ones `repr` would choose. */
  datatype Decimal = Decimal(units: int, scale: nat)

  function Value(d: Decimal): real {
    d.units as real / Pow10(d.scale) as real
  }

  function Negate(d: Decimal): Decimal {
    Decimal(-d.units, d.scale)
  }

  function Abs(n: int): nat {
    if n < 0 then -n else n
  }

  /** `str(x)`: sign, integer digits, and for a float the point and exactly
      `scale` decimals. */
  function Render(d: Decimal): string {
    (if d.units < 0 then "-" else "") + Magnitude(d)
  }

  /** The unsigned part of `str(x)`. */
  function Magnitude(d: Decimal): string {
    NatToString(IntegerDigits(d))
    + (if d.scale == 0 then "" else "." + PadZeros(NatToString(FractionDigits(d)), d.scale))
  }

  /** The magnitude's digits before the point, as a number. */
  function IntegerDigits(d: Decimal): nat {
    DropDigits(Abs(d.units), d.scale)
  }

  /** The magnitude's digits after the point, as a number. */
  function FractionDigits(d: Decimal): (r: nat)
    ensures r < Pow10(d.scale)
  {
    LowDigits(Abs(d.units), d.scale)
  }

  /** `m // 10^k` */
  function DropDigits(m: nat, k: nat): nat {
    if k == 0 then m else DropDigits(m / 10, k - 1)
  }

  /** `m % 10^k` */
  function LowDigits(m: nat, k: nat): (r: nat)
    ensures r < Pow10(k)
  {
    if k == 0 then 0 else m % 10 + 10 * LowDigits(m / 10, k - 1)
  }

  lemma MulTen(q: int, p: int)
    ensures q * (10 * p) == 10 * (q * p)
  {
  }

  lemma {:induction false} DigitsSplit(m: nat, k: nat)
    ensures m == DropDigits(m, k) * Pow10(k) + LowDigits(m, k)
  {
    if k > 0 {
      DigitsSplit(m / 10, k - 1);
      var q, p, r := DropDigits(m / 10, k - 1), Pow10(k - 1), LowDigits(m / 10, k - 1);
      assert DropDigits(m, k) == q;
      assert Pow10(k) == 10 * p;
      assert LowDigits(m, k) == m % 10 + 10 * r;
      assert m / 10 == q * p + r;
      assert m == 10 * (m / 10) + m % 10;
      MulTen(q, p);
    }
  }

  /** An unsigned numeral `ddd`, `ddd.`, `.ddd` or `ddd.ddd`. */
  function ParseUnsigned(s: string): Option<real> {
    ParseParts(Split(s, '.'))
  }

  /** The value of the pieces of a numeral between its points. */
  function ParseParts(parts: seq<string>): Option<real> {
    if |parts| == 1 then
      if parts[0] != [] && AllDigits(parts[0]) then Some(DigitsValue(parts[0]) as real) else None
    else if |parts| == 2 && (parts[0] != [] || parts[1] != []) && AllDigits(parts[0]) && AllDigits(parts[1]) then
      Some(DigitsValue(parts[0]) as real + DigitsValue(parts[1]) as real / Pow10(|parts[1]|) as real)
    else None
  }

  /** `float(text)`, None where Python raises ValueError. */
  function ParseFloat(text: string): Option<real> {
    var t := Strip(text);
    if t != [] && (t[0] == '-' || t[0] == '+') then
      match ParseUnsigned(t[1..])
      case None => None
      case Some(v) => Some(if t[0] == '-' then -v else v)
    else ParseUnsigned(t)
  }

  /** The numeral with integer digits `q` and, when `scale` is positive, `scale` fraction digits `r`. */
  function Numeral(q: nat, r: nat, scale: nat): string {
    var a := NatToString(q);
    if scale == 0 then a else a + "." + PadZeros(NatToString(r), scale)
  }

  /** The value that numeral stands for. */
  function NumeralValue(q: nat, r: nat, scale: nat): real {
    q as real + (if scale == 0 then 0.0 else r as real / Pow10(scale) as real)
  }

  lemma UnsignedRoundTrip(q: nat, r: nat, scale: nat)
    requires r < Pow10(scale)
    ensures ParseUnsigned(Numeral(q, r, scale)) == Some(NumeralValue(q, r, scale))
  {
    var a := NatToString(q);
    if scale == 0 {
      ParseWhole(a);
    } else {
      var b := PadZeros(NatToString(r), scale);
      assert |b| == scale by { NatToStringLength(r, scale); }
      var t := a + "." + b;
      var v := DigitsValue(a) as real + DigitsValue(b) as real / Pow10(|b|) as real;
      assert ParseUnsigned(t) == Some(v) by { ParseFraction(a, b); }
      assert Numeral(q, r, scale) == t;
      assert NumeralValue(q, r, scale) == v;
      ParsesAs(Numeral(q, r, scale), t, v, NumeralValue(q, r, scale));
    }
  }

  lemma ParsesAs(s: string, t: string, v: real, w: real)
    requires s == t && ParseUnsigned(t) == Some(v) && v == w
    ensures ParseUnsigned(s) == Some(w)
  {
  }

  /** A string of digits holds no point. */
  lemma DigitsHaveNoPoint(s: string)
    requires AllDigits(s)
    ensures '.' !in s
  {
    forall i | 0 <= i < |s| ensures s[i] != '.' { assert IsDigit(s[i]); }
  }

  /** `float` of a non-empty run of digits is its value. */
  lemma ParseWhole(a: string)
    requires a != [] && AllDigits(a)
    ensures ParseUnsigned(a) == Some(DigitsValue(a) as real)
  {
    DigitsHaveNoPoint(a);
    SplitWithoutSeparator(a, '.');
  }

  /** `float` of digits, a point and digits is the integer part plus the scaled fraction. */
  lemma ParseFraction(a: string, b: string)
    requires a != [] && AllDigits(a) && AllDigits(b)
    ensures ParseUnsigned(a + "." + b) == Some(DigitsValue(a) as real + DigitsValue(b) as real / Pow10(|b|) as real)
  {
    var s := a + "." + b;
    assert Split(s, '.') == [a, b] by {
      DigitsHaveNoPoint(a);
      DigitsHaveNoPoint(b);
      SplitAtFirstSeparator(a, b, '.');
      SplitWithoutSeparator(b, '.');
      assert s == a + ['.'] + b;
    }
    TwoParts(a, b);
  }

  lemma TwoParts(a: string, b: string)
    requires a != [] && AllDigits(a) && AllDigits(b)
    ensures ParseParts([a, b]) == Some(DigitsValue(a) as real + DigitsValue(b) as real / Pow10(|b|) as real)
  {
  }

  lemma RealOfProduct(q: int, p: int)
    ensures (q * p) as real == (q as real) * (p as real)
  {
  }

  lemma CastSum(m: int, qp: int, r: int)
    requires m == qp + r
    ensures m as real == qp as real + r as real
  {
  }

  lemma DivideSum(m: real, q: real, r: real, p: real)
    requires p > 0.0 && m == q * p + r
    ensures m / p == q + r / p
  {
  }

  lemma ScaledSplit(m: nat, k: nat)
    ensures DropDigits(m, k) as real + LowDigits(m, k) as real / Pow10(k) as real == m as real / Pow10(k) as real
  {
    DigitsSplit(m, k);
    QuotientAsReal(m, DropDigits(m, k), LowDigits(m, k), Pow10(k));
  }

  /** `m = q p + r` read over the reals and divided by `p`. */
  lemma QuotientAsReal(m: int, q: int, r: int, p: int)
    requires p >= 1 && m == q * p + r
    ensures q as real + r as real / p as real == m as real / p as real
  {
    CastSum(m, q * p, r);
    RealOfProduct(q, p);
    DivideSum(m as real, q as real, r as real, p as real);
  }

  lemma MagnitudeParses(d: Decimal)
    ensures ParseUnsigned(Magnitude(d)) == Some(Abs(d.units) as real / Pow10(d.scale) as real)
  {
    var m, k := Abs(d.units), d.scale;
    var q, r := DropDigits(m, k), LowDigits(m, k);
    UnsignedRoundTrip(q, r, k);
    MagnitudeText(d);
    MagnitudeValue(m, k);
  }

  /** The magnitude is the numeral of its integer and fraction digits. */
  lemma MagnitudeText(d: Decimal)
    ensures Magnitude(d) == Numeral(IntegerDigits(d), FractionDigits(d), d.scale)
  {
    var a := NatToString(IntegerDigits(d));
    if d.scale == 0 {
      assert a + "" == a;
    }
  }

  /** The integer digits plus the fraction digits scaled down are the scaled magnitude. */
  lemma MagnitudeValue(m: nat, k: nat)
    ensures NumeralValue(DropDigits(m, k), LowDigits(m, k), k) == m as real / Pow10(k) as real
  {
    ScaledSplit(m, k);
    if k == 0 {
      assert Pow10(k) == 1;
      assert LowDigits(m, k) == 0;
    }
  }

  lemma MagnitudeEnds(d: Decimal)
    ensures var b := Magnitude(d); b != [] && IsDigit(b[0]) && IsDigit(b[|b| - 1])
  {
    var a := NatToString(IntegerDigits(d));
    if d.scale != 0 {
      NatToStringLength(FractionDigits(d), d.scale);
      var f := PadZeros(NatToString(FractionDigits(d)), d.scale);
      assert |f| == d.scale;
      assert Magnitude(d)[|Magnitude(d)| - 1] == f[|f| - 1];
    }
  }

  lemma SignedValue(d: Decimal)
    ensures Value(d) == if d.units < 0 then -(Abs(d.units) as real / Pow10(d.scale) as real)
                        else Abs(d.units) as real / Pow10(d.scale) as real
  {
  }

  lemma StripUnpadded(t: string)
    requires t != [] && !IsSpace(t[0]) && !IsSpace(t[|t| - 1])
    ensures Strip(t) == t
  {
  }

  lemma ParseSignedNumeral(body: string, v: real)
    requires ParseUnsigned(body) == Some(v)
    requires body != [] && IsDigit(body[0]) && IsDigit(body[|body| - 1])
    ensures ParseFloat(body) == Some(v)
    ensures ParseFloat("-" + body) == Some(-v)
  {
    StripUnpadded(body);
    var t := "-" + body;
    StripUnpadded(t);
    assert t[1..] == body;
  }

  lemma RenderSign(d: Decimal)
    ensures Render(d) == if d.units < 0 then "-" + Magnitude(d) else Magnitude(d)
  {
    if d.units >= 0 {
      assert "" + Magnitude(d) == Magnitude(d);
    }
  }

  /** Whatever `str()` writes, `float()` reads back as the same value. */
  lemma RenderRoundTrip(d: Decimal)
    ensures ParseFloat(Render(d)) == Some(Value(d))
  {
    var v := Abs(d.units) as real / Pow10(d.scale) as real;
    MagnitudeParses(d);
    MagnitudeEnds(d);
    ParseSignedNumeral(Magnitude(d), v);
    RenderSign(d);
    SignedValue(d);
    SignedParse(d.units < 0, Render(d), Magnitude(d), v, Value(d));
  }

  lemma SignedParse(negative: bool, t: string, body: string, v: real, w: real)
    requires t == if negative then "-" + body else body
    requires w == if negative then -v else v
    requires ParseFloat(body) == Some(v) && ParseFloat("-" + body) == Some(-v)
    ensures ParseFloat(t) == Some(w)
  {
  }

  /** The characters of a numeral: digits, a sign and a point. */
  predicate NumeralChars(s: string) {
    forall i :: 0 <= i < |s| ==> IsDigit(s[i]) || s[i] == '-' || s[i] == '.'
  }

  lemma NumeralCharsConcat(a: string, b: string)
    requires NumeralChars(a) && NumeralChars(b)
    ensures NumeralChars(a + b)
  {
    forall i | 0 <= i < |a + b|
      ensures IsDigit((a + b)[i]) || (a + b)[i] == '-' || (a + b)[i] == '.'
    {
      if i >= |a| {
        assert (a + b)[i] == b[i - |a|];
      }
    }
  }

  lemma RenderChars(d: Decimal)
    ensures Render(d) != [] && NumeralChars(Render(d))
  {
    var a := NatToString(IntegerDigits(d));
    assert NumeralChars(a);
    if d.scale != 0 {
      var f := PadZeros(NatToString(FractionDigits(d)), d.scale);
      assert NumeralChars(f);
      NumeralCharsConcat(".", f);
      NumeralCharsConcat(a, "." + f);
    }
    NumeralCharsConcat(if d.units < 0 then "-" else "", Magnitude(d));
  }

  // ---------------------------------------------------------------------------
  // JSON values, as `json.loads` returns them.

  datatype Json =
    | JNull
    | JBool(b: bool)
    | JInt(i: int)
    | JFloat(f: real)
    | JStr(s: string)
    | JArray(items: seq<Json>)
    | JObject(fields: map<string, Json>)

  /** `len(value)`: defined for strings, lists and dicts only. */
  function Len(j: Json): (r: Result<nat, Exception>)
    ensures r.Err? <==> !(j.JStr? || j.JArray? || j.JObject?)
  {
    match j
    case JStr(s) => Ok(|s|)
    case JArray(items) => Ok(|items|)
    case JObject(fields) => Ok(|fields|)
    case _ => Err(TypeError)
  }

  /** `value[key]` for a string key: a dict lookup, a TypeError on anything else. */
  function Index(j: Json, key: string): (r: Result<Json, Exception>)
    ensures r.Ok? <==> j.JObject? && key in j.fields
    ensures r.Ok? ==> r.value == j.fields[key]
  {
    match j
    case JObject(fields) => if key in fields then Ok(fields[key]) else Err(KeyError(key))
    case _ => Err(TypeError)
  }
}
