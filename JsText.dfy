/**
 * The pieces of the JavaScript string and number library that the pages rely on:
 * `toLowerCase`, `includes`, `startsWith`, `parseFloat`, `parseInt(_, 10)` and
 * `Number.prototype.toString` for numbers with a finite decimal expansion.
 * Numbers are exact reals; a parse that yields `NaN` yields `None`.
 */
module JsText {
  import opened Wrappers

  // ---------------------------------------------------------------------------
  // Case folding and substring search
  // ---------------------------------------------------------------------------

  predicate IsUpper(c: char) { 'A' <= c <= 'Z' }

  function LowerChar(c: char): char
  {
    if IsUpper(c) then (c as int + 32) as char else c
  }

  /** `s.toLowerCase()`, restricted to the ASCII letters. */
  function Lower(s: string): (r: string)
    ensures |r| == |s|
    ensures forall i :: 0 <= i < |r| ==> !IsUpper(r[i])
    ensures forall i :: 0 <= i < |r| ==>
      if IsUpper(s[i]) then r[i] as int == s[i] as int + 32 else r[i] == s[i]
  {
    if s == [] then [] else [LowerChar(s[0])] + Lower(s[1..])
  }

  lemma {:induction false} LowerIdempotent(s: string)
    ensures Lower(Lower(s)) == Lower(s)
  {
    var l := Lower(s);
    var ll := Lower(l);
    assert |ll| == |l|;
    forall i | 0 <= i < |l| ensures ll[i] == l[i] {
      assert !IsUpper(l[i]);
    }
  }

  /** `s.startsWith(p)`. */
  predicate StartsWith(s: string, p: string)
  {
    |p| <= |s| && s[..|p|] == p
  }

  /** `s.includes(t)`: `t` occurs in `s` at some offset (the empty string occurs everywhere). */
  predicate Includes(s: string, t: string)
    decreases |s|
  {
    StartsWith(s, t) || (|s| > 0 && Includes(s[1..], t))
  }

  /** `t` occurs in `s` starting at offset `i`. */
  predicate OccursAt(s: string, t: string, i: int)
  {
    0 <= i <= |s| - |t| && s[i..i + |t|] == t
  }

  /** Includes agrees with the textbook definition: `t` occurs in `s` at some offset. */
  lemma {:induction false} IncludesIff(s: string, t: string)
    ensures Includes(s, t) <==> exists i :: OccursAt(s, t, i)
    decreases |s|
  {
    if StartsWith(s, t) {
      assert OccursAt(s, t, 0);
    } else if |s| == 0 {
    } else {
      IncludesIff(s[1..], t);
      if Includes(s[1..], t) {
        var i :| OccursAt(s[1..], t, i);
        SliceOfTail(s, i, |t|);
        assert OccursAt(s, t, i + 1);
      }
      if exists i :: OccursAt(s, t, i) {
        var i :| OccursAt(s, t, i);
        if i > 0 {
          SliceOfTail(s, i - 1, |t|);
          assert OccursAt(s[1..], t, i - 1);
        }
      }
    }
  }

  /** A slice of `s[1..]` is the slice of `s` one place further on. */
  lemma {:induction false} SliceOfTail(s: string, i: nat, n: nat)
    requires i + n < |s|
    ensures s[1..][i..i + n] == s[i + 1..i + 1 + n]
  {
    var a, b := s[1..][i..i + n], s[i + 1..i + 1 + n];
    forall k | 0 <= k < n
      ensures a[k] == b[k]
    {
    }
    assert a == b;
  }

  /** Every string includes the empty string and itself. */
  lemma {:induction false} IncludesEmptyAndSelf(s: string)
    ensures Includes(s, "") && Includes(s, s)
  {
    assert s[..0] == "";
    assert s[..|s|] == s;
  }

  /** A string includes only strings no longer than itself. */
  lemma {:induction false} IncludesShorter(s: string, t: string)
    requires Includes(s, t)
    ensures |t| <= |s|
    decreases |s|
  {
    if !StartsWith(s, t) {
      IncludesShorter(s[1..], t);
    }
  }

  // ---------------------------------------------------------------------------
  // Characters of number literals
  // ---------------------------------------------------------------------------

  /** The white space and line terminators that `parseFloat` and `parseInt` skip. */
  predicate IsJsSpace(c: char)
  {
    c == ' ' || c == '\t' || c == '\n' || c == '\r' || c == '\U{000B}' || c == '\U{000C}'
    || c == '\U{00A0}' || c == '\U{FEFF}' || c == '\U{1680}' || ('\U{2000}' <= c <= '\U{200A}')
    || c == '\U{2028}' || c == '\U{2029}' || c == '\U{202F}' || c == '\U{205F}' || c == '\U{3000}'
  }

  predicate IsDigit(c: char) { '0' <= c <= '9' }

  predicate AllDigits(s: string) { forall i :: 0 <= i < |s| ==> IsDigit(s[i]) }

  function DigitValue(c: char): nat
  {
    if IsDigit(c) then c as int - '0' as int else 0
  }

  function DigitChar(d: nat): char
    requires d < 10
  {
    ('0' as int + d) as char
  }

  function Pow10(n: nat): (r: nat)
    ensures r >= 1
  {
    if n == 0 then 1 else 10 * Pow10(n - 1)
  }

  /** The value of a digit string, most significant digit first. */
  function DigitsValue(d: string): nat
  {
    if d == [] then 0 else 10 * DigitsValue(d[..|d| - 1]) + DigitValue(d[|d| - 1])
  }

  /** The input with its leading white space removed. */
  function TrimStart(s: string): string
  {
    if s != [] && IsJsSpace(s[0]) then TrimStart(s[1..]) else s
  }

  /** Trimming keeps a suffix of the input that does not start with white space. */
  lemma {:induction false} TrimStartSpec(s: string)
    ensures var r := TrimStart(s);
      |r| <= |s| && r == s[|s| - |r|..] && (r == [] || !IsJsSpace(r[0]))
    decreases |s|
  {
    if s != [] && IsJsSpace(s[0]) {
      TrimStartSpec(s[1..]);
    }
  }

  /** The longest prefix of `s` made of decimal digits. */
  function DigitPrefix(s: string): (r: string)
    ensures |r| <= |s|
  {
    if s != [] && IsDigit(s[0]) then [s[0]] + DigitPrefix(s[1..]) else []
  }

  /** The digit prefix is a prefix made of digits that cannot be extended. */
  lemma {:induction false} DigitPrefixSpec(s: string)
    ensures var r := DigitPrefix(s);
      r == s[..|r|] && AllDigits(r) && (|r| == |s| || !IsDigit(s[|r|]))
    decreases |s|
  {
    if s != [] && IsDigit(s[0]) {
      DigitPrefixSpec(s[1..]);
    }
  }

  /** The text after an optional leading sign. */
  function Unsigned(t: string): string
  {
    if t != [] && (t[0] == '-' || t[0] == '+') then t[1..] else t
  }

  predicate Negative(t: string) { t != [] && t[0] == '-' }

  /** The value of an exponent part `e`/`E`, optional sign, digits; 0 when there is none. */
  function ExponentOf(s: string): int
  {
    if s != [] && (s[0] == 'e' || s[0] == 'E') && DigitPrefix(Unsigned(s[1..])) != [] then
      var n: int := DigitsValue(DigitPrefix(Unsigned(s[1..])));
      if Negative(s[1..]) then -n else n
    else
      0
  }

  /** `m * 10^e`, one factor of ten at a time. */
  function Scaled(m: real, e: int): real
    decreases if e >= 0 then e else -e
  {
    if e == 0 then m
    else if e > 0 then 10.0 * Scaled(m, e - 1)
    else Scaled(m, e + 1) / 10.0
  }

  /** A decimal literal can start here: a digit, or a point followed by a digit. */
  predicate StartsNumeric(u: string)
  {
    (u != [] && IsDigit(u[0])) || (|u| > 1 && u[0] == '.' && IsDigit(u[1]))
  }

  /** The value of integer digits `ip` followed by fraction digits `fp`. */
  function Mantissa(ip: string, fp: string): real
  {
    WholeValue(ip) + FracValue(fp)
  }

  /** The value of integer digits `ip`, computed on reals. */
  function WholeValue(ip: string): real
  {
    if ip == [] then 0.0 else 10.0 * WholeValue(ip[..|ip| - 1]) + DigitValue(ip[|ip| - 1]) as real
  }

  /** On reals the integer digits have the same value as on integers. */
  lemma {:induction false} WholeValueIsDigits(ip: string)
    ensures WholeValue(ip) == DigitsValue(ip) as real
    decreases |ip|
  {
    if ip != [] {
      WholeValueIsDigits(ip[..|ip| - 1]);
    }
  }

  /** The value of fraction digits `fp` after the point: `0.fp`, most significant digit first. */
  function FracValue(fp: string): real
  {
    if fp == [] then 0.0 else (DigitValue(fp[0]) as real + FracValue(fp[1..])) / 10.0
  }

  /** Fraction digits read as `DigitsValue(fp) / 10^|fp|`. */
  lemma {:induction false} FracValueQuotient(fp: string)
    ensures FracValue(fp) == DigitsValue(fp) as real / Pow10(|fp|) as real
    decreases |fp|
  {
    if fp != [] {
      FracValueQuotient(fp[1..]);
      DigitsHead(fp);
      FracStep(DigitValue(fp[0]), DigitsValue(fp[1..]), Pow10(|fp| - 1));
    }
  }

  /** The leading digit of a digit string is worth `10^(|fp| - 1)` times its value. */
  lemma {:induction false} DigitsHead(fp: string)
    requires fp != []
    ensures DigitsValue(fp) == DigitValue(fp[0]) * Pow10(|fp| - 1) + DigitsValue(fp[1..])
    ensures Pow10(|fp|) == 10 * Pow10(|fp| - 1)
  {
    assert fp == [fp[0]] + fp[1..];
    DigitsValueAppend([fp[0]], fp[1..]);
    assert [fp[0]][..0] == [];
  }

  lemma {:induction false} FracStep(d: nat, r: nat, p: nat)
    requires p >= 1
    ensures (d as real + r as real / p as real) / 10.0 == (d * p + r) as real / (10 * p) as real
  {
    assert (d * p) as real == d as real * p as real;
  }

  /** A decimal literal's value from its digit runs and the text after them. */
  function LiteralValue(ip: string, fp: string, rest: string): (r: Option<real>)
    ensures r.Some? <==> ip != [] || fp != []
  {
    if ip == [] && fp == [] then None else Some(Scaled(Mantissa(ip, fp), ExponentOf(rest)))
  }

  /** The value of the unsigned decimal literal at the start of `u`. */
  function UnsignedDecimal(u: string): (r: Option<real>)
    ensures r.Some? <==> StartsNumeric(u)
  {
    var ip := DigitPrefix(u);
    var r1 := u[|ip|..];
    if r1 != [] && r1[0] == '.' then
      var fp := DigitPrefix(r1[1..]);
      LiteralValue(ip, fp, r1[1 + |fp|..])
    else
      LiteralValue(ip, [], r1)
  }

  /**
   * `parseFloat(s)`: skip leading white space, read an optional sign and the longest
   * prefix that is a decimal literal (digits, an optional fraction, an optional
   * exponent), ignore the rest. `None` is `NaN`.
   */
  function ParseFloat(s: string): (r: Option<real>)
    ensures r.Some? <==> StartsNumeric(Unsigned(TrimStart(s)))
  {
    var t := TrimStart(s);
    match UnsignedDecimal(Unsigned(t))
    case None => None
    case Some(m) => Some(if Negative(t) then -m else m)
  }

  /** `parseInt(s, 10)`: skip white space, optional sign, the longest digit prefix. */
  function ParseInt(s: string): (r: Option<int>)
    ensures r.Some? <==> (var u := Unsigned(TrimStart(s)); u != [] && IsDigit(u[0]))
  {
    var t := TrimStart(s);
    var d := DigitPrefix(Unsigned(t));
    if d == [] then None
    else Some(if Negative(t) then -(DigitsValue(d) as int) else DigitsValue(d))
  }

  /** `a * b` on two numbers, without rounding. */
  function Times(a: real, b: real): real
  {
    a * b
  }

  /** A comparison with `NaN` is false: `a <= b` on a parsed value. */
  predicate NumLe(a: Option<real>, b: real) { a.Some? && a.value <= b }

  /** `a > b` on a parsed value; false for `NaN`. */
  predicate NumGt(a: Option<real>, b: real) { a.Some? && a.value > b }

  // ---------------------------------------------------------------------------
  // Number.prototype.toString for finite decimals
  // ---------------------------------------------------------------------------

  /** The digits of a natural number, without leading zeros. */
  function NatDigits(n: nat): (r: string)
    ensures |r| >= 1 && AllDigits(r)
    ensures DigitsValue(r) == n
    ensures |r| > 1 ==> r[0] != '0'
  {
    if n < 10 then [DigitChar(n)]
    else
      var r := NatDigits(n / 10) + [DigitChar(n % 10)];
      assert r[..|r| - 1] == NatDigits(n / 10);
      r
  }

  /** Leading zeros do not change the value of a digit string. */
  lemma {:induction false} LeadingZero(s: string)
    ensures DigitsValue("0" + s) == DigitsValue(s)
    decreases |s|
  {
    if s != [] {
      assert ("0" + s)[..|"0" + s| - 1] == "0" + s[..|s| - 1];
      LeadingZero(s[..|s| - 1]);
    }
  }

  /** `s` with zeros put in front until it has at least `k` digits. */
  function PadLeft(s: string, k: nat): (r: string)
    requires AllDigits(s)
    ensures |r| == if |s| >= k then |s| else k
    ensures AllDigits(r) && DigitsValue(r) == DigitsValue(s)
    ensures |s| >= k ==> r == s
    ensures |s| < k ==> r[0] == '0'
    decreases k - |s|
  {
    if |s| >= k then s
    else
      LeadingZero(s);
      PadLeft("0" + s, k)
  }

  /** The value of a concatenation of digit strings. */
  lemma {:induction false} DigitsValueAppend(x: string, y: string)
    ensures DigitsValue(x + y) == DigitsValue(x) * Pow10(|y|) + DigitsValue(y)
    decreases |y|
  {
    if y != [] {
      var y' := y[..|y| - 1];
      assert (x + y)[..|x + y| - 1] == x + y';
      assert (x + y)[|x + y| - 1] == y[|y| - 1];
      DigitsValueAppend(x, y');
      ShiftDigit(DigitsValue(x), Pow10(|y'|), DigitsValue(y'), DigitValue(y[|y| - 1]));
    } else {
      assert x + y == x;
    }
  }

  lemma {:induction false} ShiftDigit(a: nat, p: nat, b: nat, c: nat)
    ensures 10 * (a * p + b) + c == a * (10 * p) + (10 * b + c)
  {
  }

  /** A number with a finite decimal expansion: `units / 10^scale`. */
  datatype Decimal = Decimal(units: int, scale: nat)

  function Value(d: Decimal): real
  {
    d.units as real / Pow10(d.scale) as real
  }

  /** Drop trailing zero digits of the fraction. */
  function Normalize(d: Decimal): (r: Decimal)
    ensures Value(r) == Value(d)
    ensures r.scale == 0 || r.units % 10 != 0
    decreases d.scale
  {
    if d.scale > 0 && d.units % 10 == 0 then
      var next := Decimal(d.units / 10, d.scale - 1);
      assert d.units == next.units * 10;
      assert Pow10(d.scale) == 10 * Pow10(next.scale);
      Normalize(next)
    else
      d
  }

  function Abs(n: int): nat { if n < 0 then -n else n }

  /** The digits of `|units|` with at least one digit before the point. */
  function AllPlaces(n: Decimal): (r: string)
    ensures |r| > n.scale && AllDigits(r)
  {
    PadLeft(NatDigits(Abs(n.units)), n.scale + 1)
  }

  /**
   * `x.toString()` in plain notation: an optional minus sign, the integer part, and,
   * when the fraction is not zero, a point and the fraction without trailing zeros.
   */
  function NumberToString(d: Decimal): string
  {
    var n := Normalize(d);
    var ds := AllPlaces(n);
    var i := |ds| - n.scale;
    SignedText(n.units < 0, ds[..i], ds[i..])
  }

  lemma {:induction false} DigitPrefixOfDigits(ds: string, rest: string)
    requires AllDigits(ds)
    requires rest == [] || !IsDigit(rest[0])
    ensures DigitPrefix(ds + rest) == ds
    decreases |ds|
  {
    if ds != [] {
      assert (ds + rest)[1..] == ds[1..] + rest;
      DigitPrefixOfDigits(ds[1..], rest);
    } else {
      assert ds + rest == rest;
    }
  }

  /** An unsigned literal of integer digits and an optional fraction has their value. */
  lemma {:induction false} UnsignedDecimalOfDigits(whole: string, frac: string)
    requires whole != [] && AllDigits(whole) && AllDigits(frac)
    ensures UnsignedDecimal(PointText(whole, frac)) == Some(Mantissa(whole, frac))
  {
    if frac == [] {
      IntegerLiteral(whole);
    } else {
      FractionLiteral(whole, frac);
    }
  }

  lemma {:induction false} IntegerLiteral(whole: string)
    requires whole != [] && AllDigits(whole)
    ensures UnsignedDecimal(whole) == Some(Mantissa(whole, []))
  {
    assert whole + [] == whole;
    DigitPrefixOfDigits(whole, []);
    assert whole[|whole|..] == [];
    assert ExponentOf([]) == 0;
  }

  lemma {:induction false} FractionLiteral(whole: string, frac: string)
    requires whole != [] && AllDigits(whole) && frac != [] && AllDigits(frac)
    ensures UnsignedDecimal(whole + "." + frac) == Some(Mantissa(whole, frac))
  {
    FractionHead(whole, frac);
    FractionTail(frac);
    assert ExponentOf([]) == 0;
  }

  /** Before the point: the integer digits, then the point and the fraction. */
  lemma {:induction false} FractionHead(whole: string, frac: string)
    requires AllDigits(whole)
    ensures var u := whole + "." + frac;
      DigitPrefix(u) == whole && u[|whole|..] == "." + frac
  {
    var tail := "." + frac;
    var u := whole + "." + frac;
    assert u == whole + tail;
    DigitPrefixOfDigits(whole, tail);
    assert u[|whole|..] == tail;
  }

  /** After the point: the fraction digits and nothing else. */
  lemma {:induction false} FractionTail(frac: string)
    requires AllDigits(frac)
    ensures var tail := "." + frac;
      tail[0] == '.' && DigitPrefix(tail[1..]) == frac && tail[1 + |frac|..] == []
  {
    var tail := "." + frac;
    assert tail[1..] == frac + [];
    DigitPrefixOfDigits(frac, []);
  }

  /** Integer digits followed, when `frac` is not empty, by a point and `frac`. */
  function PointText(whole: string, frac: string): string
  {
    if frac == [] then whole else whole + "." + frac
  }

  /** The text of a sign, integer digits and, when `frac` is not empty, a point and `frac`. */
  function SignedText(negative: bool, whole: string, frac: string): string
  {
    if negative then ['-'] + PointText(whole, frac) else PointText(whole, frac)
  }

  /**
   * Parsing a sign, integer digits and (when `frac` is not empty) a point and fraction
   * digits gives `±(whole + frac / 10^|frac|)`.
   */
  lemma {:induction false} DecimalTextValue(negative: bool, whole: string, frac: string)
    requires whole != [] && AllDigits(whole) && AllDigits(frac)
    ensures var m := Mantissa(whole, frac);
      ParseFloat(SignedText(negative, whole, frac)) == Some(if negative then -m else m)
  {
    PointTextDecimal(whole, frac);
    if negative {
      NegativeTextValue(whole, frac);
    } else {
      PositiveTextValue(whole, frac);
    }
  }

  lemma {:induction false} PositiveTextValue(whole: string, frac: string)
    requires var u := PointText(whole, frac);
      u != [] && IsDigit(u[0]) && UnsignedDecimal(u) == Some(Mantissa(whole, frac))
    ensures ParseFloat(SignedText(false, whole, frac)) == Some(Mantissa(whole, frac))
  {
    UnsignedLiteral(PointText(whole, frac), Mantissa(whole, frac));
  }

  lemma {:induction false} NegativeTextValue(whole: string, frac: string)
    requires var u := PointText(whole, frac);
      u != [] && IsDigit(u[0]) && UnsignedDecimal(u) == Some(Mantissa(whole, frac))
    ensures ParseFloat(SignedText(true, whole, frac)) == Some(-Mantissa(whole, frac))
  {
    NegatedLiteral(PointText(whole, frac), Mantissa(whole, frac));
  }

  /** The unsigned text of integer and fraction digits starts with a digit and has their value. */
  lemma {:induction false} PointTextDecimal(whole: string, frac: string)
    requires whole != [] && AllDigits(whole) && AllDigits(frac)
    ensures var u := PointText(whole, frac);
      u != [] && IsDigit(u[0]) && UnsignedDecimal(u) == Some(Mantissa(whole, frac))
  {
    UnsignedDecimalOfDigits(whole, frac);
  }

  /** Text that starts with a digit parses as its unsigned literal. */
  lemma {:induction false} UnsignedLiteral(u: string, m: real)
    requires u != [] && IsDigit(u[0]) && UnsignedDecimal(u) == Some(m)
    ensures ParseFloat(u) == Some(m)
  {
    NoSpaceNoSign(u);
  }

  /** A minus sign in front of a literal negates it. */
  lemma {:induction false} NegatedLiteral(u: string, m: real)
    requires u != [] && IsDigit(u[0]) && UnsignedDecimal(u) == Some(m)
    ensures ParseFloat(['-'] + u) == Some(-m)
  {
    var s := ['-'] + u;
    assert s[0] == '-' && s[1..] == u;
    MinusNoSpace(s);
  }

  lemma {:induction false} NoSpaceNoSign(u: string)
    requires u != [] && IsDigit(u[0])
    ensures TrimStart(u) == u && Unsigned(u) == u && !Negative(u)
  {
  }

  lemma {:induction false} MinusNoSpace(s: string)
    requires s != [] && s[0] == '-'
    ensures TrimStart(s) == s && Unsigned(s) == s[1..] && Negative(s)
  {
  }

  lemma {:induction false} NegatedQuotient(x: real, p: real)
    requires p > 0.0
    ensures -(x / p) == (-x) / p
  {
  }

  lemma {:induction false} SplitValue(ip: nat, fp: nat, p: nat)
    requires p >= 1
    ensures ip as real + fp as real / p as real == (ip * p + fp) as real / p as real
  {
    assert (ip * p) as real == ip as real * p as real;
  }

  /** `parseFloat(x.toString())` gives back `x`. */
  lemma {:induction false} ParseFloatOfNumberToString(d: Decimal)
    ensures ParseFloat(NumberToString(d)) == Some(Value(d))
  {
    var negative, whole, frac := NumberToStringParts(d);
    DecimalTextValue(negative, whole, frac);
  }

  /** The sign, integer digits and fraction digits `toString` writes, and their value. */
  lemma {:induction false} NumberToStringParts(d: Decimal) returns (negative: bool, whole: string, frac: string)
    ensures whole != [] && AllDigits(whole) && AllDigits(frac)
    ensures NumberToString(d) == SignedText(negative, whole, frac)
    ensures Value(d) == if negative then -Mantissa(whole, frac) else Mantissa(whole, frac)
  {
    var n := Normalize(d);
    var ds := AllPlaces(n);
    var i := |ds| - n.scale;
    negative, whole, frac := n.units < 0, ds[..i], ds[i..];
    assert ds == whole + frac;
    PartsValue(n, whole, frac);
  }

  /** A number's text is never empty. */
  lemma {:induction false} NumberToStringNotEmpty(d: Decimal)
    ensures NumberToString(d) != ""
  {
    var negative, whole, frac := NumberToStringParts(d);
  }

  /** Digits of `|units|` split `scale` places from the right read back as the number. */
  lemma {:induction false} PartsValue(n: Decimal, whole: string, frac: string)
    requires DigitsValue(whole + frac) == Abs(n.units) && |frac| == n.scale
    ensures Value(n) == if n.units < 0 then -Mantissa(whole, frac) else Mantissa(whole, frac)
  {
    var p := Pow10(n.scale);
    DigitsValueAppend(whole, frac);
    SplitValue(DigitsValue(whole), DigitsValue(frac), p);
    FracValueQuotient(frac);
    WholeValueIsDigits(whole);
    assert Mantissa(whole, frac) == Abs(n.units) as real / p as real;
    if n.units < 0 {
      NegatedQuotient(Abs(n.units) as real, p as real);
      assert -(Abs(n.units) as real) == n.units as real;
    }
  }

  /** `parseInt` stops at the point: a fraction is truncated away. */
  lemma {:induction false} ParseIntTruncates(n: nat, rest: string)
    ensures ParseInt(NatDigits(n) + "." + rest) == Some(n)
  {
    var ds := NatDigits(n);
    var s := ds + ("." + rest);
    assert ds + "." + rest == s;
    assert IsDigit(s[0]);
    assert TrimStart(s) == s;
    assert Unsigned(s) == s;
    DigitPrefixOfDigits(ds, "." + rest);
    assert DigitPrefix(s) == ds;
    assert !Negative(s);
  }

  /** `parseInt` of the digits of a natural number is that number. */
  lemma {:induction false} ParseIntOfNatDigits(n: nat)
    ensures ParseInt(NatDigits(n)) == Some(n)
  {
    var ds := NatDigits(n);
    assert IsDigit(ds[0]);
    assert TrimStart(ds) == ds && Unsigned(ds) == ds;
    DigitPrefixOfDigits(ds, []);
    assert ds + [] == ds;
    assert DigitPrefix(ds) == ds;
    assert !Negative(ds);
  }

  /** `parseFloat` of the digits of a natural number is that number. */
  lemma {:induction false} ParseFloatOfNatDigits(n: nat)
    ensures ParseFloat(NatDigits(n)) == Some(n as real)
  {
    var ds := NatDigits(n);
    IntegerLiteral(ds);
    WholeValueIsDigits(ds);
    assert Mantissa(ds, []) == n as real;
    UnsignedLiteral(ds, n as real);
  }

  /**
   * `parseFloat` of a literal `whole.frac`, given the values of its digit strings: the
   * caller states the digits' values and the expected number.
   */
  lemma {:induction false} ParseFloatOfPoint(whole: string, frac: string, w: nat, f: nat, p: nat, v: real)
    requires whole != [] && AllDigits(whole) && AllDigits(frac)
    requires DigitsValue(whole) == w && DigitsValue(frac) == f && Pow10(|frac|) == p
    requires v == w as real + f as real / p as real
    ensures ParseFloat(PointText(whole, frac)) == Some(v)
  {
    PointMantissa(whole, frac, w, f, p, v);
    DecimalTextValue(false, whole, frac);
    assert SignedText(false, whole, frac) == PointText(whole, frac);
  }

  lemma {:induction false} PointMantissa(whole: string, frac: string, w: nat, f: nat, p: nat, v: real)
    requires DigitsValue(whole) == w && DigitsValue(frac) == f && Pow10(|frac|) == p
    requires v == w as real + f as real / p as real
    ensures Mantissa(whole, frac) == v
  {
    FracValueQuotient(frac);
    WholeValueIsDigits(whole);
  }

  /** The empty string and a string of white space are `NaN` to both parsers. */
  lemma {:induction false} ParseBlank(s: string)
    requires forall i :: 0 <= i < |s| ==> IsJsSpace(s[i])
    ensures ParseFloat(s) == None && ParseInt(s) == None
  {
    TrimBlank(s);
  }

  /** White space alone trims to nothing. */
  lemma {:induction false} TrimBlank(s: string)
    requires forall i :: 0 <= i < |s| ==> IsJsSpace(s[i])
    ensures TrimStart(s) == []
    decreases |s|
  {
    if s != [] {
      assert IsJsSpace(s[0]);
      assert forall i :: 0 <= i < |s[1..]| ==> s[1..][i] == s[i + 1];
      TrimBlank(s[1..]);
    }
  }
}
