/** The small part of JavaScript's value semantics the food catalog depends on:
    optional values, white space and `trim()`, `parseFloat`, `String(number)`
    and the truthiness of numbers and strings. */

module Wrappers {
  /** An optional value; `None` stands for `undefined` or `null`. */
  datatype Option<+T> = None | Some(value: T)
}

module JsString {
  /** ECMAScript white space and line terminators: the code points that
      `String.prototype.trim` removes and `parseFloat` skips. */
  predicate IsSpace(c: char) {
    || c == ' ' || c == '\t' || c == '\n' || c == '\r' || c == '\U{B}' || c == '\U{C}'
    || c == '\U{A0}' || c == '\U{1680}' || ('\U{2000}' <= c <= '\U{200A}')
    || c == '\U{2028}' || c == '\U{2029}' || c == '\U{202F}' || c == '\U{205F}'
    || c == '\U{3000}' || c == '\U{FEFF}'
  }

  predicate AllSpace(s: string) {
    forall i | 0 <= i < |s| :: IsSpace(s[i])
  }

  /** Number of white-space characters at the start of `s`. */
  function LeadingSpaces(s: string): (k: nat)
    ensures k <= |s| && AllSpace(s[..k])
    ensures k < |s| ==> !IsSpace(s[k])
  {
    if s == [] || !IsSpace(s[0]) then 0
    else
      var k' := LeadingSpaces(s[1..]);
      assert s[..1 + k'] == [s[0]] + s[1..][..k'];
      1 + k'
  }

  /** Number of white-space characters at the end of `s`. */
  function TrailingSpaces(s: string): (k: nat)
    ensures k <= |s| && AllSpace(s[|s| - k..])
    ensures k < |s| ==> !IsSpace(s[|s| - k - 1])
  {
    if s == [] || !IsSpace(s[|s| - 1]) then 0
    else
      var p := s[..|s| - 1];
      var k' := TrailingSpaces(p);
      assert s[|s| - (1 + k')..] == p[|p| - k'..] + [s[|s| - 1]];
      1 + k'
  }

  function TrimStart(s: string): string {
    s[LeadingSpaces(s)..]
  }

  function TrimEnd(s: string): string {
    s[..|s| - TrailingSpaces(s)]
  }

  /** `s.trim()`: empty exactly when `s` is made of white space only,
      otherwise it starts and ends with a character that is not white space. */
  function Trim(s: string): (t: string)
    ensures t == "" <==> AllSpace(s)
    ensures t != "" ==> !IsSpace(t[0]) && !IsSpace(t[|t| - 1])
  {
    TrimFacts(s);
    TrimEnd(TrimStart(s))
  }

  lemma TrimFacts(s: string)
    ensures var t := TrimEnd(TrimStart(s));
      && (t == "" <==> AllSpace(s))
      && (t != "" ==> !IsSpace(t[0]) && !IsSpace(t[|t| - 1]))
  {
    var k := LeadingSpaces(s);
    var a := s[k..];
    var j := TrailingSpaces(a);
    if j == |a| {
      TrimOfSpaces(s);
    } else {
      assert a[0] == s[k];
    }
  }

  lemma TrimOfSpaces(s: string)
    requires TrailingSpaces(TrimStart(s)) == |TrimStart(s)|
    ensures AllSpace(s)
  {
    var k := LeadingSpaces(s);
    var a := s[k..];
    assert AllSpace(a) by {
      assert a[|a| - |a|..] == a;
    }
    AllSpaceSuffix(s, k);
    assert k == |s|;
    assert s[..k] == s;
  }

  lemma AllSpaceSuffix(s: string, k: nat)
    requires k <= |s| && AllSpace(s[k..])
    ensures forall i | k <= i < |s| :: IsSpace(s[i])
  {
    forall i | k <= i < |s| ensures IsSpace(s[i]) {
      assert s[i] == s[k..][i - k];
    }
  }

  /** `!s.trim()`: the check a required form field fails. */
  predicate IsBlank(s: string) {
    Trim(s) == ""
  }
}

module JsNumber {
  import opened Wrappers
  import opened JsString

  function Pow10(e: nat): (p: nat)
    ensures p >= 1
  {
    if e == 0 then 1 else 10 * Pow10(e - 1)
  }

  /** A finite JavaScript number, written as the decimal `mant / 10^exp`.
      NaN is not a `Num`: the operations that can produce it return an `Option`. */
  datatype Num = Num(mant: int, exp: nat)

  function Value(n: Num): real {
    n.mant as real / Pow10(n.exp) as real
  }

  const Zero: Num := Num(0, 0)

  /** JavaScript truthiness of a number: 0 is falsy. */
  predicate NumTruthy(n: Num) {
    n.mant != 0
  }

  predicate IsDigit(c: char) {
    '0' <= c <= '9'
  }

  predicate AllDigits(s: string) {
    forall i | 0 <= i < |s| :: IsDigit(s[i])
  }

  function DigitChar(d: nat): (c: char)
    requires d < 10
    ensures IsDigit(c) && c as int - '0' as int == d
  {
    ('0' as int + d) as char
  }

  /** The natural number a string of decimal digits denotes. */
  function DigitsValue(ds: string): nat
    requires AllDigits(ds)
  {
    if ds == [] then 0
    else 10 * DigitsValue(ds[..|ds| - 1]) + (ds[|ds| - 1] as int - '0' as int)
  }

  /** Length of the run of decimal digits at the start of `s`. */
  function DigitRun(s: string): (k: nat)
    ensures k <= |s| && AllDigits(s[..k])
    ensures k < |s| ==> !IsDigit(s[k])
  {
    if s == [] || !IsDigit(s[0]) then 0
    else
      var k' := DigitRun(s[1..]);
      assert s[..1 + k'] == [s[0]] + s[1..][..k'];
      1 + k'
  }

  /** Does `t` start like a decimal literal: an optional sign, then a digit
      or a point followed by a digit? */
  predicate StartsNumeric(t: string) {
    var u := if |t| > 0 && (t[0] == '-' || t[0] == '+') then t[1..] else t;
    || (|u| > 0 && IsDigit(u[0]))
    || (|u| > 1 && u[0] == '.' && IsDigit(u[1]))
  }

  /** The value of an exponent part `e[sign]digits` at the start of `s`, or 0
      when `s` does not start with one. */
  function ExponentOf(s: string): int {
    if |s| == 0 || (s[0] != 'e' && s[0] != 'E') then 0
    else
      var neg := |s| > 1 && s[1] == '-';
      var t := if |s| > 1 && (s[1] == '-' || s[1] == '+') then s[2..] else s[1..];
      var ds := t[..DigitRun(t)];
      var v: int := DigitsValue(ds);
      if neg then -v else v
  }

  /** `m / 10^fracLen * 10^e` as a `Num`. */
  function Scale(m: int, fracLen: nat, e: int): Num {
    if e >= 0 then Num(m * Pow10(e), fracLen) else Num(m, fracLen - e)
  }

  /** The unsigned part of a decimal literal at the start of `u`: digits, an
      optional point and fraction digits (at least one digit in all), an
      optional exponent; the longest such prefix is read. */
  function ParseUnsigned(u: string): (r: Option<Num>)
    ensures r.Some? <==> (|u| > 0 && IsDigit(u[0])) || (|u| > 1 && u[0] == '.' && IsDigit(u[1]))
  {
    var i := DigitRun(u);
    var rest := u[i..];
    var dot := |rest| > 0 && rest[0] == '.';
    var frac := if dot then rest[1..][..DigitRun(rest[1..])] else "";
    if i + |frac| == 0 then None
    else
      var after := if dot then rest[1 + |frac|..] else rest;
      Some(Scale(DigitsValue(u[..i] + frac), |frac|, ExponentOf(after)))
  }

  /** `parseFloat(s)`: the longest prefix of `s`, after leading white space,
      that reads as a decimal literal; `None` stands for NaN. */
  function ParseFloat(s: string): (r: Option<Num>)
    ensures r.Some? <==> StartsNumeric(TrimStart(s))
  {
    ParseTrimmed(TrimStart(s))
  }

  /** `parseFloat` once the leading white space is gone: an optional sign,
      then the unsigned literal. */
  function ParseTrimmed(t: string): (r: Option<Num>)
    ensures r.Some? <==> StartsNumeric(t)
  {
    var u := if |t| > 0 && (t[0] == '-' || t[0] == '+') then t[1..] else t;
    match ParseUnsigned(u)
    case None => None
    case Some(n) => Some(if |t| > 0 && t[0] == '-' then Num(-n.mant, n.exp) else n)
  }

  /** `p || 0` for the result `p` of a `parseFloat`: NaN and 0 both give 0. */
  function OrZero(p: Option<Num>): (n: Num)
    ensures n == Zero || (p.Some? && n == p.value)
    ensures Value(n) == if p.Some? then Value(p.value) else 0.0
  {
    if p.Some? && NumTruthy(p.value) then p.value else Zero
  }

  /** `parseFloat(s) || 0`. */
  function ParsedOrZero(s: string): Num {
    OrZero(ParseFloat(s))
  }

  /** The decimal digits of `k`, without leading zeros ("0" for 0). */
  function NatToDigits(k: nat): (ds: string)
    ensures |ds| >= 1 && AllDigits(ds) && DigitsValue(ds) == k
    ensures k > 0 ==> ds[0] != '0'
  {
    if k < 10 then [DigitChar(k)]
    else
      var p := NatToDigits(k / 10);
      var ds := p + [DigitChar(k % 10)];
      assert ds[..|ds| - 1] == p;
      ds
  }

  /** The same number with trailing zeros of the fraction removed. */
  function Canonical(n: Num): (c: Num)
    ensures Value(c) == Value(n)
    ensures c.exp > 0 ==> c.mant % 10 != 0
    ensures c.mant == 0 ==> c == Zero
    decreases n.exp
  {
    if n.exp > 0 && n.mant % 10 == 0 then
      var q := n.mant / 10;
      var p := Pow10(n.exp - 1) as real;
      assert n.mant as real == 10.0 * q as real;
      assert Pow10(n.exp) as real == 10.0 * p;
      assert Value(n) == q as real / p;
      Canonical(Num(q, n.exp - 1))
    else n
  }

  function Zeros(k: nat): (z: string)
    ensures |z| == k && AllDigits(z)
  {
    if k == 0 then "" else Zeros(k - 1) + "0"
  }

  function Abs(i: int): nat {
    if i < 0 then -i else i
  }

  /** The digits of a canonical number around its decimal point: at least one
      digit before the point and exactly `c.exp` after it. */
  function DecimalParts(c: Num): (parts: (string, string))
    ensures AllDigits(parts.0) && AllDigits(parts.1)
    ensures |parts.0| >= 1 && |parts.1| == c.exp
    ensures DigitsValue(parts.0 + parts.1) == Abs(c.mant)
  {
    var ds := NatToDigits(Abs(c.mant));
    var z := if |ds| <= c.exp then Zeros(c.exp + 1 - |ds|) else "";
    var padded := z + ds;
    PaddedValue(z, ds);
    var point := |padded| - c.exp;
    assert padded[..point] + padded[point..] == padded;
    (padded[..point], padded[point..])
  }

  lemma PaddedValue(z: string, ds: string)
    requires AllDigits(ds) && (z == "" || z == Zeros(|z|))
    ensures AllDigits(z + ds) && DigitsValue(z + ds) == DigitsValue(ds)
  {
    if z != "" { ZerosValue(|z|); }
    DigitsValueAppend(z, ds);
  }

  /** The unsigned plain-decimal literal of a canonical number: `ip` or `ip.fp`. */
  function PlainLiteral(c: Num): (s: string)
    ensures |s| > 0 && IsDigit(s[0])
  {
    var parts := DecimalParts(c);
    parts.0 + (if parts.1 == "" then "" else "." + parts.1)
  }

  /** `String(n)` for a finite number, in plain decimal notation. */
  function NumToString(n: Num): (s: string)
    ensures |s| > 0
  {
    var c := Canonical(n);
    (if c.mant < 0 then "-" else "") + PlainLiteral(c)
  }

  // ----- lemmas -----

  lemma {:induction false} DigitsValueAppend(a: string, b: string)
    requires AllDigits(a) && AllDigits(b)
    ensures AllDigits(a + b)
    ensures DigitsValue(a + b) == DigitsValue(a) * Pow10(|b|) + DigitsValue(b)
    decreases |b|
  {
    assert AllDigits(a + b) by {
      forall i | 0 <= i < |a + b| ensures IsDigit((a + b)[i]) {
        if i < |a| { assert (a + b)[i] == a[i]; } else { assert (a + b)[i] == b[i - |a|]; }
      }
    }
    if b == [] {
      assert a + b == a;
    } else {
      var b' := b[..|b| - 1];
      var last := b[|b| - 1] as int - '0' as int;
      assert (a + b)[..|a + b| - 1] == a + b';
      assert (a + b)[|a + b| - 1] == b[|b| - 1];
      DigitsValueAppend(a, b');
      var va, vb' := DigitsValue(a), DigitsValue(b');
      var p' := Pow10(|b'|);
      assert DigitsValue(a + b) == 10 * (va * p' + vb') + last;
      assert DigitsValue(b) == 10 * vb' + last;
      assert Pow10(|b|) == 10 * p';
      ShiftDigit(va, p', vb', last);
    }
  }

  /** Appending one digit to both sides of `va * p + vb`. */
  lemma ShiftDigit(va: int, p: int, vb: int, last: int)
    ensures 10 * (va * p + vb) + last == va * (10 * p) + (10 * vb + last)
  {
  }

  lemma {:induction false} ZerosValue(k: nat)
    ensures DigitsValue(Zeros(k)) == 0
  {
    if k > 0 {
      assert Zeros(k)[..k - 1] == Zeros(k - 1);
      ZerosValue(k - 1);
    }
  }

  lemma {:induction false} DigitRunOfDigits(ds: string, t: string)
    requires AllDigits(ds)
    requires t == [] || !IsDigit(t[0])
    ensures DigitRun(ds + t) == |ds|
    decreases |ds|
  {
    if ds != [] {
      assert (ds + t)[1..] == ds[1..] + t;
      DigitRunOfDigits(ds[1..], t);
    } else {
      assert ds + t == t;
    }
  }

  /** The plain literal `ip.fp` (or `ip` alone) reads back as its digits over `10^|fp|`. */
  lemma {:induction false} UnsignedPlain(ip: string, fp: string)
    requires |ip| >= 1 && AllDigits(ip) && AllDigits(fp)
    ensures AllDigits(ip + fp)
    ensures ParseUnsigned(ip + (if fp == "" then "" else "." + fp))
            == Some(Num(DigitsValue(ip + fp), |fp|))
  {
    DigitsValueAppend(ip, fp);
    var tail := if fp == "" then "" else "." + fp;
    var u := ip + tail;
    DigitRunOfDigits(ip, tail);
    assert u[..|ip|] == ip && u[|ip|..] == tail;
    if fp == "" {
      assert ip + fp == ip;
    } else {
      assert tail[1..] == fp + "";
      DigitRunOfDigits(fp, "");
      assert tail[1..][..|fp|] == fp;
      assert tail[1 + |fp|..] == "";
    }
    assert ExponentOf("") == 0;
  }

  lemma NoLeadingSpace(s: string)
    requires |s| > 0 && !IsSpace(s[0])
    ensures TrimStart(s) == s
  {
  }

  /** A literal that starts with a digit, optionally preceded by a minus sign,
      is read by `ParseUnsigned` and then negated. */
  lemma ParseSigned(neg: bool, u: string)
    requires |u| > 0 && IsDigit(u[0])
    ensures ParseUnsigned(u).Some?
    ensures var n := ParseUnsigned(u).value;
      ParseFloat((if neg then "-" else "") + u) == Some(if neg then Num(-n.mant, n.exp) else n)
  {
    if neg {
      ParseNegative(u);
    } else {
      NoLeadingSpace(u);
      assert "" + u == u;
    }
  }

  lemma ParseNegative(u: string)
    requires |u| > 0 && IsDigit(u[0])
    ensures ParseUnsigned(u).Some?
    ensures var n := ParseUnsigned(u).value;
      ParseFloat("-" + u) == Some(Num(-n.mant, n.exp))
  {
    var s := "-" + u;
    NoLeadingSpace(s);
    assert s[0] == '-' && s[1..] == u;
    assert ParseFloat(s) == ParseTrimmed(s);
  }

  lemma PlainLiteralParses(c: Num)
    ensures ParseUnsigned(PlainLiteral(c)) == Some(Num(Abs(c.mant), c.exp))
  {
    UnsignedPlain(DecimalParts(c).0, DecimalParts(c).1);
  }

  /** `String(n)` reads back as the canonical form of `n`. */
  lemma ParsePrinted(n: Num)
    ensures ParseFloat(NumToString(n)) == Some(Canonical(n))
  {
    SignedLiteralParses(Canonical(n));
  }

  /** A number's sign and plain literal read back as that number. */
  lemma SignedLiteralParses(c: Num)
    ensures ParseFloat((if c.mant < 0 then "-" else "") + PlainLiteral(c)) == Some(c)
  {
    var m: int := Abs(c.mant);
    assert (if c.mant < 0 then Num(-m, c.exp) else Num(m, c.exp)) == c;
    PlainLiteralParses(c);
    ParseSigned(c.mant < 0, PlainLiteral(c));
  }

  /** Printing a number and parsing it back gives the same number:
      `parseFloat(String(n))` denotes the value of `n`. */
  lemma ParsePrintRoundTrip(n: Num)
    ensures ParseFloat(NumToString(n)) == Some(Canonical(n))
    ensures Value(ParsedOrZero(NumToString(n))) == Value(n)
  {
    ParsePrinted(n);
    var c := Canonical(n);
    assert ParsedOrZero(NumToString(n)) == OrZero(Some(c));
  }

  /** A literal that starts with a digit reads as its unsigned part. */
  lemma ParseUnsignedLiteral(u: string)
    requires |u| > 0 && IsDigit(u[0])
    ensures ParseFloat(u) == ParseUnsigned(u)
  {
    ParseSigned(false, u);
    assert "" + u == u;
  }

  lemma DigitsOf105()
    ensures AllDigits("105") && DigitsValue("105") == 105
  {
    assert "105"[..2] == "10" && "10"[..1] == "1" && "1"[..0] == "";
  }

  lemma DigitsOf42()
    ensures AllDigits("42") && DigitsValue("42") == 42
  {
    assert "42"[..1] == "4" && "4"[..0] == "";
  }

  /** `parseFloat("10.5")` is 10.5 (the price in the catalog's own test data). */
  lemma ParseTenAndAHalf()
    ensures ParseFloat("10.5") == Some(Num(105, 1)) && Value(Num(105, 1)) == 10.5
  {
    assert ParseUnsigned("10.5") == Some(Num(105, 1)) by {
      DigitsOf105();
      UnsignedPlain("10", "5");
      assert "10" + "5" == "105" && "10" + ("." + "5") == "10.5";
    }
    ParseUnsignedLiteral("10.5");
    assert Pow10(1) == 10;
  }

  /** `parseFloat("4.2")` is 4.2. */
  lemma ParseFourPointTwo()
    ensures ParseFloat("4.2") == Some(Num(42, 1))
  {
    assert ParseUnsigned("4.2") == Some(Num(42, 1)) by {
      DigitsOf42();
      UnsignedPlain("4", "2");
      assert "4" + "2" == "42" && "4" + ("." + "2") == "4.2";
    }
    ParseUnsignedLiteral("4.2");
  }

  /** `parseFloat` of a single digit is that digit. */
  lemma ParseSingleDigit(d: nat)
    requires d < 10
    ensures ParseFloat([DigitChar(d)]) == Some(Num(d, 0)) && Value(Num(d, 0)) == d as real
  {
    var u := [DigitChar(d)];
    assert ParseUnsigned(u) == Some(Num(d, 0)) by {
      assert DigitsValue(u) == d by { assert u[..0] == ""; }
      UnsignedPlain(u, "");
      assert u + "" == u;
    }
    ParseUnsignedLiteral(u);
  }

  /** Text that does not start like a number parses as NaN; so do the
      strings `String(null)` and `String(undefined)`. */
  lemma ParseNaNs()
    ensures ParseFloat("") == None && ParseFloat("abc") == None
    ensures ParseFloat("null") == None && ParseFloat("undefined") == None
  {
    NoLeadingSpace("abc");
    NoLeadingSpace("null");
    NoLeadingSpace("undefined");
  }
}
