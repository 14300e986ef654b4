/**
 * JavaScript's conversion of text to a number, as a loose comparison `x != s` between a
 * number and a string applies it (StringToNumber, section 7.1.4.1.1 of ECMA-262): the text
 * is stripped of white space and line terminators at both ends, and what remains must be
 * empty (0), a decimal literal with an optional sign (digits, a point, an exponent, or
 * `Infinity`), or a `0x`, `0o` or `0b` integer. Any other text converts to NaN.
 */
module JsNumbers {

  /** A JavaScript number: NaN, an infinity, or a finite value. */
  datatype JsNum = NaN | Infinity(negative: bool) | Num(value: real)

  /** ECMAScript WhiteSpace (tab, VT, FF, ZWNBSP and every Zs space) and LineTerminator. */
  predicate IsJsSpace(c: char)
  {
    || c == '\t' || c == '\U{000B}' || c == '\U{000C}' || c == ' ' || c == '\U{00A0}'
    || c == '\U{FEFF}' || c == '\U{1680}' || ('\U{2000}' <= c <= '\U{200A}') || c == '\U{202F}'
    || c == '\U{205F}' || c == '\U{3000}'
    || c == '\n' || c == '\r' || c == '\U{2028}' || c == '\U{2029}'
  }

  /** Every character of `w` is white space or a line terminator. */
  predicate AllSpace(w: string)
  {
    forall j | 0 <= j < |w| :: IsJsSpace(w[j])
  }

  /** `s` without its leading white space. */
  function TrimStart(s: string): (r: string)
    ensures r == [] || !IsJsSpace(r[0])
  {
    if s != [] && IsJsSpace(s[0]) then TrimStart(s[1..]) else s
  }

  /** `s` without its trailing white space; what is left is a prefix of `s`. */
  function TrimEnd(s: string): (r: string)
    ensures |r| <= |s| && r == s[..|r|]
    ensures r == [] || !IsJsSpace(r[|r| - 1])
  {
    if s != [] && IsJsSpace(s[|s| - 1]) then TrimEnd(s[..|s| - 1]) else s
  }

  /** `s` without white space at either end. */
  function Trim(s: string): (r: string)
    ensures r == [] || (!IsJsSpace(r[0]) && !IsJsSpace(r[|r| - 1]))
  {
    TrimEnd(TrimStart(s))
  }

  predicate IsDecimalDigit(c: char) { '0' <= c <= '9' }
  predicate IsHexDigit(c: char) { IsDecimalDigit(c) || 'a' <= c <= 'f' || 'A' <= c <= 'F' }
  predicate IsOctalDigit(c: char) { '0' <= c <= '7' }
  predicate IsBinaryDigit(c: char) { c == '0' || c == '1' }

  /** `ds` is one or more digits, each accepted by `digit`. */
  predicate IsDigits(ds: string, digit: char -> bool)
  {
    ds != [] && forall j | 0 <= j < |ds| :: digit(ds[j])
  }

  /** The end of the run of decimal digits that starts at `i`. */
  function DigitRun(s: string, i: int): (j: int)
    requires 0 <= i <= |s|
    ensures i <= j <= |s|
    ensures forall k | i <= k < j :: IsDecimalDigit(s[k])
    ensures j == |s| || !IsDecimalDigit(s[j])
    decreases |s| - i
  {
    if i < |s| && IsDecimalDigit(s[i]) then DigitRun(s, i + 1) else i
  }

  /** Where the digits before the point end. */
  function IntEnd(u: string): int
  {
    DigitRun(u, 0)
  }

  /** The digits before the point are followed by a point. */
  predicate HasPoint(u: string)
  {
    IntEnd(u) < |u| && u[IntEnd(u)] == '.'
  }

  /** Where the digits after the point end (the end of the integer digits when there is no point). */
  function FracEnd(u: string): (j: int)
    ensures IntEnd(u) <= j <= |u|
    ensures HasPoint(u) ==> IntEnd(u) + 1 <= j
  {
    if HasPoint(u) then DigitRun(u, IntEnd(u) + 1) else IntEnd(u)
  }

  /** SignedInteger: decimal digits with an optional sign. */
  predicate IsSignedInteger(s: string)
  {
    IsDigits(s, IsDecimalDigit) || (s != [] && s[0] in "+-" && IsDigits(s[1..], IsDecimalDigit))
  }

  /** ExponentPart: `e` or `E` and a signed integer. */
  predicate IsExponentPart(e: string)
  {
    e != [] && e[0] in "eE" && IsSignedInteger(e[1..])
  }

  /**
   * StrUnsignedDecimalLiteral: `Infinity`, or digits with an optional point and fraction, or
   * a point and a fraction, either of them followed by an optional exponent.
   */
  predicate IsUnsignedDecimal(u: string)
  {
    || u == "Infinity"
    || (var i, j := IntEnd(u), FracEnd(u);
        (i > 0 || j > i + 1) && (j == |u| || IsExponentPart(u[j..])))
  }

  /** NonDecimalIntegerLiteral: `0x`, `0o` or `0b` (either case) and digits of that base. */
  predicate IsNonDecimalInteger(t: string)
  {
    && |t| >= 3 && t[0] == '0'
    && (|| (t[1] in "xX" && IsDigits(t[2..], IsHexDigit))
        || (t[1] in "oO" && IsDigits(t[2..], IsOctalDigit))
        || (t[1] in "bB" && IsDigits(t[2..], IsBinaryDigit)))
  }

  /** The value of one digit, up to base 16. */
  function DigitValue(c: char): nat
  {
    if '0' <= c <= '9' then c as int - '0' as int
    else if 'a' <= c <= 'f' then c as int - 'a' as int + 10
    else if 'A' <= c <= 'F' then c as int - 'A' as int + 10
    else 0
  }

  /** The value of the digits `ds` in `base`, most significant first. */
  function NumeralValue(ds: string, base: nat): nat
  {
    if ds == [] then 0 else NumeralValue(ds[..|ds| - 1], base) * base + DigitValue(ds[|ds| - 1])
  }

  function Power(b: nat, e: nat): (r: nat)
    ensures b > 0 ==> r > 0
  {
    if e == 0 then 1 else b * Power(b, e - 1)
  }

  /** 10 raised to `e`, for any integer `e`. */
  function Pow10(e: int): (r: real)
    ensures r > 0.0
  {
    if e >= 0 then Power(10, e) as real else 1.0 / Power(10, -e) as real
  }

  /** The value of a signed integer. */
  function SignedIntegerValue(s: string): int
  {
    if s != [] && s[0] == '-' then -(NumeralValue(s[1..], 10) as int)
    else if s != [] && s[0] == '+' then NumeralValue(s[1..], 10)
    else NumeralValue(s, 10)
  }

  /** The exact value of a finite unsigned decimal literal. */
  function UnsignedDecimalValue(u: string): real
    requires IsUnsignedDecimal(u) && u != "Infinity"
  {
    var i, j := IntEnd(u), FracEnd(u);
    var fraction := if HasPoint(u) then u[i + 1..j] else [];
    var exponent := if j < |u| then SignedIntegerValue(u[j + 1..]) else 0;
    NumeralValue(u[..i] + fraction, 10) as real * Pow10(exponent - |fraction|)
  }

  /** The number an unsigned decimal literal denotes, negated when `negative`. */
  function UnsignedNumber(u: string, negative: bool): JsNum
    requires IsUnsignedDecimal(u)
  {
    if u == "Infinity" then Infinity(negative)
    else
      var v := UnsignedDecimalValue(u);
      Num(if negative then -v else v)
  }

  /** The base a non-decimal integer literal names. */
  function Radix(t: string): nat
    requires |t| >= 2
  {
    if t[1] in "xX" then 16 else if t[1] in "oO" then 8 else 2
  }

  /** StringToNumber. */
  function ToNumber(s: string): JsNum
  {
    var t := Trim(s);
    if t == [] then Num(0.0)
    else if IsUnsignedDecimal(t) then UnsignedNumber(t, false)
    else if t[0] in "+-" && IsUnsignedDecimal(t[1..]) then UnsignedNumber(t[1..], t[0] == '-')
    else if IsNonDecimalInteger(t) then Num(NumeralValue(t[2..], Radix(t)) as real)
    else NaN
  }

  /** `x != s` for a number `x` and a string `s`: NaN and the infinities differ from every number. */
  function LooseNotEquals(x: real, s: string): bool
  {
    match ToNumber(s)
    case Num(v) => x != v
    case _ => true
  }

  // ---------------------------------------------------------------------------
  // Properties
  // ---------------------------------------------------------------------------

  /** Leading white space in front of any text is dropped. */
  lemma {:induction false} TrimStartSpaces(w: string, s: string)
    requires AllSpace(w)
    ensures TrimStart(w + s) == TrimStart(s)
  {
    if w != [] {
      var rest := w[1..];
      assert IsJsSpace(w[0]) && (w + s)[0] == w[0] && (w + s)[1..] == rest + s;
      forall j | 0 <= j < |rest|
        ensures IsJsSpace(rest[j])
      {
        assert rest[j] == w[j + 1];
      }
      TrimStartSpaces(rest, s);
    } else {
      assert w + s == s;
    }
  }

  /** Trimming the start of `s + w` is trimming `s`, unless `s` is all white space. */
  lemma {:induction false} TrimStartAppend(s: string, w: string)
    ensures TrimStart(s + w) == if TrimStart(s) == [] then TrimStart(w) else TrimStart(s) + w
  {
    if s == [] {
      assert s + w == w;
    } else if IsJsSpace(s[0]) {
      assert (s + w)[1..] == s[1..] + w;
      TrimStartAppend(s[1..], w);
    }
  }

  /** Trailing white space after any text is dropped. */
  lemma {:induction false} TrimEndSpaces(s: string, w: string)
    requires AllSpace(w)
    ensures TrimEnd(s + w) == TrimEnd(s)
  {
    if w != [] {
      var init := w[..|w| - 1];
      assert IsJsSpace(w[|w| - 1]);
      assert (s + w)[|s + w| - 1] == w[|w| - 1] && (s + w)[..|s + w| - 1] == s + init;
      forall j | 0 <= j < |init|
        ensures IsJsSpace(init[j])
      {
        assert init[j] == w[j];
      }
      TrimEndSpaces(s, init);
    } else {
      assert s + w == s;
    }
  }

  /**
   * Padding text with white space or line terminators on either side never changes the
   * number it converts to.
   */
  lemma PaddingIgnored(w1: string, s: string, w2: string)
    requires AllSpace(w1) && AllSpace(w2)
    ensures ToNumber(w1 + s + w2) == ToNumber(s)
  {
    assert w1 + s + w2 == w1 + (s + w2);
    TrimStartSpaces(w1, s + w2);
    TrimStartAppend(s, w2);
    if TrimStart(s) == [] {
      TrimStartSpaces(w2, []);
      assert w2 + [] == w2;
    } else {
      TrimEndSpaces(TrimStart(s), w2);
    }
    assert Trim(w1 + s + w2) == Trim(s);
  }

  /**
   * Text that, once trimmed, starts with a character no numeric literal starts with (not a
   * digit, a point, a sign or the `I` of `Infinity`) converts to NaN.
   */
  lemma NotNumericStart(s: string)
    requires Trim(s) != [] && Trim(s)[0] !in "0123456789.+-I"
    ensures ToNumber(s) == NaN
  {
    var t := Trim(s);
    assert !IsDecimalDigit(t[0]);
    assert IntEnd(t) == 0 && !HasPoint(t);
    assert t != "Infinity" by { assert "Infinity"[0] == 'I'; }
  }

  /** The text `'Wind'` converts to NaN. */
  lemma WindIsNaN()
    ensures ToNumber("Wind") == NaN
  {
    assert TrimStart("Wind") == "Wind";
    assert TrimEnd("Wind") == "Wind";
    NotNumericStart("Wind");
  }

  /** Every number differs from `'Wind'`: `x != 'Wind'` is true whatever `x` is. */
  lemma EveryNumberDiffersFromWind(x: real)
    ensures LooseNotEquals(x, "Wind")
  {
    WindIsNaN();
  }

  /** `x != s` is false exactly when `s` converts to the finite number `x`. */
  lemma LooseEqualsExactly(x: real, s: string)
    ensures !LooseNotEquals(x, s) <==> ToNumber(s) == Num(x)
  {
  }

  /** Text with a trailing no-break space still converts to its number: `1 != '1 '` is false. */
  lemma NoBreakSpaceTrimmed()
    ensures ToNumber("1\U{00A0}") == Num(1.0)
    ensures !LooseNotEquals(1.0, "1\U{00A0}")
  {
    var s := "1\U{00A0}";
    assert TrimStart(s) == s;
    assert s[..1] == "1";
    assert TrimEnd(s) == "1";
    assert IntEnd("1") == 1 by { assert DigitRun("1", 1) == 1; }
    assert !HasPoint("1");
    assert "1"[..1] == "1" && NumeralValue("1", 10) == 1 by { assert "1"[..0] == []; }
    assert UnsignedDecimalValue("1") == 1.0 by { assert "1" + [] == "1"; }
  }

  /** Text that is only a form feed converts to 0: `0 != '\f'` is false. */
  lemma FormFeedIsZero()
    ensures ToNumber("\U{000C}") == Num(0.0)
    ensures !LooseNotEquals(0.0, "\U{000C}")
  {
    assert TrimStart("\U{000C}") == TrimStart([]);
  }

  /** A hexadecimal integer converts to its value: `'0x1F'` is 31. */
  lemma HexLiteral()
    ensures ToNumber("0x1F") == Num(31.0)
  {
    var t := "0x1F";
    assert TrimStart(t) == t && TrimEnd(t) == t;
    assert IntEnd(t) == 1 by { assert DigitRun(t, 1) == 1; }
    assert !HasPoint(t) && FracEnd(t) == 1;
    assert !IsExponentPart(t[1..]);
    assert t[2..] == "1F" && "1F"[..1] == "1" && "1"[..0] == [];
  }

  /** `'-Infinity'` converts to negative infinity, which no finite number equals. */
  lemma NegativeInfinity(x: real)
    ensures ToNumber("-Infinity") == Infinity(true)
    ensures LooseNotEquals(x, "-Infinity")
  {
    var t := "-Infinity";
    assert TrimStart(t) == t && TrimEnd(t) == t;
    assert IntEnd(t) == 0 && !HasPoint(t);
    assert t[1..] == "Infinity";
  }
}
