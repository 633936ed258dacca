/** JavaScript values as the soundmap controllers meet them: optional values,
    numbers that may be NaN, the `mile` field of a track record, and the
    string and number built-ins the core relies on (`Math.min`/`Math.max`,
    `String.prototype.trim`, `toLowerCase`, `parseFloat`, truthiness).

    Numbers are mathematical reals: IEEE-754 rounding is not modelled. */
module JsValues {

  datatype Option<+T> = None | Some(value: T)

  /** A JavaScript number restricted to what the core meets: NaN or a finite value. */
  datatype Number = NaN | Finite(value: real)

  /** The `mile` field of a track: missing (`undefined` or `null`), a string, or a number. */
  datatype MileField = Absent | Text(text: string) | Numeric(x: real)

  // ---------------------------------------------------------------------------
  // Math.min, Math.max, Math.abs, Math.floor
  // ---------------------------------------------------------------------------

  function Min(a: real, b: real): (r: real)
    ensures r <= a && r <= b
    ensures r == a || r == b
  {
    if a <= b then a else b
  }

  function Max(a: real, b: real): (r: real)
    ensures r >= a && r >= b
    ensures r == a || r == b
  {
    if a >= b then a else b
  }

  function Abs(x: real): (r: real)
    ensures r >= 0.0
    ensures r == x || r == -x
  {
    if x < 0.0 then -x else x
  }

  /** `Math.floor` on a finite number. */
  function Floor(x: real): (r: int)
    ensures r as real <= x < r as real + 1.0
  {
    x.Floor
  }

  /** The value `x.toFixed(1)` prints: the nearest multiple of 0.1, ties away
      from zero (toFixed rounds the magnitude, ties to the larger). */
  function ToFixed1(x: real): (r: real)
    ensures Abs(r - x) <= 0.05
    ensures IsTenth(r)
  {
    if x < 0.0 then
      var h := HalfUpTenths(-x);
      NegatedTenth(h);
      -h
    else HalfUpTenths(x)
  }

  /** A whole number of tenths. */
  predicate IsTenth(r: real)
  {
    (r * 10.0).Floor as real == r * 10.0
  }

  lemma NegatedTenth(h: real)
    requires IsTenth(h)
    ensures IsTenth(-h)
  {
    var k := (h * 10.0).Floor;
    assert (-h) * 10.0 == (-k) as real;
  }

  function HalfUpTenths(y: real): (r: real)
    ensures y - 0.05 < r <= y + 0.05
    ensures IsTenth(r)
  {
    var k := (y * 10.0 + 0.5).Floor;
    assert (k as real / 10.0) * 10.0 == k as real;
    k as real / 10.0
  }

  // ---------------------------------------------------------------------------
  // Truthiness of a mile field
  // ---------------------------------------------------------------------------

  /** JavaScript truthiness: `undefined`, `null`, `""` and `0` are falsy. */
  predicate Truthy(m: MileField)
  {
    match m
    case Absent => false
    case Text(s) => |s| > 0
    case Numeric(x) => x != 0.0
  }

  // ---------------------------------------------------------------------------
  // Strings: white space, trim, lower case
  // ---------------------------------------------------------------------------

  /** The white space and line terminators that `trim` and `parseFloat` skip
      (ECMAScript's WhiteSpace and LineTerminator productions; the Zs category
      is listed out). */
  predicate IsWhiteSpace(c: char)
  {
    || c == '\t' || c == '\n' || c == '\U{000B}' || c == '\U{000C}' || c == '\r'
    || c == ' ' || c == '\U{00A0}' || c == '\U{1680}'
    || ('\U{2000}' <= c <= '\U{200A}')
    || c == '\U{2028}' || c == '\U{2029}' || c == '\U{202F}' || c == '\U{205F}'
    || c == '\U{3000}' || c == '\U{FEFF}'
  }

  function TrimStart(s: string): (r: string)
    ensures |r| <= |s| && r == s[|s| - |r|..]
    ensures |r| > 0 ==> !IsWhiteSpace(r[0])
    ensures forall i :: 0 <= i < |s| - |r| ==> IsWhiteSpace(s[i])
  {
    if |s| > 0 && IsWhiteSpace(s[0]) then TrimStart(s[1..]) else s
  }

  function TrimEnd(s: string): (r: string)
    ensures |r| <= |s| && r == s[..|r|]
    ensures |r| > 0 ==> !IsWhiteSpace(r[|r| - 1])
    ensures forall i :: |r| <= i < |s| ==> IsWhiteSpace(s[i])
  {
    if |s| > 0 && IsWhiteSpace(s[|s| - 1]) then TrimEnd(s[..|s| - 1]) else s
  }

  /** `String.prototype.trim`. */
  function Trim(s: string): string
  {
    TrimEnd(TrimStart(s))
  }

  function LowerChar(c: char): char
  {
    if 'A' <= c <= 'Z' then (c as int - 'A' as int + 'a' as int) as char else c
  }

  /** `toLowerCase` on ASCII letters. Only ASCII letters lower-case to the
      letters of "n/a", which is the one comparison the core makes. */
  function AsciiLower(s: string): (r: string)
    ensures |r| == |s|
    ensures forall i :: 0 <= i < |s| ==> r[i] == LowerChar(s[i])
  {
    if |s| == 0 then [] else [LowerChar(s[0])] + AsciiLower(s[1..])
  }

  /** `mile.toString().trim().toLowerCase() === 'n/a'`; a number never prints as "n/a". */
  predicate IsNotApplicable(m: MileField)
  {
    m.Text? && AsciiLower(Trim(m.text)) == "n/a"
  }

  /** `mile.toString().startsWith('~')`; a number never prints with a leading `~`. */
  predicate StartsWithTilde(m: MileField)
  {
    m.Text? && |m.text| > 0 && m.text[0] == '~'
  }

  lemma NotApplicableSpellings(s: string)
    ensures IsNotApplicable(Text(s)) <==>
      var t := Trim(s);
      |t| == 3 && (t[0] == 'n' || t[0] == 'N') && t[1] == '/' && (t[2] == 'a' || t[2] == 'A')
  {
    var t := Trim(s);
    if |t| == 3 {
      var l := AsciiLower(t);
      assert l == "n/a" <==> l[0] == 'n' && l[1] == '/' && l[2] == 'a';
    }
  }

  /** The property names every plain object inherits from `Object.prototype`.
      Looking one of them up in an object literal finds a function (or, for
      `__proto__`, the prototype itself), which is truthy, so a
      `table[key] || fallback` lookup does not fall back for them. */
  predicate IsInheritedName(s: string)
  {
    s in {"constructor", "__proto__", "toString", "toLocaleString", "valueOf",
          "hasOwnProperty", "isPrototypeOf", "propertyIsEnumerable",
          "__defineGetter__", "__defineSetter__", "__lookupGetter__", "__lookupSetter__"}
  }

  // ---------------------------------------------------------------------------
  // parseFloat
  // ---------------------------------------------------------------------------

  predicate IsDigit(c: char)
  {
    '0' <= c <= '9'
  }

  predicate AllDigits(s: string)
  {
    forall i :: 0 <= i < |s| ==> IsDigit(s[i])
  }

  function DigitValue(c: char): (d: nat)
    requires IsDigit(c)
    ensures d < 10
  {
    c as int - '0' as int
  }

  /** The length of the longest prefix of `s` made of decimal digits. */
  function DigitRun(s: string): (k: nat)
    ensures k <= |s|
    ensures AllDigits(s[..k])
    ensures k < |s| ==> !IsDigit(s[k])
  {
    if |s| > 0 && IsDigit(s[0]) then
      assert s[..1 + DigitRun(s[1..])] == [s[0]] + s[1..][..DigitRun(s[1..])];
      1 + DigitRun(s[1..])
    else 0
  }

  /** The value of a string of decimal digits, most significant first. */
  function DigitsValue(s: string): nat
    requires AllDigits(s)
  {
    if |s| == 0 then 0 else 10 * DigitsValue(s[..|s| - 1]) + DigitValue(s[|s| - 1])
  }

  function Pow10(n: nat): (r: nat)
    ensures r >= 1
  {
    if n == 0 then 1 else 10 * Pow10(n - 1)
  }

  /** The factor an optional exponent part (`e`, optional sign, digits) at the
      head of `s` contributes; a bare `e` without digits is not part of the number. */
  function ExponentScale(s: string): (f: real)
    ensures f > 0.0
  {
    if |s| > 0 && (s[0] == 'e' || s[0] == 'E') then
      var t := s[1..];
      var negative := |t| > 0 && t[0] == '-';
      var digits := if |t| > 0 && (t[0] == '-' || t[0] == '+') then t[1..] else t;
      var k := DigitRun(digits);
      if k == 0 then 1.0
      else if negative then 1.0 / Pow10(DigitsValue(digits[..k])) as real
      else Pow10(DigitsValue(digits[..k])) as real
    else 1.0
  }

  /** The longest prefix of `s` that reads as an unsigned decimal literal
      (digits, optional fraction, optional exponent), or None when there is none. */
  function ParseUnsigned(s: string): Option<real>
  {
    var i := DigitRun(s);
    var hasDot := i < |s| && s[i] == '.';
    var f := if hasDot then DigitRun(s[i + 1..]) else 0;
    if i == 0 && f == 0 then None
    else
      var whole := DigitsValue(s[..i]) as real;
      var fraction := if hasDot then DigitsValue(s[i + 1..][..f]) as real / Pow10(f) as real else 0.0;
      var rest := if hasDot then s[i + 1 + f..] else s[i..];
      Some((whole + fraction) * ExponentScale(rest))
  }

  /** `parseFloat`: skip leading white space, read an optional sign and the
      longest decimal literal; NaN when no digit can be read. */
  function ParseFloat(s: string): Number
  {
    var t := TrimStart(s);
    var negative := |t| > 0 && t[0] == '-';
    var body := if |t| > 0 && (t[0] == '-' || t[0] == '+') then t[1..] else t;
    match ParseUnsigned(body)
    case None => NaN
    case Some(v) => Finite(if negative then -v else v)
  }

  /** `parseFloat(mile)`: a number converts to itself, a missing value to NaN. */
  function ParseMile(m: MileField): Number
  {
    match m
    case Absent => NaN
    case Text(s) => ParseFloat(s)
    case Numeric(x) => Finite(x)
  }

  /** Decimal rendering of a natural number, as `String(n)` prints it. */
  function NatText(n: nat): (s: string)
    ensures |s| > 0 && AllDigits(s)
  {
    var d := ['0' + (n % 10) as char];
    if n < 10 then d else NatText(n / 10) + d
  }

  lemma {:induction false} NatTextValue(n: nat)
    ensures DigitsValue(NatText(n)) == n
  {
    var s := NatText(n);
    if n >= 10 {
      NatTextValue(n / 10);
      assert s[..|s| - 1] == NatText(n / 10);
    }
  }

  /** `parseFloat` reads back every natural number it is shown. */
  lemma ParseFloatReadsNatText(n: nat)
    ensures ParseFloat(NatText(n)) == Finite(n as real)
  {
    var s := NatText(n);
    assert !IsWhiteSpace(s[0]) && !(s[0] == '-' || s[0] == '+');
    assert TrimStart(s) == s;
    DigitRunOfDigits(s);
    assert s[..|s|] == s;
    NatTextValue(n);
    assert ExponentScale(s[|s|..]) == 1.0;
    assert ParseUnsigned(s) == Some(n as real);
  }

  lemma {:induction false} DigitRunOfDigits(s: string)
    requires AllDigits(s)
    ensures DigitRun(s) == |s|
  {
    if |s| > 0 {
      DigitRunOfDigits(s[1..]);
    }
  }

  /** A leading `~` (or any other character that cannot start a number) gives NaN. */
  lemma ParseFloatOfTildeIsNaN(s: string)
    ensures ParseFloat("~" + s) == NaN
  {
    var t := "~" + s;
    assert TrimStart(t) == t;
    assert DigitRun(t) == 0;
  }

  lemma ParseFloatOfNotApplicableIsNaN(s: string)
    requires IsNotApplicable(Text(s))
    ensures ParseFloat(s) == NaN
  {
    NotApplicableSpellings(s);
    var t := Trim(s);
    var u := TrimStart(s);
    assert t == u[..|t|];
    assert u[0] == t[0];
    assert DigitRun(u) == 0;
  }
}
