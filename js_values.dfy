/** The JavaScript values the tracer configuration reads, and the language's
    conversions it relies on: truthiness, `String(x)`, the number conversion
    behind `Math.max`, `parseInt(x, 10)`, `Math.min`/`Math.max`, the `||`
    chain and plain objects updated in place. */
module JsValues {
  import opened Decimal
  import opened Wrappers

  /** A JavaScript number. Finite numbers are exact reals. */
  datatype Num = Finite(r: real) | NaN | Infinity(positive: bool)

  datatype Value =
    | Undefined
    | Null
    | Bool(b: bool)
    | Number(n: Num)
    | Str(s: string)
    | Arr(elems: seq<Value>)
    | Ref(id: nat)  // an object or function, known only by its identity

  /** `!!v` */
  predicate Truthy(v: Value) {
    match v
    case Undefined => false
    case Null => false
    case Bool(b) => b
    case Number(n) => !(n.NaN? || n == Finite(0.0))
    case Str(s) => s != ""
    case Arr(_) => true
    case Ref(_) => true
  }

  /** The falsy values are exactly `undefined`, `null`, `false`, `NaN`, `0`
      and the empty string. */
  lemma FalsyValues(v: Value)
    ensures !Truthy(v) <==>
      (v == Undefined || v == Null || v == Bool(false) || v == Number(NaN) || v == Number(Finite(0.0)) || v == Str(""))
  {
  }

  /** `a || b`: the left operand when truthy, else the right one. */
  function Or(a: Value, b: Value): (r: Value)
    ensures Truthy(a) ==> r == a
    ensures !Truthy(a) ==> r == b
  {
    if Truthy(a) then a else b
  }

  // ---------------------------------------------------------------- String(x)

  /** The integer part of `x`, rounded toward zero. */
  function Trunc(x: real): (t: int)
    ensures x >= 0.0 ==> 0 <= t && t as real <= x < t as real + 1.0
    ensures x < 0.0 ==> t <= 0 && t as real - 1.0 < x <= t as real
  {
    if x >= 0.0 then x.Floor else -((-x).Floor)
  }

  /** Fraction digits written after the decimal point at most. */
  const FractionLimit: nat := 20

  function MagnitudeText(m: real): (s: string)
    requires m >= 0.0
    ensures |s| > 0 && IsDigit(s[0])
  {
    var i := m.Floor;
    var f := m - i as real;
    NatText(i) + (if f == 0.0 then "" else "." + FractionText(f, FractionLimit))
  }

  /** The text of a finite number: an optional minus sign, the integer part,
      and the fraction digits after a point when there are any. */
  function NumberText(x: real): (s: string)
    ensures |s| > 0 && (s[0] == '-' || IsDigit(s[0]))
  {
    if x < 0.0 then "-" + MagnitudeText(-x) else MagnitudeText(x)
  }

  function NumText(n: Num): string {
    match n
    case NaN => "NaN"
    case Infinity(positive) => if positive then "Infinity" else "-Infinity"
    case Finite(x) => NumberText(x)
  }

  /** `String(v)` */
  function ToStr(v: Value): string
    decreases v, 1
  {
    match v
    case Undefined => "undefined"
    case Null => "null"
    case Bool(b) => if b then "true" else "false"
    case Number(n) => NumText(n)
    case Str(s) => s
    case Arr(elems) => Join(v, 0)
    case Ref(_) => "[object Object]"
  }

  /** `Array.prototype.join` with its default separator, from element `i` on:
      `null` and `undefined` elements print as empty text. */
  function Join(a: Value, i: nat): string
    requires a.Arr? && i <= |a.elems|
    decreases a, 0, |a.elems| - i
  {
    if i == |a.elems| then ""
    else
      var e := a.elems[i];
      var text := if e.Undefined? || e.Null? then "" else ToStr(e);
      if i + 1 == |a.elems| then text else text + "," + Join(a, i + 1)
  }

  // ---------------------------------------------------------------- Number(x)

  /** The characters the number grammar and `parseInt` skip around a
      literal: white space and line terminators. */
  predicate IsWhiteSpace(c: char) {
    || c == '\t' || c == '\n' || c == '\U{000B}' || c == '\U{000C}' || c == '\r' || c == ' '
    || c == '\U{00A0}' || c == '\U{1680}' || ('\U{2000}' <= c <= '\U{200A}')
    || c == '\U{2028}' || c == '\U{2029}' || c == '\U{202F}' || c == '\U{205F}'
    || c == '\U{3000}' || c == '\U{FEFF}'
  }

  /** `s` without its leading white space. */
  function TrimStart(s: string): (t: string)
    ensures t == [] || !IsWhiteSpace(t[0])
    ensures |t| <= |s|
    ensures forall i :: 0 <= i < |s| - |t| ==> IsWhiteSpace(s[i])
    decreases |s|
  {
    if s != [] && IsWhiteSpace(s[0]) then TrimStart(s[1..]) else s
  }

  /** `s` without its trailing white space. */
  function TrimEnd(s: string): (t: string)
    ensures t == [] || !IsWhiteSpace(t[|t| - 1])
    ensures |t| <= |s|
    ensures forall i :: |t| <= i < |s| ==> IsWhiteSpace(s[i])
    decreases |s|
  {
    if s != [] && IsWhiteSpace(s[|s| - 1]) then TrimEnd(s[..|s| - 1]) else s
  }

  /** The value of a digit in bases up to 16, or 16 for any other character. */
  function RadixDigit(c: char): (d: nat)
    ensures d <= 16
  {
    if '0' <= c <= '9' then c as int - '0' as int
    else if 'a' <= c <= 'f' then c as int - 'a' as int + 10
    else if 'A' <= c <= 'F' then c as int - 'A' as int + 10
    else 16
  }

  /** The value of `s` read as digits in base `radix`. */
  function RadixValue(s: string, radix: nat): nat
    decreases |s|
  {
    if s == [] then 0 else radix * RadixValue(s[..|s| - 1], radix) + RadixDigit(s[|s| - 1])
  }

  /** A `0x`, `0o` or `0b` literal, given the text after the prefix. */
  function RadixLiteral(digits: string, radix: nat): Num {
    if digits != [] && forall i :: 0 <= i < |digits| ==> RadixDigit(digits[i]) < radix
    then Finite(RadixValue(digits, radix) as real)
    else NaN
  }

  /** The value of a whole part and a fraction part written in decimal. */
  function DecimalValue(whole: string, fraction: string): real
    requires AllDigits(whole) && AllDigits(fraction)
  {
    if fraction == [] then DigitsValue(whole) as real
    else DigitsValue(whole) as real + DigitsValue(fraction) as real / Pow10(|fraction|) as real
  }

  /** `x` times ten to the power `e`, one factor of ten at a time. */
  function Scale(x: real, e: int): real
    decreases if e < 0 then -e else e
  {
    if e == 0 then x else if e > 0 then Scale(x, e - 1) * 10.0 else Scale(x, e + 1) / 10.0
  }

  function ExponentStart(u: string): (k: nat)
    ensures k <= |u|
    ensures forall i :: 0 <= i < k ==> u[i] != 'e' && u[i] != 'E'
    ensures k < |u| ==> u[k] == 'e' || u[k] == 'E'
    decreases |u|
  {
    if u == [] || u[0] == 'e' || u[0] == 'E' then 0 else 1 + ExponentStart(u[1..])
  }

  /** The exponent after `e`: an optional sign and at least one digit. */
  function Exponent(x: string): (r: Option<int>) {
    var negative := x != [] && x[0] == '-';
    var digits := if x != [] && (x[0] == '-' || x[0] == '+') then x[1..] else x;
    if digits != [] && AllDigits(digits)
    then Some(if negative then -(DigitsValue(digits) as int) else DigitsValue(digits))
    else None
  }

  /** An unsigned decimal literal: `Infinity`, or digits with an optional
      fraction after a point (at least one digit in all) and an optional
      exponent. */
  function UnsignedDecimal(u: string): Num {
    if u == "Infinity" then Infinity(true)
    else
      var k := ExponentStart(u);
      var mantissa := u[..k];
      var whole := DigitPrefix(mantissa);
      var rest := mantissa[|whole|..];
      var fraction := if rest != [] && rest[0] == '.' then rest[1..] else rest;
      var exponent := if k == |u| then Some(0) else Exponent(u[k + 1..]);
      if (rest != [] && rest[0] != '.') || !AllDigits(fraction) || |whole| + |fraction| == 0 || exponent.None?
      then NaN
      else
        Finite(Scale(DecimalValue(whole, fraction), exponent.value))
  }

  function Negate(n: Num): Num {
    match n
    case NaN => NaN
    case Infinity(positive) => Infinity(!positive)
    case Finite(x) => Finite(-x)
  }

  /** The number a string converts to: empty or blank text is 0, a literal
      in the grammar is its value, anything else is NaN. */
  function StringToNumber(s: string): Num {
    var t := TrimEnd(TrimStart(s));
    if t == [] then Finite(0.0)
    else if |t| > 2 && t[0] == '0' && (t[1] == 'x' || t[1] == 'X') then RadixLiteral(t[2..], 16)
    else if |t| > 2 && t[0] == '0' && (t[1] == 'o' || t[1] == 'O') then RadixLiteral(t[2..], 8)
    else if |t| > 2 && t[0] == '0' && (t[1] == 'b' || t[1] == 'B') then RadixLiteral(t[2..], 2)
    else if t[0] == '-' then Negate(UnsignedDecimal(t[1..]))
    else if t[0] == '+' then UnsignedDecimal(t[1..])
    else UnsignedDecimal(t)
  }

  /** The number conversion `Math.max` and `Math.min` apply to their arguments. */
  function ToNumber(v: Value): Num {
    match v
    case Undefined => NaN
    case Null => Finite(0.0)
    case Bool(b) => Finite(if b then 1.0 else 0.0)
    case Number(n) => n
    case Str(s) => StringToNumber(s)
    case Arr(_) => StringToNumber(Join(v, 0))
    case Ref(_) => NaN
  }

  // ---------------------------------------------------------------- reading numbers back

  /** Every character is white space. */
  predicate AllWhiteSpace(w: string) {
    forall i :: 0 <= i < |w| ==> IsWhiteSpace(w[i])
  }

  /** `TrimStart` removes exactly the leading white space: what it keeps is
      the rest of `s`. */
  lemma {:induction false} TrimStartSuffix(s: string)
    ensures TrimStart(s) == s[|s| - |TrimStart(s)|..]
    decreases |s|
  {
    if s != [] && IsWhiteSpace(s[0]) {
      TrimStartSuffix(s[1..]);
      assert s[1..][|s| - 1 - |TrimStart(s)|..] == s[|s| - |TrimStart(s)|..];
    }
  }

  /** `TrimEnd` removes exactly the trailing white space: what it keeps is
      the start of `s`. */
  lemma {:induction false} TrimEndPrefix(s: string)
    ensures TrimEnd(s) == s[..|TrimEnd(s)|]
    decreases |s|
  {
    if s != [] && IsWhiteSpace(s[|s| - 1]) {
      TrimEndPrefix(s[..|s| - 1]);
      assert s[..|s| - 1][..|TrimEnd(s)|] == s[..|TrimEnd(s)|];
    }
  }

  /** White space in front of text that does not start with white space is
      all `TrimStart` removes. */
  lemma {:induction false} TrimStartOf(ws: string, t: string)
    requires AllWhiteSpace(ws)
    requires t == [] || !IsWhiteSpace(t[0])
    ensures TrimStart(ws + t) == t
    decreases |ws|
  {
    if ws == [] {
      assert ws + t == t;
    } else {
      assert (ws + t)[0] == ws[0];
      assert (ws + t)[1..] == ws[1..] + t;
      TrimStartOf(ws[1..], t);
    }
  }

  /** White space after text that does not end with white space is all
      `TrimEnd` removes. */
  lemma {:induction false} TrimEndOf(t: string, ws: string)
    requires AllWhiteSpace(ws)
    requires t == [] || !IsWhiteSpace(t[|t| - 1])
    ensures TrimEnd(t + ws) == t
    decreases |ws|
  {
    if ws == [] {
      assert t + ws == t;
    } else {
      var s := t + ws;
      assert s[|s| - 1] == ws[|ws| - 1];
      assert s[..|s| - 1] == t + ws[..|ws| - 1];
      TrimEndOf(t, ws[..|ws| - 1]);
    }
  }

  /** Decimal digits and points only. */
  predicate DecimalChars(u: string) {
    forall i :: 0 <= i < |u| ==> IsDigit(u[i]) || u[i] == '.'
  }

  /** How `UnsignedDecimal` splits digits, a point and digits: no exponent,
      the whole part is the leading run of digits and the fraction follows
      the point. */
  lemma FractionParts(whole: string, fraction: string)
    requires AllDigits(whole) && AllDigits(fraction)
    ensures var u := whole + ("." + fraction);
      && u != "Infinity" && ExponentStart(u) == |u| && u[..|u|] == u
      && DigitPrefix(u) == whole && u[|whole|..] == "." + fraction
  {
    var point := "." + fraction;
    var u := whole + point;
    assert u[0] != 'I' by {
      if whole != [] { assert u[0] == whole[0]; } else { assert u[0] == point[0]; }
    }
    forall i | 0 <= i < |u|
      ensures u[i] != 'e' && u[i] != 'E'
    {
      if i < |whole| { assert u[i] == whole[i]; }
      else if i > |whole| { assert u[i] == point[i - |whole|] == fraction[i - |whole| - 1]; }
    }
    DigitPrefixOfRun(whole, point);
  }

  /** Digits, then a point, then digits (either run may be empty, not both)
      read as the number they write. */
  lemma UnsignedDecimalOfFraction(whole: string, fraction: string)
    requires AllDigits(whole) && AllDigits(fraction) && |whole| + |fraction| > 0
    ensures UnsignedDecimal(whole + ("." + fraction))
      == Finite(DecimalValue(whole, fraction))
  {
    FractionParts(whole, fraction);
    var point := "." + fraction;
    var u := whole + point;
    var mantissa := u[..ExponentStart(u)];
    assert mantissa == u;
    assert DigitPrefix(mantissa) == whole;
    var rest := mantissa[|whole|..];
    assert rest == point;
    assert rest[0] == '.' && rest[1..] == fraction;
  }

  /** How `UnsignedDecimal` splits a run of digits: no exponent, no point,
      and every character in the whole part. */
  lemma DigitsParts(d: string)
    requires d != [] && AllDigits(d)
    ensures d != "Infinity" && ExponentStart(d) == |d| && d[..|d|] == d
    ensures DigitPrefix(d) == d && d[|d|..] == []
  {
    assert d[0] != 'I';
    forall i | 0 <= i < |d|
      ensures d[i] != 'e' && d[i] != 'E'
    {
      assert IsDigit(d[i]);
    }
    DigitPrefixOfRun(d, []);
    assert d + [] == d;
  }

  /** A run of digits reads as the number it writes. */
  lemma UnsignedDecimalOfDigits(d: string)
    requires d != [] && AllDigits(d)
    ensures UnsignedDecimal(d) == Finite(DigitsValue(d) as real)
  {
    DigitsParts(d);
  }

  /** Leading and trailing white space around text that neither starts nor
      ends with white space is all that trimming removes. */
  lemma TrimBoth(ws1: string, t: string, ws2: string)
    requires AllWhiteSpace(ws1) && AllWhiteSpace(ws2)
    requires t != [] && !IsWhiteSpace(t[0]) && !IsWhiteSpace(t[|t| - 1])
    ensures TrimEnd(TrimStart(ws1 + t + ws2)) == t
  {
    assert ws1 + t + ws2 == ws1 + (t + ws2);
    assert (t + ws2)[0] == t[0];
    TrimStartOf(ws1, t + ws2);
    TrimEndOf(t, ws2);
  }

  /** Text that `Number` reads as an unsigned literal once any sign in front
      of it is removed: it neither starts nor ends with white space, does not
      start with a sign, and has no `0x`, `0o` or `0b` prefix. */
  predicate PlainLiteral(u: string) {
    && u != [] && !IsWhiteSpace(u[0]) && !IsWhiteSpace(u[|u| - 1]) && u[0] != '-' && u[0] != '+'
    && !(|u| > 2 && u[0] == '0' && (u[1] == 'x' || u[1] == 'X' || u[1] == 'o' || u[1] == 'O' || u[1] == 'b' || u[1] == 'B'))
  }

  /** Digits and points make a plain literal. */
  lemma DecimalIsPlain(u: string)
    requires u != [] && DecimalChars(u)
    ensures PlainLiteral(u)
  {
    assert IsDigit(u[0]) || u[0] == '.';
    assert IsDigit(u[|u| - 1]) || u[|u| - 1] == '.';
    if |u| > 2 { assert IsDigit(u[1]) || u[1] == '.'; }
  }

  /** A trimmed text that is a plain literal converts to its unsigned value. */
  lemma UnsignedLiteral(text: string, u: string)
    requires PlainLiteral(u)
    requires TrimEnd(TrimStart(text)) == u
    ensures StringToNumber(text) == UnsignedDecimal(u)
  {
  }

  /** A trimmed text that is a minus sign and more converts to the rest's
      unsigned value negated. */
  lemma MinusLiteral(text: string, u: string)
    requires TrimEnd(TrimStart(text)) == "-" + u
    ensures StringToNumber(text) == Negate(UnsignedDecimal(u))
  {
    var t := "-" + u;
    assert t[0] == '-' && t[1..] == u;
  }

  /** A trimmed text that is a plus sign and more converts to the rest's
      unsigned value. */
  lemma PlusLiteral(text: string, u: string)
    requires TrimEnd(TrimStart(text)) == "+" + u
    ensures StringToNumber(text) == UnsignedDecimal(u)
  {
    var t := "+" + u;
    assert t[0] == '+' && t[1..] == u;
  }

  /** A plain literal with an optional sign and surrounding white space
      converts to the literal's unsigned value, negated after a minus sign. */
  lemma StringToNumberOfSigned(ws1: string, sign: string, u: string, ws2: string)
    requires AllWhiteSpace(ws1) && AllWhiteSpace(ws2)
    requires sign == "" || sign == "-" || sign == "+"
    requires PlainLiteral(u)
    ensures StringToNumber(ws1 + sign + u + ws2)
      == if sign == "-" then Negate(UnsignedDecimal(u)) else UnsignedDecimal(u)
  {
    var t := sign + u;
    assert ws1 + sign + u + ws2 == ws1 + t + ws2;
    assert !IsWhiteSpace(t[0]) by {
      if sign == "" { assert t[0] == u[0]; } else { assert t[0] == sign[0]; }
    }
    assert t[|t| - 1] == u[|u| - 1];
    TrimBoth(ws1, t, ws2);
    if sign == "" {
      assert t == u;
      UnsignedLiteral(ws1 + t + ws2, u);
    } else if sign == "-" {
      MinusLiteral(ws1 + t + ws2, u);
    } else {
      PlusLiteral(ws1 + t + ws2, u);
    }
  }

  /** Text holding a signed run of digits converts to that integer. */
  lemma StringToNumberOfInteger(ws1: string, sign: string, d: string, ws2: string)
    requires AllWhiteSpace(ws1) && AllWhiteSpace(ws2)
    requires sign == "" || sign == "-" || sign == "+"
    requires d != [] && AllDigits(d)
    ensures StringToNumber(ws1 + sign + d + ws2)
      == Finite(if sign == "-" then -(DigitsValue(d) as real) else DigitsValue(d) as real)
  {
    DecimalIsPlain(d);
    StringToNumberOfSigned(ws1, sign, d, ws2);
    UnsignedDecimalOfDigits(d);
  }

  /** Text holding a signed decimal fraction converts to its value. */
  lemma StringToNumberOfFraction(ws1: string, sign: string, whole: string, fraction: string, ws2: string)
    requires AllWhiteSpace(ws1) && AllWhiteSpace(ws2)
    requires sign == "" || sign == "-" || sign == "+"
    requires AllDigits(whole) && AllDigits(fraction) && |whole| + |fraction| > 0
    ensures var m := DecimalValue(whole, fraction);
      StringToNumber(ws1 + sign + (whole + ("." + fraction)) + ws2) == Finite(if sign == "-" then -m else m)
  {
    var point := "." + fraction;
    var u := whole + point;
    forall i | 0 <= i < |u|
      ensures IsDigit(u[i]) || u[i] == '.'
    {
      if i < |whole| { assert u[i] == whole[i]; }
      else if i > |whole| { assert u[i] == point[i - |whole|] == fraction[i - |whole| - 1]; }
    }
    DecimalIsPlain(u);
    StringToNumberOfSigned(ws1, sign, u, ws2);
    UnsignedDecimalOfFraction(whole, fraction);
  }

  /** The text after `e`: an optional sign and digits give the signed
      exponent. */
  lemma ExponentOfSigned(esign: string, x: string)
    requires esign == "" || esign == "-" || esign == "+"
    requires x != [] && AllDigits(x)
    ensures Exponent(esign + x) == Some(if esign == "-" then -(DigitsValue(x) as int) else DigitsValue(x))
  {
    var t := esign + x;
    if esign == "" {
      assert t == x;
      assert IsDigit(t[0]);
    } else {
      assert t[0] == esign[0] && t[1..] == x;
    }
  }

  /** How `UnsignedDecimal` splits digits, `e` and an exponent: the mantissa
      is the digits and the exponent text follows the `e`. */
  lemma ExponentParts(d: string, rest: string)
    requires d != [] && AllDigits(d)
    ensures var u := d + ("e" + rest);
      && u != "Infinity" && ExponentStart(u) == |d| && u[..|d|] == d && u[|d| + 1..] == rest
      && DigitPrefix(d) == d && d[|d|..] == []
  {
    var u := d + ("e" + rest);
    assert u[0] == d[0] && u[0] != 'I';
    forall i | 0 <= i < |d|
      ensures u[i] != 'e' && u[i] != 'E'
    {
      assert u[i] == d[i] && IsDigit(d[i]);
    }
    assert u[|d|] == 'e';
    assert u[|d| + 1..] == rest;
    DigitPrefixOfRun(d, []);
    assert d + [] == d;
  }

  /** Digits, `e`, an optional sign and digits read as the digits' value
      scaled by that power of ten. */
  lemma UnsignedDecimalOfExponent(d: string, esign: string, x: string)
    requires d != [] && AllDigits(d)
    requires esign == "" || esign == "-" || esign == "+"
    requires x != [] && AllDigits(x)
    ensures UnsignedDecimal(d + ("e" + (esign + x)))
      == Finite(Scale(DigitsValue(d) as real, if esign == "-" then -(DigitsValue(x) as int) else DigitsValue(x)))
  {
    ExponentParts(d, esign + x);
    ExponentOfSigned(esign, x);
    assert DecimalValue(d, []) == DigitsValue(d) as real;
  }

  /** Digits, `e` and an exponent ending in a digit make a plain literal. */
  lemma ExponentIsPlain(d: string, rest: string)
    requires d != [] && AllDigits(d)
    requires rest != [] && IsDigit(rest[|rest| - 1])
    ensures PlainLiteral(d + ("e" + rest))
  {
    var u := d + ("e" + rest);
    assert u[0] == d[0] && IsDigit(d[0]);
    assert u[|u| - 1] == rest[|rest| - 1];
    if |d| > 1 { assert u[1] == d[1] && IsDigit(d[1]); } else { assert u[1] == 'e'; }
  }

  /** Text holding a signed number in exponent form, such as `-15e-3`,
      converts to its value. */
  lemma StringToNumberOfExponent(ws1: string, sign: string, d: string, esign: string, x: string, ws2: string)
    requires AllWhiteSpace(ws1) && AllWhiteSpace(ws2)
    requires sign == "" || sign == "-" || sign == "+"
    requires d != [] && AllDigits(d)
    requires esign == "" || esign == "-" || esign == "+"
    requires x != [] && AllDigits(x)
    ensures var m := Scale(DigitsValue(d) as real, if esign == "-" then -(DigitsValue(x) as int) else DigitsValue(x));
      StringToNumber(ws1 + sign + (d + ("e" + (esign + x))) + ws2) == Finite(if sign == "-" then -m else m)
  {
    assert (esign + x)[|esign + x| - 1] == x[|x| - 1];
    ExponentIsPlain(d, esign + x);
    StringToNumberOfSigned(ws1, sign, d + ("e" + (esign + x)), ws2);
    UnsignedDecimalOfExponent(d, esign, x);
    if sign == "-" {
      assert StringToNumber(ws1 + sign + (d + ("e" + (esign + x))) + ws2) == Negate(UnsignedDecimal(d + ("e" + (esign + x))));
    } else {
      assert StringToNumber(ws1 + sign + (d + ("e" + (esign + x))) + ws2) == UnsignedDecimal(d + ("e" + (esign + x)));
    }
  }

  /** `Infinity`, with an optional sign and surrounding white space, is
      infinite with that sign. */
  lemma StringToNumberOfInfinity(ws1: string, sign: string, ws2: string)
    requires AllWhiteSpace(ws1) && AllWhiteSpace(ws2)
    requires sign == "" || sign == "-" || sign == "+"
    ensures StringToNumber(ws1 + sign + "Infinity" + ws2) == Infinity(sign != "-")
  {
    assert PlainLiteral("Infinity");
    StringToNumberOfSigned(ws1, sign, "Infinity", ws2);
  }

  /** Text that starts with neither a digit nor a point and is not
      `Infinity` is no unsigned literal. */
  lemma UnsignedDecimalOfWord(w: string)
    requires w != [] && !IsDigit(w[0]) && w[0] != '.' && w != "Infinity"
    ensures UnsignedDecimal(w).NaN?
  {
    var k := ExponentStart(w);
    var mantissa := w[..k];
    assert DigitPrefix(mantissa) == [] by {
      if mantissa != [] { assert mantissa[0] == w[0]; }
    }
    assert mantissa[0..] == mantissa;
    if mantissa != [] { assert mantissa[0] == w[0]; }
  }

  /** Text whose first character after the white space and the optional sign
      cannot start a literal converts to NaN: `Number("abc")` and
      `Number("-x1")` are NaN. */
  lemma StringToNumberOfWord(ws1: string, sign: string, w: string, ws2: string)
    requires AllWhiteSpace(ws1) && AllWhiteSpace(ws2)
    requires sign == "" || sign == "-" || sign == "+"
    requires PlainLiteral(w) && !IsDigit(w[0]) && w[0] != '.' && w != "Infinity"
    ensures StringToNumber(ws1 + sign + w + ws2).NaN?
  {
    StringToNumberOfSigned(ws1, sign, w, ws2);
    UnsignedDecimalOfWord(w);
  }

  /** A `0x`, `0o` or `0b` prefix and digits, with surrounding white space,
      convert as a literal in that radix. */
  lemma StringToNumberOfRadix(ws1: string, prefix: string, digits: string, ws2: string)
    requires AllWhiteSpace(ws1) && AllWhiteSpace(ws2)
    requires prefix in ["0x", "0X", "0o", "0O", "0b", "0B"]
    requires digits != [] && !IsWhiteSpace(digits[|digits| - 1])
    ensures StringToNumber(ws1 + prefix + digits + ws2)
      == RadixLiteral(digits, if prefix[1] == 'x' || prefix[1] == 'X' then 16 else if prefix[1] == 'o' || prefix[1] == 'O' then 8 else 2)
  {
    var t := prefix + digits;
    assert ws1 + prefix + digits + ws2 == ws1 + t + ws2;
    assert t[0] == '0' && t[1] == prefix[1] && t[2..] == digits;
    assert t[|t| - 1] == digits[|digits| - 1];
    TrimBoth(ws1, t, ws2);
  }

  /** The text of an integer is its digits, after a minus sign when it is
      negative. */
  lemma IntegerText(i: int)
    ensures var m: nat := if i < 0 then -i else i;
      ToStr(Number(Finite(i as real))) == (if i < 0 then "-" else "") + NatText(m)
  {
    var m: nat := if i < 0 then -i else i;
    assert MagnitudeText(m as real) == NatText(m);
  }

  /** `Number(String(i))` is `i` for every integer. */
  lemma IntegerTextRoundTrip(i: int)
    ensures StringToNumber(ToStr(Number(Finite(i as real)))) == Finite(i as real)
  {
    var m: nat := if i < 0 then -i else i;
    var sign := if i < 0 then "-" else "";
    IntegerText(i);
    DigitsValueOfNatText(m);
    assert ToStr(Number(Finite(i as real))) == "" + sign + NatText(m) + "";
    StringToNumberOfInteger("", sign, NatText(m), "");
  }

  // ---------------------------------------------------------------- parseInt, Math

  /** `parseInt(text, 10)`: leading white space skipped, an optional sign,
      then the longest run of decimal digits; NaN when there is no digit. */
  function ParseIntText(text: string): (r: Num)
    ensures r.NaN? || (r.Finite? && r.r == r.r.Floor as real)
  {
    var s := TrimStart(text);
    var negative := s != [] && s[0] == '-';
    var body := if s != [] && (s[0] == '-' || s[0] == '+') then s[1..] else s;
    var digits := DigitPrefix(body);
    if digits == [] then NaN
    else
      var n: int := if negative then -(DigitsValue(digits) as int) else DigitsValue(digits);
      Finite(n as real)
  }

  /** `parseInt(v, 10)`: reads the text of `v` (see `ParseIntText`). The
      text of a finite number is its integer digits followed by nothing or a
      point, so its integer part is read; `NaN`, `Infinity` and the words
      `undefined`, `null`, `true`, `false` and `[object Object]` hold no
      leading digit. `ParseIntReadsText` shows this agrees with reading the
      text. */
  function ParseInt(v: Value): (r: Num)
    ensures r.NaN? || (r.Finite? && r.r == r.r.Floor as real)
  {
    match v
    case Number(n) => if n.Finite? then Finite(Trunc(n.r) as real) else NaN
    case Str(s) => ParseIntText(s)
    case Arr(_) => ParseIntText(Join(v, 0))
    case _ => NaN
  }

  /** The digits `parseInt` reads from the text of a non-negative number
      are the text of its integer part. */
  lemma MagnitudeDigits(m: real)
    requires m >= 0.0
    ensures DigitPrefix(MagnitudeText(m)) == NatText(m.Floor)
  {
    var i := m.Floor;
    var f := m - i as real;
    var rest := if f == 0.0 then "" else "." + FractionText(f, FractionLimit);
    assert MagnitudeText(m) == NatText(i) + rest;
    DigitPrefixOfRun(NatText(i), rest);
  }

  /** `parseInt` reads the integer part back from a finite number's text. */
  lemma ParseIntOfNumberText(x: real)
    ensures ParseIntText(NumberText(x)) == Finite(Trunc(x) as real)
  {
    var m := if x < 0.0 then -x else x;
    MagnitudeDigits(m);
    DigitsValueOfNatText(m.Floor);
    var t := NumberText(x);
    assert TrimStart(t) == t;
    if x < 0.0 {
      assert t[1..] == MagnitudeText(m);
    }
  }

  /** Text that starts with a character other than white space, a sign or
      a digit holds no number for `parseInt`. */
  lemma ParseIntOfWord(s: string)
    requires s != [] && !IsDigit(s[0]) && !IsWhiteSpace(s[0]) && s[0] != '-' && s[0] != '+'
    ensures ParseIntText(s).NaN?
  {
    assert TrimStart(s) == s;
  }

  /** After the white space, `parseInt` finds the sign and then the run of
      digits and what follows it. */
  lemma SignedDigitsParts(ws: string, sign: string, d: string, rest: string)
    requires AllWhiteSpace(ws)
    requires sign == "" || sign == "-" || sign == "+"
    requires d != [] && AllDigits(d)
    ensures var s := TrimStart(ws + sign + d + rest);
      && s != [] && (s[0] == '-' <==> sign == "-")
      && (if s[0] == '-' || s[0] == '+' then s[1..] else s) == d + rest
  {
    var t := sign + (d + rest);
    assert ws + sign + d + rest == ws + t;
    if sign == "" {
      assert t == d + rest;
      assert t[0] == d[0];
    } else {
      assert t[0] == sign[0];
      assert t[1..] == d + rest;
    }
    TrimStartOf(ws, t);
  }

  /** White space, an optional sign, then a run of digits: `parseInt` reads
      the run, negated after a minus sign, and ignores what follows. */
  lemma ParseIntOfSigned(ws: string, sign: string, d: string, rest: string)
    requires AllWhiteSpace(ws)
    requires sign == "" || sign == "-" || sign == "+"
    requires d != [] && AllDigits(d)
    requires rest == [] || !IsDigit(rest[0])
    ensures ParseIntText(ws + sign + d + rest)
      == Finite(if sign == "-" then -(DigitsValue(d) as real) else DigitsValue(d) as real)
  {
    SignedDigitsParts(ws, sign, d, rest);
    DigitPrefixOfRun(d, rest);
  }

  /** When no digit follows the white space and the optional sign,
      `parseInt` reads nothing. */
  lemma ParseIntOfNoDigits(ws: string, sign: string, rest: string)
    requires AllWhiteSpace(ws)
    requires sign == "" || sign == "-" || sign == "+"
    requires rest == [] || !IsDigit(rest[0])
    requires sign == "" ==> rest == [] || (!IsWhiteSpace(rest[0]) && rest[0] != '-' && rest[0] != '+')
    ensures ParseIntText(ws + sign + rest).NaN?
  {
    var t := sign + rest;
    assert ws + sign + rest == ws + t;
    assert t == [] || !IsWhiteSpace(t[0]) by {
      if sign == "" { assert t == rest; }
    }
    TrimStartOf(ws, t);
    if sign != "" {
      assert t[1..] == rest;
    }
  }

  /** `ParseInt` is `parseInt(String(v), 10)` for every value. */
  lemma ParseIntReadsText(v: Value)
    ensures ParseInt(v) == ParseIntText(ToStr(v))
  {
    match v
    case Number(n) =>
      match n {
        case Finite(x) => ParseIntOfNumberText(x);
        case NaN => ParseIntOfWord("NaN");
        case Infinity(positive) =>
          ParseIntOfWord("Infinity");
          if !positive {
            var t := "-Infinity";
            assert TrimStart(t) == t;
            assert t[1..] == "Infinity";
          }
      }
    case Undefined => ParseIntOfWord("undefined");
    case Null => ParseIntOfWord("null");
    case Bool(b) => ParseIntOfWord(if b then "true" else "false");
    case Ref(_) => ParseIntOfWord("[object Object]");
    case Str(_) =>
    case Arr(_) =>
  }

  /** `a <= b` on numbers other than NaN. */
  predicate AtMost(a: Num, b: Num) {
    || (a.Infinity? && !a.positive)
    || (b.Infinity? && b.positive)
    || (a.Finite? && b.Finite? && a.r <= b.r)
  }

  /** `Math.max` of two numbers: NaN if either is, else the larger. */
  function MathMax(a: Num, b: Num): (r: Num)
    ensures r.NaN? <==> a.NaN? || b.NaN?
    ensures !r.NaN? ==> (r == a || r == b) && AtMost(a, r) && AtMost(b, r)
  {
    if a.NaN? || b.NaN? then NaN else if AtMost(a, b) then b else a
  }

  /** `Math.min` of two numbers: NaN if either is, else the smaller. */
  function MathMin(a: Num, b: Num): (r: Num)
    ensures r.NaN? <==> a.NaN? || b.NaN?
    ensures !r.NaN? ==> (r == a || r == b) && AtMost(r, a) && AtMost(r, b)
  {
    if a.NaN? || b.NaN? then NaN else if AtMost(a, b) then a else b
  }

  // ---------------------------------------------------------------- objects

  /** `obj[key]` on a plain object's own properties: undefined when missing. */
  function Property(props: map<string, Value>, key: string): Value {
    if key in props then props[key] else Undefined
  }

  /** A plain JavaScript object whose properties are written in place. */
  class JsObject {
    var props: map<string, Value>

    /** `{}` */
    constructor ()
      ensures props == map[]
    {
      props := map[];
    }

    /** `Object.assign(this, source)`: every property of `source` is written
        onto this object, overwriting one of the same name; the others stay. */
    method Assign(source: map<string, Value>)
      modifies this
      ensures props == old(props) + source
      ensures props.Keys == old(props).Keys + source.Keys
      ensures forall k :: k in source ==> props[k] == source[k]
      ensures forall k :: k in old(props) && k !in source ==> props[k] == old(props)[k]
    {
      props := props + source;
    }
  }
}
