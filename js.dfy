/**
 * The pieces of JavaScript's runtime behaviour that the API's decision logic
 * leans on: optional values, numbers that may be NaN, the decimal text of an
 * integer (template literals such as `${code}`), `parseInt`, and
 * `split(",").join(" ")`.
 */
module Js {

  datatype Option<+T> = None | Some(value: T)

  /** A JavaScript number restricted to the integers, plus NaN. */
  datatype JsNum = Num(n: int) | NaN

  function Mul(a: JsNum, b: JsNum): (r: JsNum)
    ensures r.Num? <==> a.Num? && b.Num?
  {
    if a.Num? && b.Num? then Num(a.n * b.n) else NaN
  }

  function Sub(a: JsNum, b: JsNum): (r: JsNum)
    ensures r.Num? <==> a.Num? && b.Num?
  {
    if a.Num? && b.Num? then Num(a.n - b.n) else NaN
  }

  // ---------------------------------------------------------------------
  // Decimal text of an integer
  // ---------------------------------------------------------------------

  function DigitChar(d: nat): char
    requires d < 10
  {
    "0123456789"[d]
  }

  predicate IsDecimalDigit(c: char) { '0' <= c <= '9' }

  function Pow10(k: nat): (p: nat)
    ensures p >= 1
  {
    if k == 0 then 1 else 10 * Pow10(k - 1)
  }

  /** The digits of a natural number, most significant first, without leading zeros. */
  function Digits(n: nat): (s: string)
    ensures |s| >= 1
    decreases n
  {
    if n < 10 then [DigitChar(n)] else Digits(n / 10) + [DigitChar(n % 10)]
  }

  /** The text JavaScript gives an integer in a template literal or `String(n)`. */
  function DecimalText(n: int): (s: string)
    ensures |s| >= 1
  {
    if n < 0 then "-" + Digits(-n) else Digits(n)
  }

  lemma {:induction false} DigitsAreDecimal(n: nat)
    ensures forall i :: 0 <= i < |Digits(n)| ==> IsDecimalDigit(Digits(n)[i])
    decreases n
  {
    if n >= 10 {
      DigitsAreDecimal(n / 10);
    }
  }

  /** The most significant decimal digit of n. */
  function LeadDigit(n: nat): (d: nat)
    ensures d < 10
    ensures n > 0 ==> d > 0
  {
    if n < 10 then n else LeadDigit(n / 10)
  }

  /** The text of a natural number starts with its leading digit. */
  lemma {:induction false} DigitsStartWithLeadDigit(n: nat)
    ensures Digits(n)[0] == DigitChar(LeadDigit(n))
    decreases n
  {
    if n >= 10 {
      DigitsStartWithLeadDigit(n / 10);
    }
  }

  /** For a number of k + 1 digits, the leading digit is 4 exactly when the
      number lies in [4 * 10^k, 5 * 10^k). */
  lemma {:induction false} LeadDigitFour(n: nat, k: nat)
    requires Pow10(k) <= n < 10 * Pow10(k)
    ensures LeadDigit(n) == 4 <==> 4 * Pow10(k) <= n < 5 * Pow10(k)
    decreases k
  {
    if k > 0 {
      var p := Pow10(k - 1);
      assert Pow10(k) == 10 * p;
      assert n == 10 * (n / 10) + n % 10;
      LeadDigitFour(n / 10, k - 1);
    }
  }

  // ---------------------------------------------------------------------
  // parseInt(string) with no radix argument
  // ---------------------------------------------------------------------

  /** StrWhiteSpaceChar: the white space and line terminators `parseInt` skips. */
  predicate IsJsWhiteSpace(c: char)
  {
    c == '\t' || c == '\n' || c == '\U{B}' || c == '\U{C}' || c == '\r' || c == ' '
    || c == '\U{A0}' || c == '\U{1680}' || ('\U{2000}' <= c <= '\U{200A}')
    || c == '\U{2028}' || c == '\U{2029}' || c == '\U{202F}' || c == '\U{205F}'
    || c == '\U{3000}' || c == '\U{FEFF}'
  }

  function TrimStart(s: string): (t: string)
    ensures |t| <= |s| && t == s[|s| - |t|..]
    ensures t == [] || !IsJsWhiteSpace(t[0])
  {
    if s != [] && IsJsWhiteSpace(s[0]) then TrimStart(s[1..]) else s
  }

  function DigitValue(c: char): (v: nat)
  {
    if '0' <= c <= '9' then c as nat - '0' as nat
    else if 'a' <= c <= 'z' then c as nat - 'a' as nat + 10
    else if 'A' <= c <= 'Z' then c as nat - 'A' as nat + 10
    else 36
  }

  predicate IsRadixDigit(c: char, radix: nat) { DigitValue(c) < radix }

  /** The longest prefix of s made of digits of the given radix. */
  function DigitPrefix(s: string, radix: nat): (z: string)
    ensures |z| <= |s| && z == s[..|z|]
    ensures forall i :: 0 <= i < |z| ==> IsRadixDigit(z[i], radix)
    ensures |z| < |s| ==> !IsRadixDigit(s[|z|], radix)
  {
    if s != [] && IsRadixDigit(s[0], radix) then [s[0]] + DigitPrefix(s[1..], radix) else []
  }

  /** The value of a digit string, most significant digit first. */
  function DigitsValue(z: string, radix: nat): nat
  {
    if z == [] then 0
    else DigitsValue(z[..|z| - 1], radix) * radix + (if DigitValue(z[|z| - 1]) < radix then DigitValue(z[|z| - 1]) else 0)
  }

  /** `parseInt(s)`: optional white space, an optional sign, an optional `0x`
      prefix that switches to radix 16, then the longest run of digits;
      NaN when that run is empty. Anything after the digits is ignored. */
  function ParseInt(s: string): JsNum
  {
    var t := TrimStart(s);
    if t != [] && t[0] == '-' then Negate(ParseUnsigned(t[1..]))
    else if t != [] && t[0] == '+' then ParseUnsigned(t[1..])
    else ParseUnsigned(t)
  }

  function Negate(x: JsNum): JsNum
  {
    if x.Num? then Num(-x.n) else NaN
  }

  /** The digits after the sign, in radix 16 behind `0x` or `0X`, else in radix 10. */
  function ParseUnsigned(u: string): JsNum
  {
    var hex := |u| >= 2 && u[0] == '0' && (u[1] == 'x' || u[1] == 'X');
    var radix := if hex then 16 else 10;
    var z := DigitPrefix(if hex then u[2..] else u, radix);
    if z == [] then NaN else Num(DigitsValue(z, radix))
  }

  lemma {:induction false} DigitsValueOfDigits(n: nat)
    ensures DigitsValue(Digits(n), 10) == n
    decreases n
  {
    if n < 10 {
      assert Digits(n) == [DigitChar(n)];
      assert Digits(n)[..0] == [];
    } else {
      DigitsValueOfDigits(n / 10);
      var s := Digits(n);
      assert s[..|s| - 1] == Digits(n / 10);
    }
  }

  lemma {:induction false} DigitPrefixOfDigits(s: string)
    requires forall i :: 0 <= i < |s| ==> IsDecimalDigit(s[i])
    ensures DigitPrefix(s, 10) == s
  {
    if s != [] {
      DigitPrefixOfDigits(s[1..]);
    }
  }

  /** `parseInt` reads back the decimal text of every integer. */
  lemma ParseIntDecimalText(n: int)
    ensures ParseInt(DecimalText(n)) == Num(n)
  {
    var m: nat := if n < 0 then -n else n;
    var d := Digits(m);
    UnsignedDigitsParse(m);
    assert ParseUnsigned(d) == Num(m);
    if n < 0 {
      var t := "-" + d;
      assert t[0] == '-' && t[1..] == d;
      assert TrimStart(t) == t by {
        assert !IsJsWhiteSpace('-');
      }
    } else {
      assert d[0] != '-' && d[0] != '+';
      assert TrimStart(d) == d;
    }
  }

  /** The digits of a natural number: no white space or sign in front, no `0x`
      prefix, and all of them are read as one decimal digit run. */
  lemma UnsignedDigitsParse(m: nat)
    ensures !IsJsWhiteSpace(Digits(m)[0]) && Digits(m)[0] != '-' && Digits(m)[0] != '+'
    ensures !(|Digits(m)| >= 2 && Digits(m)[0] == '0')
    ensures DigitPrefix(Digits(m), 10) == Digits(m)
    ensures DigitsValue(Digits(m), 10) == m
  {
    var d := Digits(m);
    DigitsAreDecimal(m);
    DigitPrefixOfDigits(d);
    DigitsValueOfDigits(m);
    DigitsStartWithLeadDigit(m);
    assert IsDecimalDigit(d[0]);
    if m < 10 {
      assert |d| == 1;
    }
  }

  // ---------------------------------------------------------------------
  // split(",").join(" ")
  // ---------------------------------------------------------------------

  /** `s.split(sep)` for a one-character separator: never empty; "" gives [""]. */
  function Split(s: string, sep: char): (parts: seq<string>)
    ensures |parts| >= 1
  {
    if s == [] then [""]
    else if s[0] == sep then [""] + Split(s[1..], sep)
    else var rest := Split(s[1..], sep); [[s[0]] + rest[0]] + rest[1..]
  }

  /** `parts.join(sep)`. */
  function Join(parts: seq<string>, sep: string): string
  {
    if parts == [] then ""
    else if |parts| == 1 then parts[0]
    else parts[0] + sep + Join(parts[1..], sep)
  }

  /** Every occurrence of `from` replaced by `to`. */
  function ReplaceChar(s: string, from: char, to: char): (r: string)
    ensures |r| == |s|
    ensures forall i :: 0 <= i < |s| ==> r[i] == if s[i] == from then to else s[i]
  {
    if s == [] then [] else [if s[0] == from then to else s[0]] + ReplaceChar(s[1..], from, to)
  }

  lemma ReplaceCharAbsent(s: string, from: char, to: char)
    requires from !in s
    ensures ReplaceChar(s, from, to) == s
  {
    assert forall i :: 0 <= i < |s| ==> ReplaceChar(s, from, to)[i] == s[i];
  }

  lemma ReplaceCharConcat(a: string, b: string, from: char, to: char)
    ensures ReplaceChar(a + b, from, to) == ReplaceChar(a, from, to) + ReplaceChar(b, from, to)
  {
    var l, r := ReplaceChar(a + b, from, to), ReplaceChar(a, from, to) + ReplaceChar(b, from, to);
    assert forall i :: 0 <= i < |a + b| ==> l[i] == r[i];
  }

  /** Splitting at a character and joining with another replaces the one by the other. */
  lemma {:induction false} JoinSplit(s: string, from: char, to: char)
    ensures Join(Split(s, from), [to]) == ReplaceChar(s, from, to)
  {
    if s != [] {
      JoinSplit(s[1..], from, to);
      var rest := Split(s[1..], from);
      if s[0] == from {
        assert Split(s, from)[1..] == rest;
      } else if |rest| > 1 {
        assert Join(rest, [to]) == rest[0] + [to] + Join(rest[1..], [to]);
        assert Split(s, from)[1..] == rest[1..];
      }
    }
  }
}
