/** The two JavaScript number conversions the vibe step relies on: `parseInt` of
    the age text (ECMAScript `parseInt`, section 19.2.5 of ECMA-262, with no radix
    argument) and the decimal text a safe integer renders as. */
module JsNumber {
  import opened Wrappers

  /** StrWhiteSpaceChar: the white space and line terminators `parseInt` skips. */
  predicate IsStrWhiteSpace(c: char)
  {
    || c == '\t' || c == '\U{000B}' || c == '\U{000C}' || c == ' '
    || c == '\U{00A0}' || c == '\U{FEFF}' || c == '\U{1680}'
    || ('\U{2000}' <= c <= '\U{200A}')
    || c == '\U{202F}' || c == '\U{205F}' || c == '\U{3000}'
    || c == '\n' || c == '\r' || c == '\U{2028}' || c == '\U{2029}'
  }

  /** The text with its leading white space removed. */
  function TrimStart(s: string): (t: string)
    ensures |t| <= |s|
    ensures t == [] || !IsStrWhiteSpace(t[0])
    decreases |s|
  {
    if s != [] && IsStrWhiteSpace(s[0]) then TrimStart(s[1..]) else s
  }

  /** The value of a digit character in radix 36 (`0-9`, then `a-z` / `A-Z`). */
  function DigitValue(c: char): (d: Option<nat>)
    ensures d.Some? ==> d.value < 36
    ensures d.Some? && d.value < 10 <==> '0' <= c <= '9'
  {
    if '0' <= c <= '9' then Some(c as int - '0' as int)
    else if 'a' <= c <= 'z' then Some(c as int - 'a' as int + 10)
    else if 'A' <= c <= 'Z' then Some(c as int - 'A' as int + 10)
    else None
  }

  /** The two radices `parseInt` uses when it is given none. */
  datatype Radix = Decimal | Hexadecimal {
    function Base(): nat
    {
      match this
      case Decimal => 10
      case Hexadecimal => 16
    }

    /** `x * Base()`, written per case so that it stays linear. */
    function Shift(x: nat): nat
    {
      match this
      case Decimal => x * 10
      case Hexadecimal => x * 16
    }
  }

  predicate IsDigit(c: char, radix: Radix)
  {
    DigitValue(c).Some? && DigitValue(c).value < radix.Base()
  }

  /** The length of the longest prefix of `s` made of radix digits. */
  function DigitRun(s: string, radix: Radix): (n: nat)
    ensures n <= |s|
    decreases |s|
  {
    if s != [] && IsDigit(s[0], radix) then 1 + DigitRun(s[1..], radix) else 0
  }

  /** The number a string of radix digits denotes, most significant digit
      first; it is only ever applied to a run of digits. */
  function DigitsValue(z: string, radix: Radix): nat
    decreases |z|
  {
    if z == [] then 0
    else radix.Shift(DigitsValue(z[..|z| - 1], radix)) + DigitValue(z[|z| - 1]).GetOr(0)
  }

  /** A leading `-` or `+` is removed; only `-` makes the result negative. */
  function StripSign(t: string): (r: (bool, string))
    ensures r.0 <==> t != [] && t[0] == '-'
    ensures t != [] && (t[0] == '-' || t[0] == '+') ==> r.1 == t[1..]
    ensures t == [] || (t[0] != '-' && t[0] != '+') ==> r.1 == t
  {
    if t != [] && (t[0] == '-' || t[0] == '+') then (t[0] == '-', t[1..]) else (false, t)
  }

  /** With no radix argument, a leading `0x` or `0X` selects radix 16, and
      anything else radix 10. */
  function StripRadixPrefix(u: string): (r: (Radix, string))
    ensures r.0 == Hexadecimal <==> |u| >= 2 && u[0] == '0' && (u[1] == 'x' || u[1] == 'X')
    ensures r.0 == Hexadecimal ==> r.1 == u[2..]
    ensures r.0 == Decimal ==> r.1 == u
  {
    if |u| >= 2 && u[0] == '0' && (u[1] == 'x' || u[1] == 'X') then (Hexadecimal, u[2..]) else (Decimal, u)
  }

  /** The number denoted by the leading radix digits of `w`, or `None` when
      `w` does not start with one. */
  function LeadingDigits(w: string, radix: Radix): Option<nat>
  {
    var n := DigitRun(w, radix);
    if n == 0 then None else Some(DigitsValue(w[..n], radix))
  }

  /** `parseInt(s)`: `None` stands for NaN, and `-0` is folded into `0`. */
  function ParseInt(s: string): Option<int>
  {
    ParseTrimmed(TrimStart(s))
  }

  /** `parseInt` once leading white space is gone: sign, radix prefix, digits. */
  function ParseTrimmed(t: string): Option<int>
  {
    var signed := StripSign(t);
    var prefixed := StripRadixPrefix(signed.1);
    var magnitude := LeadingDigits(prefixed.1, prefixed.0);
    if magnitude.None? then None
    else if signed.0 then Some(0 - magnitude.value)
    else Some(magnitude.value)
  }

  function DigitChar(d: nat): (c: char)
    requires d < 10
    ensures IsDigit(c, Decimal) && DigitValue(c) == Some(d)
  {
    ('0' as int + d) as char
  }

  /** The decimal text of a natural number, without leading zeros. */
  function NatToDecimal(n: nat): string
    decreases n
  {
    if n < 10 then [DigitChar(n)] else NatToDecimal(n / 10) + [DigitChar(n % 10)]
  }

  /** `String(i)` for an integer-valued number. */
  function IntToDecimal(i: int): string
  {
    if i < 0 then "-" + NatToDecimal(-i) else NatToDecimal(i)
  }

  /** The decimal text of `n` is a non-empty run of digits that denotes `n`,
      and it starts with `0` only for `n == 0`. */
  lemma {:induction false} NatToDecimalDenotes(n: nat)
    ensures var s := NatToDecimal(n);
            && |s| > 0
            && (forall i :: 0 <= i < |s| ==> IsDigit(s[i], Decimal))
            && DigitsValue(s, Decimal) == n
            && (s[0] == '0' ==> n == 0)
    decreases n
  {
    if n >= 10 {
      NatToDecimalDenotes(n / 10);
      var p := NatToDecimal(n / 10);
      var s := NatToDecimal(n);
      assert s == p + [DigitChar(n % 10)];
      assert s[..|s| - 1] == p;
      assert s[0] == p[0];
    }
  }

  /** The digit run of `z + suffix` stops exactly at the end of `z` when
      `suffix` does not start with a digit. */
  lemma {:induction false} DigitRunStopsAtSuffix(z: string, suffix: string, radix: Radix)
    requires forall i :: 0 <= i < |z| ==> IsDigit(z[i], radix)
    requires suffix == [] || !IsDigit(suffix[0], radix)
    ensures DigitRun(z + suffix, radix) == |z|
    decreases |z|
  {
    if z != [] {
      assert (z + suffix)[1..] == z[1..] + suffix;
      DigitRunStopsAtSuffix(z[1..], suffix, radix);
    } else {
      assert z + suffix == suffix;
    }
  }

  /** Reading digits from `z + suffix` yields exactly the number `z` denotes. */
  lemma LeadingDigitsOf(z: string, suffix: string, radix: Radix)
    requires z != [] && forall i :: 0 <= i < |z| ==> IsDigit(z[i], radix)
    requires suffix == [] || !IsDigit(suffix[0], radix)
    ensures LeadingDigits(z + suffix, radix) == Some(DigitsValue(z, radix))
  {
    DigitRunStopsAtSuffix(z, suffix, radix);
    assert (z + suffix)[..|z|] == z;
  }

  /** Unsigned decimal digits followed by non-digit text are read in radix 10,
      unless they are a lone `0` that opens a `0x` prefix. */
  lemma ParseTrimmedUnsigned(z: string, suffix: string)
    requires z != [] && forall i :: 0 <= i < |z| ==> IsDigit(z[i], Decimal)
    requires suffix == [] || !IsDigit(suffix[0], Decimal)
    requires z[0] != '0' || |z| >= 2 || suffix == [] || (suffix[0] != 'x' && suffix[0] != 'X')
    ensures ParseTrimmed(z + suffix) == Some(DigitsValue(z, Decimal))
  {
    var u := z + suffix;
    assert u[0] == z[0];
    assert |z| >= 2 ==> u[1] == z[1];
    assert StripSign(u).1 == u;
    assert StripRadixPrefix(u) == (Decimal, u);
    LeadingDigitsOf(z, suffix, Decimal);
  }

  /** A leading `-` negates what the rest of the text reads as. */
  lemma ParseTrimmedMinus(u: string, v: nat)
    requires u != [] && u[0] != '-' && u[0] != '+'
    requires ParseTrimmed(u) == Some(v)
    ensures ParseTrimmed(['-'] + u) == Some(0 - v)
  {
    assert (['-'] + u)[1..] == u;
    assert StripSign(['-'] + u) == (true, u);
    assert StripSign(u) == (false, u);
  }

  /** Text that starts with a digit or a `-` has no blank to skip. */
  lemma NothingToTrim(u: string)
    requires u != [] && (IsDigit(u[0], Decimal) || u[0] == '-')
    ensures ParseInt(u) == ParseTrimmed(u)
  {
    assert TrimStart(u) == u;
  }

  /** A `-` in front of text that starts with a digit negates what `parseInt` reads. */
  lemma ParseIntNegated(u: string, v: nat)
    requires u != [] && IsDigit(u[0], Decimal)
    requires ParseTrimmed(u) == Some(v)
    ensures ParseInt(['-'] + u) == Some(0 - v)
  {
    ParseTrimmedMinus(u, v);
    NothingToTrim(['-'] + u);
  }

  /** `parseInt` reads back a run of decimal digits followed by non-digit text. */
  lemma ParseIntReadsDigits(d: string, suffix: string)
    requires d != [] && forall i :: 0 <= i < |d| ==> IsDigit(d[i], Decimal)
    requires suffix == [] || !IsDigit(suffix[0], Decimal)
    requires d[0] != '0' || |d| >= 2 || suffix == [] || (suffix[0] != 'x' && suffix[0] != 'X')
    ensures ParseInt(d + suffix) == Some(DigitsValue(d, Decimal))
  {
    ParseTrimmedUnsigned(d, suffix);
    assert (d + suffix)[0] == d[0];
    NothingToTrim(d + suffix);
  }

  /** The decimal text of a negative integer is `-` and the text of its magnitude. */
  lemma NegativeDecimal(n: int, suffix: string)
    requires n < 0
    ensures IntToDecimal(n) + suffix == ['-'] + (NatToDecimal(-n) + suffix)
  {
    assert IntToDecimal(n) == ['-'] + NatToDecimal(-n);
  }

  /** `parseInt` reads the decimal text of `m`, followed by non-digit text,
      as `m`. */
  lemma ParseIntReadsNat(m: nat, suffix: string)
    requires suffix == [] || !IsDigit(suffix[0], Decimal)
    requires m == 0 ==> suffix == [] || (suffix[0] != 'x' && suffix[0] != 'X')
    ensures var z := NatToDecimal(m) + suffix;
      z != [] && IsDigit(z[0], Decimal) && ParseTrimmed(z) == Some(m)
  {
    NatToDecimalDenotes(m);
    ParseTrimmedUnsigned(NatToDecimal(m), suffix);
  }

  /** `parseInt` reads back the decimal text of any integer, whatever non-digit
      text follows it (`"29"`, `"29 years"`, `"1.5"`, `"1e5"`), except that `"0"`
      followed by `x` opens a hexadecimal literal. */
  lemma ParseIntReadsDecimal(n: int, suffix: string)
    requires suffix == [] || !IsDigit(suffix[0], Decimal)
    requires n == 0 ==> suffix == [] || (suffix[0] != 'x' && suffix[0] != 'X')
    ensures ParseInt(IntToDecimal(n) + suffix) == Some(n)
  {
    if n < 0 {
      ParseIntReadsNegative(-n, suffix);
    } else {
      ParseIntReadsNonNegative(n, suffix);
    }
  }

  /** The negative half of `ParseIntReadsDecimal`. */
  lemma ParseIntReadsNegative(m: nat, suffix: string)
    requires m > 0 && (suffix == [] || !IsDigit(suffix[0], Decimal))
    ensures ParseInt(IntToDecimal(0 - m) + suffix) == Some(0 - m)
  {
    ParseIntReadsNat(m, suffix);
    NegativeDecimal(0 - m, suffix);
    ParseIntNegated(NatToDecimal(m) + suffix, m);
  }

  /** The non-negative half of `ParseIntReadsDecimal`. */
  lemma ParseIntReadsNonNegative(m: nat, suffix: string)
    requires suffix == [] || !IsDigit(suffix[0], Decimal)
    requires m == 0 ==> suffix == [] || (suffix[0] != 'x' && suffix[0] != 'X')
    ensures ParseInt(IntToDecimal(m) + suffix) == Some(m)
  {
    ParseIntReadsNat(m, suffix);
    NothingToTrim(NatToDecimal(m) + suffix);
    assert IntToDecimal(m) == NatToDecimal(m);
  }

  /** `parseInt(String(n)) == n` for every integer `n`. */
  lemma ParseIntReadsInt(n: int)
    ensures ParseInt(IntToDecimal(n)) == Some(n)
  {
    ParseIntReadsDecimal(n, []);
    assert IntToDecimal(n) + [] == IntToDecimal(n);
  }

  /** Text whose first non-blank character is neither a digit nor a sign has no
      number in it: `parseInt` yields NaN. */
  lemma ParseIntNoDigits(s: string)
    requires var t := TrimStart(s); t == [] || (!IsDigit(t[0], Decimal) && t[0] != '-' && t[0] != '+')
    ensures ParseInt(s).None?
  {
  }

  /** Trimming removes exactly a prefix of white space: what is left is a
      suffix of the text, and everything before it is blank. */
  lemma {:induction false} TrimStartDropsBlankPrefix(s: string)
    ensures var t := TrimStart(s);
            && t == s[|s| - |t|..]
            && forall i :: 0 <= i < |s| - |t| ==> IsStrWhiteSpace(s[i])
    decreases |s|
  {
    if s != [] && IsStrWhiteSpace(s[0]) {
      TrimStartDropsBlankPrefix(s[1..]);
      var t := TrimStart(s);
      assert s[1..][|s| - 1 - |t|..] == s[|s| - |t|..];
      forall i | 0 <= i < |s| - |t|
        ensures IsStrWhiteSpace(s[i])
      {
        if i > 0 {
          assert s[i] == s[1..][i - 1];
        }
      }
    }
  }

  /** Leading white space is dropped by the trimming step. */
  lemma {:induction false} TrimStartSkips(blank: string, s: string)
    requires forall i :: 0 <= i < |blank| ==> IsStrWhiteSpace(blank[i])
    ensures TrimStart(blank + s) == TrimStart(s)
    decreases |blank|
  {
    if blank != [] {
      assert (blank + s)[1..] == blank[1..] + s;
      TrimStartSkips(blank[1..], s);
    } else {
      assert blank + s == s;
    }
  }

  /** Leading white space never changes what `parseInt` reads. */
  lemma ParseIntSkipsWhiteSpace(blank: string, s: string)
    requires forall i :: 0 <= i < |blank| ==> IsStrWhiteSpace(blank[i])
    ensures ParseInt(blank + s) == ParseInt(s)
  {
    TrimStartSkips(blank, s);
  }
}
