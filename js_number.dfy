/**
 * The two number/string conversions the code depends on: the global
 * `parseInt(string)` with no radix argument (section 19.2.5 of ECMA-262),
 * and the decimal rendering of an integral Number by template literals.
 */
module JsNumber {
  import opened Wrappers
  import opened JsText

  /** Value of `c` as a hexadecimal digit, or -1 when it is not one. Radix 10 and
      radix 16 are the only radixes `parseInt` chooses when it is given none. */
  function DigitValue(c: char): (d: int)
    ensures -1 <= d < 16
    ensures '0' <= c <= '9' ==> d == c as int - '0' as int
  {
    if '0' <= c <= '9' then c as int - '0' as int
    else if 'a' <= c <= 'f' then c as int - 'a' as int + 10
    else if 'A' <= c <= 'F' then c as int - 'A' as int + 10
    else -1
  }

  predicate IsDigitIn(c: char, radix: nat) {
    0 <= DigitValue(c) < radix
  }

  predicate AllDigitsIn(z: string, radix: nat) {
    forall i :: 0 <= i < |z| ==> IsDigitIn(z[i], radix)
  }

  /** The longest prefix of `s` made of radix digits. */
  function DigitPrefix(s: string, radix: nat): (z: string)
    ensures |z| <= |s| && z == s[..|z|]
    ensures AllDigitsIn(z, radix)
    ensures |z| < |s| ==> !IsDigitIn(s[|z|], radix)
  {
    if |s| > 0 && IsDigitIn(s[0], radix) then [s[0]] + DigitPrefix(s[1..], radix) else []
  }

  /** The mathematical value of a digit string, most significant digit first. */
  function DigitsValue(z: string, radix: nat): nat
    requires AllDigitsIn(z, radix)
  {
    if z == [] then 0
    else DigitsValue(z[..|z| - 1], radix) * radix + DigitValue(z[|z| - 1])
  }

  predicate HasHexPrefix(u: string) {
    |u| >= 2 && u[0] == '0' && (u[1] == 'x' || u[1] == 'X')
  }

  /** `parseInt(s)`: skip leading white space, take an optional sign, switch to
      radix 16 after a `0x` or `0X` prefix, and read the longest run of digits
      that follows. None stands for NaN (no digit at all). The value is the exact
      integer; the Number JavaScript computes can round a very long digit run,
      but never changes its sign, so every comparison with 0 agrees. */
  function ParseInt(s: string): (r: Option<int>)
    ensures r.Some? ==> StartsNumber(TrimStart(s))
    ensures r.Some? && r.value < 0 ==> TrimStart(s)[0] == '-'
  {
    ParseSigned(TrimStart(s))
  }

  /** A decimal digit follows an optional sign at the start of `t`: the only
      texts `parseInt` reads a number from once white space is skipped. */
  predicate StartsNumber(t: string) {
    || (|t| > 0 && IsDigitIn(t[0], 10))
    || (|t| > 1 && (t[0] == '+' || t[0] == '-') && IsDigitIn(t[1], 10))
  }

  /** `parseInt` once leading white space is gone: an optional sign, then the
      magnitude. */
  function ParseSigned(t: string): (r: Option<int>)
    ensures r.Some? ==> StartsNumber(t)
    ensures r.Some? && r.value < 0 ==> t[0] == '-'
  {
    if |t| > 0 && (t[0] == '+' || t[0] == '-') then
      match ParseMagnitude(t[1..])
      case None => None
      case Some(m) => Some(if t[0] == '-' then -(m as int) else m as int)
    else
      match ParseMagnitude(t)
      case None => None
      case Some(m) => Some(m)
  }

  /** The unsigned part: hexadecimal after a `0x`/`0X` prefix, decimal otherwise;
      None when no digit follows. */
  function ParseMagnitude(u: string): (r: Option<nat>)
    ensures r.Some? ==> |u| > 0 && IsDigitIn(u[0], 10)
  {
    var radix := if HasHexPrefix(u) then 16 else 10;
    var z := DigitPrefix(if HasHexPrefix(u) then u[2..] else u, radix);
    if z == [] then None else Some(DigitsValue(z, radix))
  }

  function DecimalDigit(d: nat): (c: char)
    requires d < 10
    ensures IsDigitIn(c, 10) && DigitValue(c) == d
  {
    (d + '0' as int) as char
  }

  /** The decimal rendering of a natural number, most significant digit first and
      without leading zeros. */
  function NatToString(n: nat): (s: string)
    ensures |s| > 0 && AllDigitsIn(s, 10)
    ensures s[0] == '0' ==> s == "0"
  {
    if n < 10 then [DecimalDigit(n)] else NatToString(n / 10) + [DecimalDigit(n % 10)]
  }

  /** `${i}` for an integral Number `i`: the decimal digits, after a minus sign
      when `i` is negative. Only the plain-decimal rendering is modelled, which
      JavaScript uses for magnitudes below 10^21. */
  function IntToString(i: int): (s: string)
    ensures |s| > 0 && (s[0] == '-' <==> i < 0)
    ensures var digits := if i < 0 then s[1..] else s;
      && |digits| > 0 && AllDigitsIn(digits, 10) && (digits[0] == '0' ==> digits == "0")
  {
    if i < 0 then "-" + NatToString(-i) else NatToString(i)
  }

  lemma {:induction false} NatToStringValue(n: nat)
    ensures DigitsValue(NatToString(n), 10) == n
  {
    var s := NatToString(n);
    if n >= 10 {
      NatToStringValue(n / 10);
      assert s[..|s| - 1] == NatToString(n / 10);
    }
  }

  lemma {:induction false} DigitPrefixOfDigits(z: string, rest: string, radix: nat)
    requires AllDigitsIn(z, radix)
    requires rest == [] || !IsDigitIn(rest[0], radix)
    ensures DigitPrefix(z + rest, radix) == z
  {
    if z != [] {
      assert (z + rest)[1..] == z[1..] + rest;
      DigitPrefixOfDigits(z[1..], rest, radix);
    } else {
      assert z + rest == rest;
    }
  }

  /** The magnitude of a rendered natural number reads back as that number when
      the text after it cannot extend it. */
  lemma ParseMagnitudeOfNatToString(n: nat, rest: string)
    requires rest == [] || (!IsDigitIn(rest[0], 10) && rest[0] != 'x' && rest[0] != 'X')
    ensures ParseMagnitude(NatToString(n) + rest) == Some(n)
  {
    var z := NatToString(n);
    var u := z + rest;
    assert !HasHexPrefix(u) by {
      if |u| >= 2 && u[0] == '0' {
        assert z == "0" && u[1] == rest[0];
      }
    }
    DigitPrefixOfDigits(z, rest, 10);
    NatToStringValue(n);
  }

  /** `parseInt` reads back what integer rendering writes, even when more text
      follows, provided that text does not start with a digit (which would extend
      the number) or with `x`/`X` (which would turn "0" into a hex prefix). */
  lemma ParseIntOfIntToString(i: int, rest: string)
    requires rest == [] || (!IsDigitIn(rest[0], 10) && rest[0] != 'x' && rest[0] != 'X')
    ensures ParseInt(IntToString(i) + rest) == Some(i)
  {
    if i < 0 {
      ParseIntOfNegative(i, rest);
    } else {
      ParseIntOfNonNegative(i, rest);
    }
  }

  lemma ParseIntOfNegative(i: int, rest: string)
    requires i < 0
    requires rest == [] || (!IsDigitIn(rest[0], 10) && rest[0] != 'x' && rest[0] != 'X')
    ensures ParseInt(IntToString(i) + rest) == Some(i)
  {
    var n: nat := -i;
    var u := NatToString(n) + rest;
    ParseMagnitudeOfNatToString(n, rest);
    NegativeRendering(i, rest);
    ParseSignedNegative(u, n);
  }

  lemma ParseIntOfNonNegative(i: int, rest: string)
    requires i >= 0
    requires rest == [] || (!IsDigitIn(rest[0], 10) && rest[0] != 'x' && rest[0] != 'X')
    ensures ParseInt(IntToString(i) + rest) == Some(i)
  {
    var z := NatToString(i);
    assert IntToString(i) + rest == z + rest;
    ParseMagnitudeOfNatToString(i, rest);
    assert (z + rest)[0] == z[0];
    ParseSignedUnsigned(z + rest, i);
  }

  lemma NegativeRendering(i: int, rest: string)
    requires i < 0
    ensures IntToString(i) + rest == ['-'] + (NatToString(-i) + rest)
  {
  }

  lemma ParseSignedNegative(u: string, n: nat)
    requires ParseMagnitude(u) == Some(n)
    ensures ParseInt(['-'] + u) == Some(-(n as int))
  {
    var s := ['-'] + u;
    assert s[0] == '-' && s[1..] == u;
    assert ParseSigned(s) == Some(-(n as int));
    assert TrimStart(s) == s by {
      assert !IsJsWhitespace(s[0]);
    }
  }

  lemma ParseSignedUnsigned(u: string, n: nat)
    requires |u| > 0 && IsDigitIn(u[0], 10)
    requires ParseMagnitude(u) == Some(n)
    ensures ParseInt(u) == Some(n)
  {
    DecimalDigitIsPlain(u[0]);
    assert TrimStart(u) == u;
  }

  lemma DecimalDigitIsPlain(c: char)
    requires IsDigitIn(c, 10)
    ensures '0' <= c <= '9'
    ensures !IsJsWhitespace(c) && c != '+' && c != '-'
  {
  }

  lemma {:induction false} TrimStartSkipsWhitespace(pre: string, s: string)
    requires AllWhitespace(pre)
    ensures TrimStart(pre + s) == TrimStart(s)
  {
    if pre != [] {
      assert (pre + s)[1..] == pre[1..] + s;
      TrimStartSkipsWhitespace(pre[1..], s);
    } else {
      assert pre + s == s;
    }
  }

  /** `parseInt` ignores leading white space. */
  lemma ParseIntSkipsWhitespace(pre: string, s: string)
    requires AllWhitespace(pre)
    ensures ParseInt(pre + s) == ParseInt(s)
  {
    TrimStartSkipsWhitespace(pre, s);
  }

  /** A string whose first character is neither white space, a sign nor a decimal
      digit parses to NaN. */
  lemma ParseIntNoLeadingDigit(s: string)
    requires |s| > 0 && !IsJsWhitespace(s[0]) && s[0] != '+' && s[0] != '-' && !IsDigitIn(s[0], 10)
    ensures ParseInt(s) == None
  {
  }

  /** White space, then at most one sign, then anything but a digit (and, with
      no sign, anything but more white space or a sign): no leading digit, so
      NaN. `"- 5"`, `" x"`, `"+"` and `"-x"` are among these. */
  lemma ParseIntWithoutDigits(pre: string, sign: string, rest: string)
    requires AllWhitespace(pre)
    requires sign == "" || sign == "+" || sign == "-"
    requires rest == [] || !IsDigitIn(rest[0], 10)
    requires sign == "" && rest != [] ==> !IsJsWhitespace(rest[0]) && rest[0] != '+' && rest[0] != '-'
    ensures ParseInt(pre + sign + rest) == None
  {
    assert pre + sign + rest == pre + (sign + rest);
    SignedAfterWhitespace(pre, sign, rest);
  }

  /** The same for a `0x` or `0X` prefix followed by no hexadecimal digit:
      `"0x"`, `" -0xg"`. */
  lemma ParseIntBareHexPrefix(pre: string, sign: string, x: char, rest: string)
    requires AllWhitespace(pre)
    requires sign == "" || sign == "+" || sign == "-"
    requires x == 'x' || x == 'X'
    requires rest == [] || !IsDigitIn(rest[0], 16)
    ensures ParseInt(pre + sign + ['0', x] + rest) == None
  {
    var u := ['0', x] + rest;
    assert pre + sign + ['0', x] + rest == pre + (sign + u);
    SignedAfterWhitespace(pre, sign, u);
    BareHexMagnitude(x, rest);
  }

  lemma BareHexMagnitude(x: char, rest: string)
    requires x == 'x' || x == 'X'
    requires rest == [] || !IsDigitIn(rest[0], 16)
    ensures ParseMagnitude(['0', x] + rest) == None
  {
    var u := ['0', x] + rest;
    assert HasHexPrefix(u) && u[2..] == rest;
  }

  /** Leading white space is skipped up to the first character that is not. */
  lemma ParseIntAfterWhitespace(pre: string, t: string)
    requires AllWhitespace(pre)
    requires t == [] || !IsJsWhitespace(t[0])
    ensures ParseInt(pre + t) == ParseSigned(t)
  {
    TrimStartSkipsWhitespace(pre, t);
  }

  /** With a sign, `parseInt` reads the magnitude from what follows it; without
      one, from the whole text. */
  lemma SignedAfterWhitespace(pre: string, sign: string, rest: string)
    requires AllWhitespace(pre)
    requires sign == "" || sign == "+" || sign == "-"
    requires sign == "" && rest != [] ==> !IsJsWhitespace(rest[0]) && rest[0] != '+' && rest[0] != '-'
    ensures ParseMagnitude(rest).None? ==> ParseInt(pre + (sign + rest)).None?
  {
    var t := sign + rest;
    if sign == "" {
      assert t == rest;
    } else {
      assert t[0] == sign[0] && t[1..] == rest;
      assert !IsJsWhitespace(sign[0]);
    }
    ParseIntAfterWhitespace(pre, t);
  }
}
