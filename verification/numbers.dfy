/**
 * Number <-> text conversions the core relies on: the decimal rendering of
 * the repeat counter in `'.' + last.cnt` (main.js:239) and
 * `normalizeConfig`, which reads the key-up timeout with JavaScript's
 * `parseInt` and truncates it to a 32-bit signed integer with `| 0`
 * (main.js:244-246).
 */
module Numbers {
  import opened Wrappers

  predicate IsDigit(c: char) { '0' <= c <= '9' }

  predicate IsHexDigit(c: char) { IsDigit(c) || 'a' <= c <= 'f' || 'A' <= c <= 'F' }

  /** Whether `c` is a digit in the given radix (10 or 16). */
  predicate IsRadixDigit(c: char, radix: nat)
  {
    if radix == 16 then IsHexDigit(c) else IsDigit(c)
  }

  function DigitValue(c: char): (v: nat)
    requires IsHexDigit(c)
    ensures v < 16
    ensures IsDigit(c) ==> v < 10
  {
    if IsDigit(c) then c as nat - '0' as nat
    else if 'a' <= c <= 'f' then c as nat - 'a' as nat + 10
    else c as nat - 'A' as nat + 10
  }

  function DigitChar(d: nat): (c: char)
    requires d < 10
    ensures IsDigit(c) && DigitValue(c) == d
  {
    ('0' as nat + d) as char
  }

  /** The value of a string of digits in `radix`, most significant first. */
  function DigitsValue(s: string, radix: nat): nat
    requires forall i :: 0 <= i < |s| ==> IsHexDigit(s[i])
  {
    if s == [] then 0 else DigitsValue(s[..|s| - 1], radix) * radix + DigitValue(s[|s| - 1])
  }

  /** JavaScript's rendering of a non-negative integer: decimal digits, no leading zero. */
  function DecimalString(n: nat): (s: string)
    ensures |s| >= 1
    ensures forall i :: 0 <= i < |s| ==> IsDigit(s[i])
    ensures |s| > 1 ==> s[0] != '0'
    ensures DigitsValue(s, 10) == n
  {
    if n < 10 then [DigitChar(n)]
    else
      var s := DecimalString(n / 10) + [DigitChar(n % 10)];
      assert s[..|s| - 1] == DecimalString(n / 10);
      s
  }

  /** White space and line terminators that `parseInt` skips before the number. */
  predicate IsJsSpace(c: char)
  {
    c == ' ' || c == '\t' || c == '\n' || c == '\r' || c == '\U{B}' || c == '\U{C}'
    || c == '\U{A0}' || c == '\U{FEFF}' || c == '\U{1680}' || ('\U{2000}' <= c <= '\U{200A}')
    || c == '\U{2028}' || c == '\U{2029}' || c == '\U{202F}' || c == '\U{205F}' || c == '\U{3000}'
  }

  /** The string with its leading white space removed. */
  function TrimStart(s: string): (r: string)
    ensures |r| <= |s| && r == s[|s| - |r|..]
    ensures r != [] ==> !IsJsSpace(r[0])
    ensures forall i :: 0 <= i < |s| - |r| ==> IsJsSpace(s[i])
  {
    if s != [] && IsJsSpace(s[0]) then TrimStart(s[1..]) else s
  }

  /** Length of the longest prefix of `s` made of digits in `radix`. */
  function DigitRun(s: string, radix: nat): (n: nat)
    ensures n <= |s|
    ensures forall i :: 0 <= i < n ==> IsRadixDigit(s[i], radix)
    ensures n < |s| ==> !IsRadixDigit(s[n], radix)
  {
    if s != [] && IsRadixDigit(s[0], radix) then 1 + DigitRun(s[1..], radix) else 0
  }

  /**
   * The unsigned part of `parseInt`: radix 16 after a `0x`/`0X` prefix,
   * otherwise radix 10, and the longest run of digits; no digit gives NaN,
   * here `None`.
   */
  function ParseUnsigned(u: string): (r: Option<nat>)
    ensures r.None? <==> DigitRun(if HasHexPrefix(u) then u[2..] else u, if HasHexPrefix(u) then 16 else 10) == 0
  {
    var radix := if HasHexPrefix(u) then 16 else 10;
    var body := if HasHexPrefix(u) then u[2..] else u;
    var n := DigitRun(body, radix);
    if n == 0 then None else Some(DigitsValue(body[..n], radix))
  }

  predicate HasHexPrefix(u: string)
  {
    |u| >= 2 && u[0] == '0' && (u[1] == 'x' || u[1] == 'X')
  }

  /**
   * `parseInt(s)` with no radix argument: skip leading white space, take an
   * optional sign, then read the unsigned part. NaN is `None`.
   */
  function ParseInt(s: string): (r: Option<int>)
    ensures var t := TrimStart(s);
      r.None? <==> ParseUnsigned(if t != [] && (t[0] == '-' || t[0] == '+') then t[1..] else t).None?
    ensures var t := TrimStart(s);
      r.Some? ==> t != [] && (if t[0] == '-' then r.value <= 0 else r.value >= 0)
  {
    ParseSigned(TrimStart(s))
  }

  /** The sign step of `parseInt`, on text that starts with no white space. */
  function ParseSigned(t: string): Option<int>
  {
    var signed := t != [] && (t[0] == '-' || t[0] == '+');
    match ParseUnsigned(if signed then t[1..] else t)
    case None => None
    case Some(v) => if signed && t[0] == '-' then Some(-(v as int)) else Some(v)
  }

  const TwoTo32: int := 0x1_0000_0000
  const TwoTo31: int := 0x8000_0000

  /** ECMAScript ToInt32: reduce modulo 2^32 into the signed range. */
  function ToInt32(x: int): (r: int)
    ensures -TwoTo31 <= r < TwoTo31
    ensures exists q :: x == q * TwoTo32 + r
    ensures -TwoTo31 <= x < TwoTo31 ==> r == x
  {
    var m := x % TwoTo32;
    var q := x / TwoTo32;
    assert x == q * TwoTo32 + m;
    assert -TwoTo31 <= x < 0 ==> q == -1;
    assert 0 <= x < TwoTo31 ==> q == 0;
    if m >= TwoTo31 then
      assert x == (q + 1) * TwoTo32 + (m - TwoTo32);
      m - TwoTo32
    else m
  }

  /** `parseInt(setting) | 0`: NaN becomes 0, anything else is truncated to 32 bits. */
  function NormalizeTimeout(setting: string): (t: int)
    ensures -TwoTo31 <= t < TwoTo31
    ensures ParseInt(setting) == None ==> t == 0
    ensures ParseInt(setting).Some? ==> t == ToInt32(ParseInt(setting).value)
    ensures (ParseInt(setting).Some? && -TwoTo31 <= ParseInt(setting).value < TwoTo31)
              ==> t == ParseInt(setting).value
  {
    match ParseInt(setting)
    case None => 0
    case Some(v) => ToInt32(v)
  }

  /** A run of radix digits ends where the first non-digit starts. */
  lemma {:induction false} DigitRunStops(digits: string, rest: string, radix: nat)
    requires forall i :: 0 <= i < |digits| ==> IsRadixDigit(digits[i], radix)
    requires rest == [] || !IsRadixDigit(rest[0], radix)
    ensures DigitRun(digits + rest, radix) == |digits|
    decreases |digits|
  {
    if digits == [] {
      assert digits + rest == rest;
    } else {
      assert (digits + rest)[1..] == digits[1..] + rest;
      DigitRunStops(digits[1..], rest, radix);
    }
  }

  /**
   * Decimal digits followed by text that is neither a digit nor an `x`
   * (so no hex prefix is formed) read as their decimal value: trailing
   * text such as a unit is ignored.
   */
  lemma ReadDecimal(digits: string, rest: string)
    requires |digits| >= 1 && forall i :: 0 <= i < |digits| ==> IsDigit(digits[i])
    requires rest == [] || !(IsDigit(rest[0]) || rest[0] == 'x' || rest[0] == 'X')
    ensures ParseUnsigned(digits + rest) == Some(DigitsValue(digits, 10))
  {
    var u := digits + rest;
    assert !HasHexPrefix(u) by {
      if |digits| >= 2 { assert u[1] == digits[1] && IsDigit(digits[1]); }
      else if |u| >= 2 { assert u[1] == rest[0]; }
    }
    DigitRunStops(digits, rest, 10);
    assert u[..|digits|] == digits;
  }

  /** A `0x` or `0X` prefix followed by hex digits reads them in radix 16, up to the first non-hex character. */
  lemma ReadHex(prefix: string, digits: string, rest: string)
    requires |prefix| == 2 && HasHexPrefix(prefix)
    requires |digits| >= 1 && forall i :: 0 <= i < |digits| ==> IsHexDigit(digits[i])
    requires rest == [] || !IsHexDigit(rest[0])
    ensures ParseUnsigned(prefix + (digits + rest)) == Some(DigitsValue(digits, 16))
  {
    var body := digits + rest;
    var u := prefix + body;
    assert HasHexPrefix(u);
    assert u[2..] == body;
    DigitRunStops(digits, rest, 16);
    assert body[..|digits|] == digits;
  }

  /** `parseInt` skips exactly the leading white space. */
  lemma {:induction false} TrimSpaces(ws: string, t: string)
    requires forall i :: 0 <= i < |ws| ==> IsJsSpace(ws[i])
    requires t == [] || !IsJsSpace(t[0])
    ensures TrimStart(ws + t) == t
    decreases |ws|
  {
    if ws == [] {
      assert ws + t == t;
    } else {
      assert (ws + t)[1..] == ws[1..] + t;
      TrimSpaces(ws[1..], t);
    }
  }

  /** The sign step on a sign followed by a number: `-` negates it, `+` or no sign keeps it. */
  lemma SignedValue(sign: string, u: string, v: nat)
    requires sign == "" || sign == "+" || sign == "-"
    requires ParseUnsigned(u) == Some(v)
    ensures ParseSigned(sign + u) == Some(if sign == "-" then -(v as int) else v)
  {
    var t := sign + u;
    if sign == "" {
      assert t == u;
      assert u != [] && IsDigit(u[0]) by {
        if !HasHexPrefix(u) {
          assert IsRadixDigit(u[0], 10);
        }
      }
    } else {
      assert t[1..] == u;
    }
  }

  /**
   * Leading white space is skipped and a sign is applied: `-` negates the
   * unsigned value `v` that follows, `+` or no sign keeps it.
   */
  lemma ReadSigned(ws: string, sign: string, u: string, v: nat)
    requires forall i :: 0 <= i < |ws| ==> IsJsSpace(ws[i])
    requires sign == "" || sign == "+" || sign == "-"
    requires ParseUnsigned(u) == Some(v)
    ensures ParseInt(ws + sign + u) == Some(if sign == "-" then -(v as int) else v)
  {
    assert u != [] && IsDigit(u[0]) by {
      if !HasHexPrefix(u) {
        assert IsRadixDigit(u[0], 10);
      }
    }
    var t := sign + u;
    assert ws + sign + u == ws + t;
    TrimSpaces(ws, t);
    SignedValue(sign, u, v);
  }

  /**
   * A decimal timeout, with any leading white space, an optional sign and
   * trailing text such as a unit, normalizes to its value reduced by
   * `| 0`: itself whenever it fits in 32 signed bits.
   */
  lemma NormalizeDecimal(ws: string, sign: string, n: nat, rest: string)
    requires forall i :: 0 <= i < |ws| ==> IsJsSpace(ws[i])
    requires sign == "" || sign == "+" || sign == "-"
    requires rest == [] || !(IsDigit(rest[0]) || rest[0] == 'x' || rest[0] == 'X')
    ensures NormalizeTimeout(ws + sign + (DecimalString(n) + rest)) == ToInt32(if sign == "-" then -(n as int) else n)
    ensures n < TwoTo31 ==> NormalizeTimeout(ws + sign + (DecimalString(n) + rest)) == if sign == "-" then -(n as int) else n
  {
    ParseDecimal(ws, sign, n, rest);
  }

  lemma ParseDecimal(ws: string, sign: string, n: nat, rest: string)
    requires forall i :: 0 <= i < |ws| ==> IsJsSpace(ws[i])
    requires sign == "" || sign == "+" || sign == "-"
    requires rest == [] || !(IsDigit(rest[0]) || rest[0] == 'x' || rest[0] == 'X')
    ensures ParseInt(ws + sign + (DecimalString(n) + rest)) == Some(if sign == "-" then -(n as int) else n)
  {
    ReadDecimal(DecimalString(n), rest);
    ReadSigned(ws, sign, DecimalString(n) + rest, n);
  }

  /**
   * A hex timeout such as `0x64`, with any leading white space and an
   * optional sign, normalizes to its value reduced by `| 0`.
   */
  lemma NormalizeHex(ws: string, sign: string, prefix: string, digits: string, rest: string)
    requires forall i :: 0 <= i < |ws| ==> IsJsSpace(ws[i])
    requires sign == "" || sign == "+" || sign == "-"
    requires |prefix| == 2 && HasHexPrefix(prefix)
    requires |digits| >= 1 && forall i :: 0 <= i < |digits| ==> IsHexDigit(digits[i])
    requires rest == [] || !IsHexDigit(rest[0])
    ensures NormalizeTimeout(ws + sign + (prefix + (digits + rest)))
      == ToInt32(if sign == "-" then -(DigitsValue(digits, 16) as int) else DigitsValue(digits, 16))
  {
    ReadHex(prefix, digits, rest);
    NormalizeRead(ws, sign, prefix + (digits + rest), DigitsValue(digits, 16));
  }

  /** Whatever digits `u` reads as, a signed and indented `u` normalizes to their signed value reduced by `| 0`. */
  lemma NormalizeRead(ws: string, sign: string, u: string, v: nat)
    requires forall i :: 0 <= i < |ws| ==> IsJsSpace(ws[i])
    requires sign == "" || sign == "+" || sign == "-"
    requires ParseUnsigned(u) == Some(v)
    ensures NormalizeTimeout(ws + sign + u) == ToInt32(if sign == "-" then -(v as int) else v)
  {
    ReadSigned(ws, sign, u, v);
  }

  /** `| 0` wraps modulo 2^32: large settings come out small or negative. */
  lemma WrapExamples()
    ensures ToInt32(4294967396) == 100
    ensures ToInt32(3000000000) == -1294967296
  {
    assert 4294967396 == 1 * TwoTo32 + 100;
    assert 3000000000 == 1 * TwoTo32 + -1294967296;
  }

  /** A setting with no digit where the number should start normalizes to 0. */
  lemma NoDigitsIsZero(setting: string)
    requires var t := TrimStart(setting); t == [] || !(IsDigit(t[0]) || t[0] == '-' || t[0] == '+')
    ensures NormalizeTimeout(setting) == 0
  {
  }
}
