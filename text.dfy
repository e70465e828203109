/** The JavaScript string and number built-ins the core relies on:
    `String.prototype.includes`, `toLowerCase` (for ASCII letters),
    `parseInt(s, 16)` and the decimal rendering of a non-negative integer. */
module Text {

  // ---------------------------------------------------------------------------
  // includes

  /** `t` occurs in `s` starting at index `i`. */
  predicate OccursAt(s: string, t: string, i: nat)
  {
    i + |t| <= |s| && s[i..i + |t|] == t
  }

  /** `s.includes(t)`, scanning for `t` from the left. */
  predicate Contains(s: string, t: string)
    decreases |s|
  {
    t <= s || (s != [] && Contains(s[1..], t))
  }

  /** `s.includes(t)` holds exactly when `t` occurs in `s` at some index. */
  lemma {:induction false} ContainsIff(s: string, t: string)
    ensures Contains(s, t) <==> exists i: nat :: OccursAt(s, t, i)
    decreases |s|
  {
    if t <= s {
      assert OccursAt(s, t, 0);
    } else if s != [] {
      ContainsIff(s[1..], t);
      forall i: nat
        ensures OccursAt(s[1..], t, i) <==> OccursAt(s, t, i + 1)
      {
        if i + 1 + |t| <= |s| {
          assert s[1..][i..i + |t|] == s[i + 1..i + 1 + |t|];
        }
      }
      if Contains(s, t) {
        var i: nat :| OccursAt(s[1..], t, i);
        assert OccursAt(s, t, i + 1);
      } else {
        forall i: nat
          ensures !OccursAt(s, t, i)
        {
          if i > 0 {
            assert !OccursAt(s[1..], t, i - 1);
          }
        }
      }
    }
  }

  // ---------------------------------------------------------------------------
  // toLowerCase (ASCII letters only)

  function LowerChar(c: char): char
  {
    if 'A' <= c <= 'Z' then (c as int + 32) as char else c
  }

  predicate IsUpperAscii(c: char)
  {
    'A' <= c <= 'Z'
  }

  /** `s.toLowerCase()` restricted to ASCII letters. */
  function ToLower(s: string): (r: string)
    ensures |r| == |s|
    ensures forall i :: 0 <= i < |s| ==> r[i] == LowerChar(s[i])
    ensures forall i :: 0 <= i < |r| ==> !IsUpperAscii(r[i])
  {
    seq(|s|, i requires 0 <= i < |s| => LowerChar(s[i]))
  }

  /** Lower-casing twice is lower-casing once. */
  lemma ToLowerIdempotent(s: string)
    ensures ToLower(ToLower(s)) == ToLower(s)
  {
    var once := ToLower(s);
    assert forall i :: 0 <= i < |once| ==> LowerChar(once[i]) == once[i];
  }

  /** A string without upper-case ASCII letters is its own lower-case form. */
  lemma ToLowerOfLower(s: string)
    requires forall i :: 0 <= i < |s| ==> !IsUpperAscii(s[i])
    ensures ToLower(s) == s
  {
  }

  // ---------------------------------------------------------------------------
  // Hexadecimal digits and parseInt(s, 16)

  predicate IsHexDigit(c: char)
  {
    ('0' <= c <= '9') || ('a' <= c <= 'f') || ('A' <= c <= 'F')
  }

  function HexDigitValue(c: char): (v: nat)
    requires IsHexDigit(c)
    ensures v < 16
  {
    if '0' <= c <= '9' then c as int - '0' as int
    else if 'a' <= c <= 'f' then c as int - 'a' as int + 10
    else c as int - 'A' as int + 10
  }

  /** The value of a string of hex digits, most significant first. */
  function HexValue(ds: string): nat
    requires forall i :: 0 <= i < |ds| ==> IsHexDigit(ds[i])
  {
    if ds == [] then 0
    else HexValue(ds[..|ds| - 1]) * 16 + HexDigitValue(ds[|ds| - 1])
  }

  /** The longest prefix of `s` made of hex digits. */
  function LeadingHexDigits(s: string): (ds: string)
    ensures ds <= s
    ensures forall i :: 0 <= i < |ds| ==> IsHexDigit(ds[i])
    ensures |ds| < |s| ==> !IsHexDigit(s[|ds|])
  {
    if s == [] || !IsHexDigit(s[0]) then ""
    else [s[0]] + LeadingHexDigits(s[1..])
  }

  /** ECMAScript WhiteSpace and LineTerminator code points, which
      `parseInt` skips before the number. */
  predicate IsWhitespace(c: char)
  {
    || c == '\t' || c == '\U{B}' || c == '\U{C}' || c == ' ' || c == '\U{A0}' || c == '\U{FEFF}'
    || c == '\U{1680}' || '\U{2000}' <= c <= '\U{200A}' || c == '\U{202F}' || c == '\U{205F}' || c == '\U{3000}'
    || c == '\n' || c == '\r' || c == '\U{2028}' || c == '\U{2029}'
  }

  function SkipWhitespace(s: string): (r: string)
    ensures r == [] || !IsWhitespace(r[0])
    ensures |r| <= |s| && r == s[|s| - |r|..]
  {
    if s != [] && IsWhitespace(s[0]) then SkipWhitespace(s[1..]) else s
  }

  /** A JavaScript number as far as the model needs it: an integer, or NaN. */
  datatype JsNumber = Finite(value: int) | NaN

  /** An optional leading sign: whether it is `-`, and what follows it. */
  function StripSign(t: string): (bool, string)
  {
    if t != [] && (t[0] == '-' || t[0] == '+') then (t[0] == '-', t[1..]) else (false, t)
  }

  /** An optional `0x` or `0X` prefix is dropped. */
  function StripHexPrefix(u: string): string
  {
    if |u| >= 2 && u[0] == '0' && (u[1] == 'x' || u[1] == 'X') then u[2..] else u
  }

  /** `parseInt(s, 16)`: leading white space, an optional sign and an optional
      `0x`/`0X` prefix are skipped, then the longest run of hex digits is read;
      no digit at all gives NaN. */
  function ParseIntHex(s: string): JsNumber
  {
    var (negative, u) := StripSign(SkipWhitespace(s));
    var ds := LeadingHexDigits(StripHexPrefix(u));
    if ds == [] then NaN
    else Finite(if negative then -(HexValue(ds) as int) else HexValue(ds))
  }

  /** The lower-case hex digit for `d`. */
  function HexChar(d: nat): (c: char)
    requires d < 16
    ensures IsHexDigit(c) && HexDigitValue(c) == d
  {
    if d < 10 then ('0' as int + d) as char else ('a' as int + d - 10) as char
  }

  /** `n.toString(16)`: the lower-case hex digits of `n`. */
  function ToHex(n: nat): (ds: string)
    ensures |ds| > 0
    ensures forall i :: 0 <= i < |ds| ==> IsHexDigit(ds[i])
  {
    if n < 16 then [HexChar(n)] else ToHex(n / 16) + [HexChar(n % 16)]
  }

  lemma {:induction false} HexValueOfToHex(n: nat)
    ensures HexValue(ToHex(n)) == n
  {
    var ds := ToHex(n);
    if n < 16 {
      assert ds[..0] == [];
    } else {
      assert ds[..|ds| - 1] == ToHex(n / 16);
      HexValueOfToHex(n / 16);
    }
  }

  lemma {:induction false} LeadingHexDigitsOfHex(s: string)
    requires forall i :: 0 <= i < |s| ==> IsHexDigit(s[i])
    ensures LeadingHexDigits(s) == s
  {
    if s != [] {
      LeadingHexDigitsOfHex(s[1..]);
    }
  }

  /** `parseInt` reads exactly the digits `ds` once the leading parts of `s`
      are seen to be absent or stripped. */
  lemma ParseIntHexOfStripped(s: string, ds: string)
    requires forall i :: 0 <= i < |ds| ==> IsHexDigit(ds[i])
    requires ds != [] && SkipWhitespace(s) == s && StripSign(s) == (false, s)
    requires StripHexPrefix(s) == ds && LeadingHexDigits(ds) == ds
    ensures ParseIntHex(s) == Finite(HexValue(ds))
  {
  }

  /** `parseInt` of `0x` followed by hex digits is the value of those digits. */
  lemma {:induction false} ParseIntHexOfPrefixed(ds: string)
    requires ds != [] && forall i :: 0 <= i < |ds| ==> IsHexDigit(ds[i])
    ensures ParseIntHex("0x" + ds) == Finite(HexValue(ds))
  {
    var s := "0x" + ds;
    assert s[0] == '0' && s[1] == 'x';
    assert SkipWhitespace(s) == s;
    assert StripSign(s) == (false, s);
    assert s[2..] == ds;
    assert StripHexPrefix(s) == ds;
    LeadingHexDigitsOfHex(ds);
    ParseIntHexOfStripped(s, ds);
  }

  /** Reading back a chain id written as `0x` followed by its hex digits gives
      the chain id: the inverse of the format a wallet uses in `chainChanged`. */
  lemma ParseIntHexRoundTrip(n: nat)
    ensures ParseIntHex("0x" + ToHex(n)) == Finite(n)
  {
    ParseIntHexOfPrefixed(ToHex(n));
    HexValueOfToHex(n);
  }

  // ---------------------------------------------------------------------------
  // Decimal rendering of non-negative integers (template literals)

  function DigitChar(d: nat): (c: char)
    requires d < 10
    ensures '0' <= c <= '9'
  {
    ('0' as int + d) as char
  }

  /** `${n}` for a non-negative integer `n`. */
  function NatToDecimal(n: nat): (s: string)
    ensures |s| > 0
    ensures forall i :: 0 <= i < |s| ==> '0' <= s[i] <= '9'
  {
    if n < 10 then [DigitChar(n)] else NatToDecimal(n / 10) + [DigitChar(n % 10)]
  }

  /** The value of a string of decimal digits. */
  function DecimalValue(ds: string): nat
    requires forall i :: 0 <= i < |ds| ==> '0' <= ds[i] <= '9'
  {
    if ds == [] then 0
    else DecimalValue(ds[..|ds| - 1]) * 10 + (ds[|ds| - 1] as int - '0' as int)
  }

  /** The decimal rendering loses nothing: reading it back gives `n`. */
  lemma {:induction false} DecimalRoundTrip(n: nat)
    ensures DecimalValue(NatToDecimal(n)) == n
  {
    var s := NatToDecimal(n);
    if n < 10 {
      assert s[..0] == [];
    } else {
      assert s[..|s| - 1] == NatToDecimal(n / 10);
      DecimalRoundTrip(n / 10);
    }
  }
}
