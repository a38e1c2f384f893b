/**
 * The part of JavaScript's number handling the creation form relies on:
 * `parseInt(string)` called without a radix, as section 19.2.5 of
 * ECMA-262 defines it.  A result of `NaN` is `None`; a number is an
 * unbounded integer.
 */
module JsNumbers {
  import opened Wrappers

  /** StrWhiteSpaceChar: the WhiteSpace code points (tab, vertical tab, form
      feed, the byte order mark and every space separator) and the line
      terminators. */
  predicate IsStrWhiteSpace(c: char) {
    || c == '\U{0009}' || c == '\U{000B}' || c == '\U{000C}' || c == '\U{FEFF}'
    || c == '\U{0020}' || c == '\U{00A0}' || c == '\U{1680}'
    || ('\U{2000}' <= c <= '\U{200A}')
    || c == '\U{202F}' || c == '\U{205F}' || c == '\U{3000}'
    || c == '\U{000A}' || c == '\U{000D}' || c == '\U{2028}' || c == '\U{2029}'
  }

  /** The value of an alphanumeric digit (`0`-`9`, then `a`-`z` or `A`-`Z`
      for 10 to 35); 36 for any other character. */
  function DigitValue(c: char): (v: nat)
    ensures v <= 36
  {
    if '0' <= c <= '9' then c as int - '0' as int
    else if 'a' <= c <= 'z' then c as int - 'a' as int + 10
    else if 'A' <= c <= 'Z' then c as int - 'A' as int + 10
    else 36
  }

  predicate IsRadixDigit(c: char, radix: nat) {
    DigitValue(c) < radix
  }

  /** The input with its leading white space removed. */
  function TrimStart(s: string): (r: string)
    ensures |r| <= |s| && r == s[|s| - |r|..]
    ensures forall i :: 0 <= i < |s| - |r| ==> IsStrWhiteSpace(s[i])
    ensures r == [] || !IsStrWhiteSpace(r[0])
  {
    if |s| > 0 && IsStrWhiteSpace(s[0]) then TrimStart(s[1..]) else s
  }

  /** The length of the longest prefix made of digits of the radix. */
  function DigitRun(s: string, radix: nat): (n: nat)
    ensures n <= |s|
    ensures forall i :: 0 <= i < n ==> IsRadixDigit(s[i], radix)
    ensures n < |s| ==> !IsRadixDigit(s[n], radix)
  {
    if |s| > 0 && IsRadixDigit(s[0], radix) then 1 + DigitRun(s[1..], radix) else 0
  }

  /** The number a string of digits denotes, most significant digit first. */
  function DigitsValue(ds: string, radix: nat): nat {
    if ds == [] then 0 else DigitsValue(ds[..|ds| - 1], radix) * radix + DigitValue(ds[|ds| - 1])
  }

  /** A leading sign: whether it is a minus, and what follows it. */
  function SplitSign(t: string): (r: (bool, string))
    ensures |r.1| <= |t|
  {
    if |t| > 0 && t[0] == '-' then (true, t[1..])
    else if |t| > 0 && t[0] == '+' then (false, t[1..])
    else (false, t)
  }

  /** A `0x` or `0X` prefix selects base 16 and is dropped; otherwise the
      base is 10. */
  function SplitRadix(u: string): (r: (nat, string))
  {
    if |u| >= 2 && u[0] == '0' && (u[1] == 'x' || u[1] == 'X') then (16, u[2..]) else (10, u)
  }

  /** The value of the digits that open `v`, or `NaN` when there are none. */
  function LeadingDigits(v: string, radix: nat, negative: bool): Option<int> {
    var k := DigitRun(v, radix);
    if k == 0 then None
    else
      var n: int := DigitsValue(v[..k], radix);
      Some(if negative then -n else n)
  }

  /** `parseInt(s)`: skip leading white space, read one optional sign, read a
      `0x`/`0X` prefix as base 16 (base 10 otherwise), then take as many
      digits as follow; with no digit the result is `NaN`. */
  function ParseInt(s: string): Option<int> {
    ParseSigned(TrimStart(s))
  }

  /** The steps after the white space: the sign, the prefix, the digits. */
  function ParseSigned(t: string): Option<int> {
    var (negative, u) := SplitSign(t);
    var (radix, v) := SplitRadix(u);
    LeadingDigits(v, radix, negative)
  }

  /** `parseInt` never invents a number: a result needs a digit (of base 16
      at most) somewhere in the input, and a negative result needs a minus
      sign in it. */
  lemma ParseIntNeedsDigit(s: string)
    ensures ParseInt(s).Some? ==> exists i :: 0 <= i < |s| && IsRadixDigit(s[i], 16)
    ensures ParseInt(s).Some? && ParseInt(s).value < 0 ==> exists i :: 0 <= i < |s| && s[i] == '-'
  {
    var j, k := ReadPositions(s);
  }

  /** Where `parseInt` found its first digit and its sign. */
  lemma ReadPositions(s: string) returns (j: int, k: int)
    ensures ParseInt(s).Some? ==> 0 <= j < |s| && IsRadixDigit(s[j], 16)
    ensures ParseInt(s).Some? && ParseInt(s).value < 0 ==> 0 <= k < |s| && s[k] == '-'
  {
    var t := TrimStart(s);
    assert ParseInt(s) == ParseSigned(t);
    var j', k' := TrimmedPositions(t);
    j, k := |s| - |t| + j', |s| - |t| + k';
    if ParseInt(s).Some? {
      SuffixAt(s, t, j');
      if ParseInt(s).value < 0 {
        SuffixAt(s, t, k');
      }
    }
  }

  /** The same, once the white space is gone. */
  lemma TrimmedPositions(t: string) returns (j: int, k: int)
    ensures ParseSigned(t).Some? ==> 0 <= j < |t| && IsRadixDigit(t[j], 16)
    ensures ParseSigned(t).Some? && ParseSigned(t).value < 0 ==> 0 <= k < |t| && t[k] == '-'
  {
    var sr := SplitSign(t);
    var rr := SplitRadix(sr.1);
    var v := rr.1;
    assert ParseSigned(t) == LeadingDigits(v, rr.0, sr.0);
    j, k := 0, 0;
    if ParseSigned(t).Some? {
      SignLeavesSuffix(t);
      RadixLeavesSuffix(sr.1);
      SuffixOfSuffix(t, sr.1, v);
      LeadingDigitsNeedDigit(v, rr.0, sr.0);
      j := |t| - |v|;
      SuffixAt(t, v, 0);
    }
  }

  /** A suffix's characters are the whole's, shifted by what was dropped. */
  lemma SuffixAt(s: string, v: string, i: int)
    requires |v| <= |s| && v == s[|s| - |v|..]
    requires 0 <= i < |v|
    ensures s[|s| - |v| + i] == v[i]
  {
  }

  /** A result needs a first digit, and a negative one a minus sign. */
  lemma LeadingDigitsNeedDigit(v: string, radix: nat, negative: bool)
    requires radix <= 16
    requires LeadingDigits(v, radix, negative).Some?
    ensures |v| > 0 && IsRadixDigit(v[0], 16)
    ensures LeadingDigits(v, radix, negative).value < 0 ==> negative
  {
  }

  /** Each step of `parseInt` leaves a suffix of what it was given: the
      sign, then the prefix, is dropped from the front. */
  lemma SignLeavesSuffix(t: string)
    ensures var u := SplitSign(t).1; |u| <= |t| && u == t[|t| - |u|..]
  {
    if |t| > 0 && (t[0] == '-' || t[0] == '+') {
      assert SplitSign(t).1 == t[1..];
    } else {
      assert SplitSign(t).1 == t;
    }
  }

  lemma RadixLeavesSuffix(u: string)
    ensures var v := SplitRadix(u).1; |v| <= |u| && v == u[|u| - |v|..]
    ensures SplitRadix(u).0 <= 16
  {
  }

  lemma SuffixOfSuffix(s: string, t: string, u: string)
    requires |t| <= |s| && t == s[|s| - |t|..]
    requires |u| <= |t| && u == t[|t| - |u|..]
    ensures u == s[|s| - |u|..]
  {
  }

  function DigitChar(d: nat): (c: char)
    requires d < 10
    ensures DigitValue(c) == d
  {
    ('0' as int + d) as char
  }

  /** The shortest decimal spelling of a natural number, as `String(n)`
      writes it. */
  function DecimalString(n: nat): (s: string)
    ensures |s| >= 1
    ensures forall i :: 0 <= i < |s| ==> IsRadixDigit(s[i], 10)
  {
    if n < 10 then [DigitChar(n)] else DecimalString(n / 10) + [DigitChar(n % 10)]
  }

  lemma {:induction false} DecimalStringValue(n: nat)
    ensures DigitsValue(DecimalString(n), 10) == n
  {
    if n >= 10 {
      var s := DecimalString(n);
      assert s[..|s| - 1] == DecimalString(n / 10);
      DecimalStringValue(n / 10);
    }
  }

  /** Decimal digits followed by a non-digit that cannot complete a `0x`
      prefix are read as exactly those digits. */
  lemma {:induction false} LeadingDecimal(n: nat, rest: string, negative: bool)
    requires rest == [] || (!IsRadixDigit(rest[0], 10) && rest[0] != 'x' && rest[0] != 'X')
    ensures SplitRadix(DecimalString(n) + rest) == (10, DecimalString(n) + rest)
    ensures LeadingDigits(DecimalString(n) + rest, 10, negative) == Some(if negative then -(n as int) else n)
  {
    var d := DecimalString(n);
    var s := d + rest;
    assert forall i :: 0 <= i < |d| ==> s[i] == d[i];
    if |d| == 1 && |s| >= 2 {
      assert s[1] == rest[0];
    }
    assert DigitRun(s, 10) == |d| by {
      if |d| < |s| {
        assert s[|d|] == rest[0];
      }
    }
    assert s[..|d|] == d;
    DecimalStringValue(n);
  }

  /** `parseInt` reads back what `String(n)` writes, for every natural `n`,
      and also when the digits are followed by anything that is not a
      digit and cannot complete a hexadecimal prefix (`"3.7"`, `"12px"`,
      `"1e3"`). */
  lemma ParseIntReadsDecimal(n: nat, rest: string)
    requires rest == [] || (!IsRadixDigit(rest[0], 10) && rest[0] != 'x' && rest[0] != 'X')
    ensures ParseInt(DecimalString(n) + rest) == Some(n)
  {
    var s := DecimalString(n) + rest;
    assert s[0] == DecimalString(n)[0];
    assert TrimStart(s) == s;
    assert SplitSign(s) == (false, s);
    LeadingDecimal(n, rest, false);
  }

  /** A leading minus sign negates, a leading plus sign is dropped. */
  lemma ParseIntSigned(n: nat)
    ensures ParseInt("-" + DecimalString(n)) == Some(-(n as int))
    ensures ParseInt("+" + DecimalString(n)) == Some(n)
  {
    var d := DecimalString(n);
    assert d + [] == d;
    assert TrimStart("-" + d) == "-" + d;
    assert SplitSign("-" + d) == (true, d);
    LeadingDecimal(n, [], true);
    assert TrimStart("+" + d) == "+" + d;
    assert SplitSign("+" + d) == (false, d);
    LeadingDecimal(n, [], false);
  }

  /** Leading white space never changes the result. */
  lemma ParseIntSkipsWhiteSpace(c: char, s: string)
    requires IsStrWhiteSpace(c)
    ensures ParseInt([c] + s) == ParseInt(s)
  {
  }

  /** Input that opens with anything but white space, a sign or a decimal
      digit (letters, punctuation, nothing at all) is `NaN`. */
  lemma ParseIntWithoutDigits(s: string)
    requires s == [] || (!IsStrWhiteSpace(s[0]) && s[0] != '-' && s[0] != '+' && !IsRadixDigit(s[0], 10))
    ensures ParseInt(s) == None
  {
    assert TrimStart(s) == s;
    assert SplitSign(s) == (false, s);
    assert SplitRadix(s) == (10, s);
    assert DigitRun(s, 10) == 0;
  }

  /** A sign or a `0x` prefix with no digit after it is `NaN`. */
  lemma ParseIntBareSignOrPrefix()
    ensures ParseInt("-") == None
    ensures ParseInt("0x") == None
  {
    assert !IsStrWhiteSpace('-');
    assert TrimStart("-") == "-";
    assert SplitSign("-") == (true, "");
    assert !IsStrWhiteSpace('0');
    assert TrimStart("0x") == "0x";
    assert SplitSign("0x") == (false, "0x");
    assert "0x"[2..] == "";
    assert SplitRadix("0x") == (16, "");
  }

  /** A `0x` prefix switches to base 16 for the digits after it. */
  lemma ParseIntHexPrefix(v: string)
    ensures ParseInt("0x" + v) == LeadingDigits(v, 16, false)
  {
  }

  lemma ParseIntHexadecimal()
    ensures ParseInt("0x1A") == Some(26)
  {
    ParseIntHexPrefix("1A");
    assert "0x" + "1A" == "0x1A";
    HexDigitsOneA();
  }

  lemma HexDigitsOneA()
    ensures LeadingDigits("1A", 16, false) == Some(26)
  {
    assert "1A"[1..] == "A" && "A"[1..] == "";
    assert DigitRun("A", 16) == 1;
    assert DigitRun("1A", 16) == 2;
    assert "1A"[..2] == "1A" && "1A"[..1] == "1" && "1"[..0] == "";
    assert DigitsValue("1", 16) == 1;
  }
}
