/** Hexadecimal text as the gateway uses it: `binascii.a2b_hex` /
    `str.decode('hex')`, `binascii.b2a_hex`, the `%0nX` format and
    `int(s, 16)`. Bytes are integers in 0..255. */
module Hex {
  import opened Outcomes

  type byte = x: int | 0 <= x < 256

  predicate IsHexDigit(c: char) {
    '0' <= c <= '9' || 'a' <= c <= 'f' || 'A' <= c <= 'F'
  }

  predicate IsLowerHexDigit(c: char) {
    '0' <= c <= '9' || 'a' <= c <= 'f'
  }

  predicate IsUpperHexDigit(c: char) {
    '0' <= c <= '9' || 'A' <= c <= 'F'
  }

  predicate AllHex(s: string) {
    forall i | 0 <= i < |s| :: IsHexDigit(s[i])
  }

  predicate AllLowerHex(s: string) {
    forall i | 0 <= i < |s| :: IsLowerHexDigit(s[i])
  }

  predicate AllUpperHex(s: string) {
    forall i | 0 <= i < |s| :: IsUpperHexDigit(s[i])
  }

  function DigitValue(c: char): (d: nat)
    requires IsHexDigit(c)
    ensures d < 16
  {
    if '0' <= c <= '9' then c as int - '0' as int
    else if 'a' <= c <= 'f' then c as int - 'a' as int + 10
    else c as int - 'A' as int + 10
  }

  /** The digit `b2a_hex` prints for a nibble. */
  function LowerDigit(d: nat): (c: char)
    requires d < 16
    ensures IsLowerHexDigit(c) && DigitValue(c) == d
  {
    if d < 10 then ('0' as int + d) as char else ('a' as int + d - 10) as char
  }

  /** The digit the `%X` format prints for a nibble. */
  function UpperDigit(d: nat): (c: char)
    requires d < 16
    ensures IsUpperHexDigit(c) && DigitValue(c) == d
  {
    if d < 10 then ('0' as int + d) as char else ('A' as int + d - 10) as char
  }

  /** A hex digit folded to lower case; other characters are kept. */
  function LowerChar(c: char): (l: char)
    ensures IsHexDigit(c) ==> IsLowerHexDigit(l) && DigitValue(l) == DigitValue(c)
    ensures IsLowerHexDigit(c) ==> l == c
  {
    if 'A' <= c <= 'F' then (c as int - 'A' as int + 'a' as int) as char else c
  }

  function LowerHex(s: string): (l: string)
    ensures |l| == |s|
    ensures forall i | 0 <= i < |s| :: l[i] == LowerChar(s[i])
  {
    seq(|s|, i requires 0 <= i < |s| => LowerChar(s[i]))
  }

  /** The byte written as the two digits `hi lo`. */
  function PairValue(hi: char, lo: char): byte
    requires IsHexDigit(hi) && IsHexDigit(lo)
  {
    16 * DigitValue(hi) + DigitValue(lo)
  }

  function Pairs(s: string): (b: seq<byte>)
    requires |s| % 2 == 0 && AllHex(s)
    ensures 2 * |b| == |s|
    decreases |s|
  {
    if s == [] then [] else [PairValue(s[0], s[1])] + Pairs(s[2..])
  }

  /** Byte `i` of the decoded text comes from digits `2i` and `2i + 1`. */
  lemma {:induction false} PairsAt(s: string, i: nat)
    requires |s| % 2 == 0 && AllHex(s) && i < |s| / 2
    ensures Pairs(s)[i] == PairValue(s[2 * i], s[2 * i + 1])
    decreases i
  {
    if i > 0 {
      PairsAt(s[2..], i - 1);
    }
  }

  /** `binascii.a2b_hex(s)` (and `s.decode('hex')`) under Python 2: an odd
      length or a character that is not a hex digit raises TypeError;
      otherwise every two digits give one byte, upper or lower case alike. */
  function Unhexlify(s: string): (r: Result<seq<byte>>)
    ensures r.Ok? <==> |s| % 2 == 0 && AllHex(s)
    ensures r.Err? ==> r.error == TypeError
    ensures r.Ok? ==> 2 * |r.value| == |s|
  {
    if |s| % 2 != 0 || !AllHex(s) then Err(TypeError) else Ok(Pairs(s))
  }

  /** `binascii.b2a_hex(b)`: two lower-case digits per byte, high nibble first. */
  function Hexlify(b: seq<byte>): (s: string)
    ensures |s| == 2 * |b|
  {
    if b == [] then "" else [LowerDigit(b[0] / 16), LowerDigit(b[0] % 16)] + Hexlify(b[1..])
  }

  /** Byte `i` is printed at positions `2i` (high nibble) and `2i + 1`. */
  lemma {:induction false} HexlifyDigits(b: seq<byte>, i: nat)
    requires i < |b|
    ensures Hexlify(b)[2 * i] == LowerDigit(b[i] / 16)
    ensures Hexlify(b)[2 * i + 1] == LowerDigit(b[i] % 16)
    decreases i
  {
    if i > 0 {
      HexlifyDigits(b[1..], i - 1);
    }
  }

  lemma HexlifyLower(b: seq<byte>)
    ensures AllLowerHex(Hexlify(b))
  {
    var s := Hexlify(b);
    forall k | 0 <= k < |s|
      ensures IsLowerHexDigit(s[k])
    {
      HexlifyDigits(b, k / 2);
      assert k == 2 * (k / 2) || k == 2 * (k / 2) + 1;
    }
  }

  /** Decoding what `Hexlify` printed gives the bytes back. */
  lemma UnhexlifyHexlify(b: seq<byte>)
    ensures Unhexlify(Hexlify(b)) == Ok(b)
  {
    var s := Hexlify(b);
    HexlifyLower(b);
    assert AllHex(s);
    var r := Unhexlify(s);
    assert |r.value| == |b|;
    forall i | 0 <= i < |b|
      ensures r.value[i] == b[i]
    {
      PairsAt(s, i);
      HexlifyDigits(b, i);
    }
    assert r.value == b;
  }

  /** Printing the bytes decoded from hex text gives that text in lower case. */
  lemma HexlifyUnhexlify(s: string)
    requires Unhexlify(s).Ok?
    ensures Hexlify(Unhexlify(s).value) == LowerHex(s)
  {
    var b := Unhexlify(s).value;
    var h := Hexlify(b);
    forall k | 0 <= k < |s|
      ensures h[k] == LowerHex(s)[k]
    {
      var i := k / 2;
      PairsAt(s, i);
      assert b[i] == 16 * DigitValue(s[2 * i]) + DigitValue(s[2 * i + 1]);
      assert b[i] / 16 == DigitValue(s[2 * i]) && b[i] % 16 == DigitValue(s[2 * i + 1]);
      HexlifyDigits(b, i);
      if k % 2 == 0 {
        assert k == 2 * i;
        LowerDigitOf(s[k]);
      } else {
        assert k == 2 * i + 1;
        LowerDigitOf(s[k]);
      }
    }
  }

  lemma LowerDigitOf(c: char)
    requires IsHexDigit(c)
    ensures LowerDigit(DigitValue(c)) == LowerChar(c)
  {
  }

  // ---------------------------------------------------------------------
  // Numbers as hex text: the `%0nX` format and int(s, 16)

  function Pow16(k: nat): (p: nat)
    ensures p >= 1
  {
    if k == 0 then 1 else 16 * Pow16(k - 1)
  }

  /** The value of a string of hex digits, most significant first. */
  function ValueOf(s: string): nat
    requires AllHex(s)
  {
    if s == [] then 0 else 16 * ValueOf(s[..|s| - 1]) + DigitValue(s[|s| - 1])
  }

  /** The digits of `n` without leading zeros ("0" for zero), upper case. */
  function UpperDigits(n: nat): (s: string)
    ensures |s| >= 1 && AllUpperHex(s) && AllHex(s)
    decreases n
  {
    if n < 16 then [UpperDigit(n)] else UpperDigits(n / 16) + [UpperDigit(n % 16)]
  }

  function Zeros(k: nat): (s: string)
    ensures |s| == k && forall i | 0 <= i < k :: s[i] == '0'
  {
    seq(k, _ => '0')
  }

  /** Python's `"%0wX" % n` for a non-negative `n`: upper-case digits, padded
      on the left with '0' to at least `width` characters, never truncated. */
  function FormatUpper(n: nat, width: nat): (s: string)
    ensures |s| >= width && |s| >= 1
    ensures AllUpperHex(s) && AllHex(s)
  {
    var d := UpperDigits(n);
    if |d| < width then Zeros(width - |d|) + d else d
  }

  lemma {:induction false} UpperDigitsValue(n: nat)
    ensures ValueOf(UpperDigits(n)) == n
    decreases n
  {
    if n >= 16 {
      UpperDigitsValue(n / 16);
      var s := UpperDigits(n);
      assert s[..|s| - 1] == UpperDigits(n / 16);
    }
  }

  lemma {:induction false} LeadingZerosValue(k: nat, s: string)
    requires AllHex(s)
    ensures AllHex(Zeros(k) + s) && ValueOf(Zeros(k) + s) == ValueOf(s)
    decreases |s|
  {
    var z := Zeros(k) + s;
    if s == [] {
      assert z == Zeros(k);
      ZerosValue(k);
    } else {
      LeadingZerosValue(k, s[..|s| - 1]);
      assert z[..|z| - 1] == Zeros(k) + s[..|s| - 1];
    }
  }

  lemma {:induction false} ZerosValue(k: nat)
    ensures ValueOf(Zeros(k)) == 0
  {
    if k > 0 {
      ZerosValue(k - 1);
      assert Zeros(k)[..k - 1] == Zeros(k - 1);
    }
  }

  /** `%0wX` loses nothing: reading the digits back gives `n`. */
  lemma FormatUpperValue(n: nat, width: nat)
    ensures ValueOf(FormatUpper(n, width)) == n
  {
    var d := UpperDigits(n);
    var k := if |d| < width then width - |d| else 0;
    FormatUpperShape(n, width);
    LeadingZerosValue(k, d);
    UpperDigitsValue(n);
  }

  /** `%0wX` is the bare digits behind enough zeros to reach the width. */
  lemma FormatUpperShape(n: nat, width: nat)
    ensures var d := UpperDigits(n);
      FormatUpper(n, width) == Zeros(if |d| < width then width - |d| else 0) + d
  {
    var d := UpperDigits(n);
    if |d| >= width {
      assert Zeros(0) + d == d;
    }
  }

  /** A number below 16^k (k >= 1) needs at most k digits. */
  lemma {:induction false} UpperDigitsLength(n: nat, k: nat)
    requires k >= 1 && n < Pow16(k)
    ensures |UpperDigits(n)| <= k
    decreases k
  {
    if n >= 16 {
      assert Pow16(1) == 16;
      assert k >= 2;
      UpperDigitsLength(n / 16, k - 1);
    }
  }

  function StripHexPrefix(s: string): string {
    if |s| >= 2 && s[0] == '0' && (s[1] == 'x' || s[1] == 'X') then s[2..] else s
  }

  /** Python's `int(s, 16)` on the handle strings gatttool prints: an optional
      `0x`/`0X` prefix and then at least one hex digit; anything else raises
      ValueError. */
  function ParseHexInt(s: string): (r: Result<nat>)
    ensures r.Ok? <==> |StripHexPrefix(s)| > 0 && AllHex(StripHexPrefix(s))
    ensures r.Err? ==> r.error == ValueError
  {
    var d := StripHexPrefix(s);
    if |d| > 0 && AllHex(d) then Ok(ValueOf(d)) else Err(ValueError)
  }

  /** `int(..., 16)` reads back what `%0wX` printed, with or without `0x`. */
  lemma ParseFormatted(n: nat, width: nat)
    ensures ParseHexInt(FormatUpper(n, width)) == Ok(n)
    ensures ParseHexInt("0x" + FormatUpper(n, width)) == Ok(n)
  {
    var s := FormatUpper(n, width);
    FormatUpperValue(n, width);
    assert ("0x" + s)[2..] == s;
    if |s| >= 2 && s[0] == '0' {
      assert s[1] != 'x' && s[1] != 'X';
    }
  }

  /** Python's `'{0:0>4x}'.format(n)` for a non-negative `n` (and `%0wx`):
      lower-case digits padded on the left with '0' to `width`. */
  function FormatLower(n: nat, width: nat): (s: string)
    ensures |s| >= width && AllLowerHex(s)
  {
    LowerHex(FormatUpper(n, width))
  }

  lemma {:induction false} LowerHexValue(s: string)
    requires AllHex(s)
    ensures AllHex(LowerHex(s)) && ValueOf(LowerHex(s)) == ValueOf(s)
    decreases |s|
  {
    if s != [] {
      var l := LowerHex(s);
      LowerHexValue(s[..|s| - 1]);
      assert l[..|l| - 1] == LowerHex(s[..|s| - 1]);
    }
  }

  /** `int(..., 16)` reads back the lower-case format as well. */
  lemma ParseFormattedLower(n: nat, width: nat)
    ensures ParseHexInt(FormatLower(n, width)) == Ok(n)
  {
    var u := FormatUpper(n, width);
    var s := FormatLower(n, width);
    FormatUpperValue(n, width);
    LowerHexValue(u);
    if |s| >= 2 && s[0] == '0' {
      assert s[1] != 'x' && s[1] != 'X';
    }
  }
}
