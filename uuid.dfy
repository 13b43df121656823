/** The gateway's UUID value (`UUID` in btle.py and its copy in btle_alt.py):
    built from an integer or from text, held as 16 bytes, printed in the
    lower-case 8-4-4-4-12 form, and compared and hashed through that form.
    Short forms are expanded against the Bluetooth Base UUID
    00000000-0000-1000-8000-00805F9B34FB (Bluetooth Core Specification 4.x,
    Vol 3, Part B, section 2.5.1). */
module Uuid {
  import opened Outcomes
  import opened Hex
  import Text

  /** `binVal`: the 16 bytes, most significant first. */
  datatype Uuid = Uuid(bin: seq<byte>)

  predicate Valid(u: Uuid) {
    |u.bin| == 16
  }

  /** The two kinds of constructor argument the gateway passes. */
  datatype Value = Int(n: int) | Str(s: string)

  /** The last 24 hex digits of the Bluetooth Base UUID,
      "00001000800000805F9B34FB", written in groups of four. */
  const BaseTail: string := ("0000" + "1000" + "8000") + ("0080" + "5F9B" + "34FB")

  /** The same 12 bytes as `BaseTail`, in the same groups. */
  const BaseBytes: seq<byte> := ([0x00, 0x00] + [0x10, 0x00] + [0x80, 0x00]) + ([0x00, 0x80] + [0x5F, 0x9B] + [0x34, 0xFB])

  /** An integer short form accepted by the constructor. */
  predicate ShortRange(n: int) {
    0 <= n <= 0xFFFFFFFF
  }

  /** Short-form expansion: left-pad to 8 digits, then append the base tail. */
  function Expand(s: string): (e: string)
    requires |s| <= 8
    ensures |e| == |s| + (8 - |s|) + |BaseTail|
  {
    Zeros(8 - |s|) + s + BaseTail
  }

  /** The hex text the constructor hands to `a2b_hex`: an integer must be
      in 0..0xFFFFFFFF (else ValueError) and is printed with `%04X`; text is
      taken as given; dashes are removed; at most 8 digits are expanded. */
  function HexText(v: Value): (r: Result<string>)
    ensures r.Err? <==> v.Int? && !ShortRange(v.n)
    ensures r.Err? ==> r.error == ValueError
    ensures r.Ok? ==> '-' !in r.value
  {
    var val :- if v.Int? then
        (if !ShortRange(v.n) then Err(ValueError) else Ok(FormatUpper(v.n, 4)))
      else Ok(v.s);
    var stripped := Text.Remove(val, '-');
    if |stripped| <= 8 then
      assert '-' !in BaseTail;
      assert '-' !in Zeros(8 - |stripped|);
      Ok(Expand(stripped))
    else Ok(stripped)
  }

  /** `UUID(val)`: a value that does not come to exactly 16 bytes raises
      ValueError; text that is not an even number of hex digits makes
      `a2b_hex` raise TypeError first. */
  function Parse(v: Value): (r: Result<Uuid>)
    ensures r.Ok? ==> Valid(r.value)
    ensures r.Err? ==> r.error == ValueError || r.error == TypeError
    ensures r.Ok? <==> HexText(v).Ok? && |HexText(v).value| == 32 && AllHex(HexText(v).value)
    ensures r.Err? && r.error == TypeError <==>
              HexText(v).Ok? && (|HexText(v).value| % 2 != 0 || !AllHex(HexText(v).value))
  {
    var hex :- HexText(v);
    var bin :- Unhexlify(hex);
    if |bin| != 16 then Err(ValueError) else Ok(Uuid(bin))
  }

  /** `str(u)`: the 32 lower-case digits of `b2a_hex` split 8-4-4-4-12. */
  function ToString(u: Uuid): (s: string)
    requires Valid(u)
    ensures |s| == 36
    ensures s[8] == '-' && s[13] == '-' && s[18] == '-' && s[23] == '-'
    ensures forall i | 0 <= i < 36 && i != 8 && i != 13 && i != 18 && i != 23 :: IsLowerHexDigit(s[i])
  {
    HexlifyLower(u.bin);
    Dashed(Hexlify(u.bin))
  }

  /** 32 digits split 8-4-4-4-12 by four dashes. */
  function Dashed(h: string): (s: string)
    requires |h| == 32
    ensures |s| == 36
    ensures s[8] == '-' && s[13] == '-' && s[18] == '-' && s[23] == '-'
    ensures forall i | 0 <= i < 8 :: s[i] == h[i]
    ensures forall i | 9 <= i < 13 :: s[i] == h[i - 1]
    ensures forall i | 14 <= i < 18 :: s[i] == h[i - 2]
    ensures forall i | 19 <= i < 23 :: s[i] == h[i - 3]
    ensures forall i | 24 <= i < 36 :: s[i] == h[i - 4]
  {
    h[0..8] + "-" + h[8..12] + "-" + h[12..16] + "-" + h[16..20] + "-" + h[20..32]
  }

  /** `__cmp__` / `__hash__`: two UUIDs are the same when they print the same. */
  predicate Same(a: Uuid, b: Uuid)
    requires Valid(a) && Valid(b)
  {
    ToString(a) == ToString(b)
  }

  lemma RemoveDashJoin(x: string, y: string)
    requires '-' !in y
    ensures Text.Remove(x + "-" + y, '-') == Text.Remove(x, '-') + y
  {
    var d := "-";
    assert Text.Remove(d, '-') == "" by {
      assert d[0] == '-' && d[1..] == "";
    }
    Text.RemoveAppend(x, d, '-');
    assert Text.Remove(x + d, '-') == Text.Remove(x, '-');
    Text.RemoveAppend(x + d, y, '-');
    assert Text.Remove(y, '-') == y;
  }

  lemma RemoveDashesOfString(u: Uuid)
    requires Valid(u)
    ensures Text.Remove(ToString(u), '-') == Hexlify(u.bin)
  {
    HexlifyLower(u.bin);
    RemoveDashed(Hexlify(u.bin));
  }

  lemma RemoveDashed(h: string)
    requires |h| == 32 && '-' !in h
    ensures Text.Remove(Dashed(h), '-') == h
  {
    var p1, p2, p3, p4, p5 := h[0..8], h[8..12], h[12..16], h[16..20], h[20..32];
    assert '-' !in p1 && '-' !in p2 && '-' !in p3 && '-' !in p4 && '-' !in p5;
    RemoveDashedParts(p1, p2, p3, p4, p5);
    assert h == p1 + p2 + p3 + p4 + p5;
  }

  lemma RemoveDashedParts(p1: string, p2: string, p3: string, p4: string, p5: string)
    requires '-' !in p1 && '-' !in p2 && '-' !in p3 && '-' !in p4 && '-' !in p5
    ensures Text.Remove(p1 + "-" + p2 + "-" + p3 + "-" + p4 + "-" + p5, '-') == p1 + p2 + p3 + p4 + p5
  {
    RemoveDashJoin(p1, p2);
    RemoveDashJoin(p1 + "-" + p2, p3);
    RemoveDashJoin(p1 + "-" + p2 + "-" + p3, p4);
    RemoveDashJoin(p1 + "-" + p2 + "-" + p3 + "-" + p4, p5);
  }

  /** Printing and parsing again gives the same UUID: `UUID(str(u)) == u`. */
  lemma ParseToString(u: Uuid)
    requires Valid(u)
    ensures Parse(Str(ToString(u))) == Ok(u)
  {
    RemoveDashesOfString(u);
    assert HexText(Str(ToString(u))) == Ok(Hexlify(u.bin));
    UnhexlifyHexlify(u.bin);
  }

  /** Comparing printed forms is comparing values: `Same` is equality. */
  lemma SameIsEquality(a: Uuid, b: Uuid)
    requires Valid(a) && Valid(b)
    ensures Same(a, b) <==> a == b
  {
    if Same(a, b) {
      ParseToString(a);
      ParseToString(b);
    }
  }

  /** Parsing text and printing it gives the text back in lower case with
      the dashes at their canonical places, whatever dashes it had. */
  lemma ToStringOfParse(v: Value)
    requires Parse(v).Ok?
    ensures Text.Remove(ToString(Parse(v).value), '-') == LowerHex(HexText(v).value)
  {
    var u := Parse(v).value;
    RemoveDashesOfString(u);
    HexlifyUnhexlify(HexText(v).value);
  }

  // ---------------------------------------------------------------------
  // Short forms

  /** `n` as `k` bytes, most significant first (`n` must fit). */
  function BigEndian(n: nat, k: nat): (b: seq<byte>)
    ensures |b| == k
  {
    if k == 0 then [] else BigEndian(n / 256, k - 1) + [n % 256]
  }

  lemma {:induction false} PairsAppend(a: string, b: string)
    requires |a| % 2 == 0 && AllHex(a) && |b| % 2 == 0 && AllHex(b)
    ensures AllHex(a + b) && Pairs(a + b) == Pairs(a) + Pairs(b)
    decreases |a|
  {
    if a == [] {
      assert a + b == b;
    } else {
      PairsAppend(a[2..], b);
      assert (a + b)[2..] == a[2..] + b;
      assert (a + b)[0] == a[0] && (a + b)[1] == a[1];
      var x := PairValue(a[0], a[1]);
      assert Pairs(a + b) == [x] + (Pairs(a[2..]) + Pairs(b));
      assert Pairs(a) == [x] + Pairs(a[2..]);
      assert [x] + (Pairs(a[2..]) + Pairs(b)) == ([x] + Pairs(a[2..])) + Pairs(b);
    }
  }

  /** The last two digits of a hex string are its low byte. */
  lemma ValueOfLastPair(s: string)
    requires |s| >= 2 && AllHex(s)
    ensures ValueOf(s) == 256 * ValueOf(s[..|s| - 2]) + PairValue(s[|s| - 2], s[|s| - 1])
  {
    var n := |s|;
    assert s[..n - 1][..n - 2] == s[..n - 2];
  }

  /** An even run of hex digits decodes to the big-endian bytes of its value. */
  lemma {:induction false} PairsValue(s: string)
    requires |s| % 2 == 0 && AllHex(s)
    ensures Pairs(s) == BigEndian(ValueOf(s), |s| / 2)
    decreases |s|
  {
    if s != [] {
      var n := |s|;
      var init := s[..n - 2];
      var k := |init| / 2;
      assert n / 2 == k + 1;
      var r := PairValue(s[n - 2], s[n - 1]);
      var v := ValueOf(init);
      assert Pairs(s) == Pairs(init) + [r] by { PairsSplitLast(s); }
      assert Pairs(init) == BigEndian(v, k) by { PairsValue(init); }
      assert ValueOf(s) == 256 * v + r by { ValueOfLastPair(s); }
      assert BigEndian(256 * v + r, k + 1) == BigEndian(v, k) + [r] by { BigEndianStep(v, r, k); }
      assert BigEndian(ValueOf(s), |s| / 2) == BigEndian(256 * v + r, k + 1);
    }
  }

  lemma PairsSplitLast(s: string)
    requires |s| >= 2 && |s| % 2 == 0 && AllHex(s)
    ensures Pairs(s) == Pairs(s[..|s| - 2]) + [PairValue(s[|s| - 2], s[|s| - 1])]
  {
    var n := |s|;
    var init, last := s[..n - 2], s[n - 2..];
    assert s == init + last;
    PairsAppend(init, last);
    assert Pairs(last) == [PairValue(s[n - 2], s[n - 1])];
  }

  lemma BigEndianStep(a: nat, r: nat, k: nat)
    requires r < 256
    ensures BigEndian(256 * a + r, k + 1) == BigEndian(a, k) + [r]
  {
    DivMod256(a, r);
  }

  lemma DivMod256(a: nat, r: nat)
    requires r < 256
    ensures (256 * a + r) / 256 == a && (256 * a + r) % 256 == r
  {
  }

  /** The constructor turns an in-range integer `n` into the Base UUID with
      `n` in its first four bytes. */
  lemma ShortFormBytes(n: int)
    requires ShortRange(n)
    ensures Parse(Int(n)) == Ok(Uuid(BigEndian(n, 4) + BaseBytes))
  {
    var d := FormatUpper(n, 4);
    assert Pow16(8) == 0x1_0000_0000;
    UpperDigitsLength(n, 8);
    assert |d| <= 8;
    assert Text.Remove(d, '-') == d;
    var p := Zeros(8 - |d|) + d;
    assert HexText(Int(n)) == Ok(p + BaseTail);
    assert AllHex(p) by {
      LeadingZerosValue(8 - |d|, d);
    }
    assert ValueOf(p) == n by {
      LeadingZerosValue(8 - |d|, d);
      FormatUpperValue(n, 4);
    }
    PairsValue(p);
    BaseTailBytes();
    PairsAppend(p, BaseTail);
  }

  /** `BaseTail` and `BaseBytes` spell the same 12 bytes. */
  lemma BaseTailBytes()
    ensures AllHex(BaseTail) && |BaseTail| % 2 == 0 && Pairs(BaseTail) == BaseBytes
  {
    var h1, h2 := "0000" + "1000" + "8000", "0080" + "5F9B" + "34FB";
    Sextet("0000", "1000", "8000", 0x00, 0x00, 0x10, 0x00, 0x80, 0x00);
    Sextet("0080", "5F9B", "34FB", 0x00, 0x80, 0x5F, 0x9B, 0x34, 0xFB);
    PairsAppend(h1, h2);
  }

  lemma Sextet(q1: string, q2: string, q3: string, b1: byte, b2: byte, b3: byte, b4: byte, b5: byte, b6: byte)
    requires |q1| == 4 && AllHex(q1) && PairValue(q1[0], q1[1]) == b1 && PairValue(q1[2], q1[3]) == b2
    requires |q2| == 4 && AllHex(q2) && PairValue(q2[0], q2[1]) == b3 && PairValue(q2[2], q2[3]) == b4
    requires |q3| == 4 && AllHex(q3) && PairValue(q3[0], q3[1]) == b5 && PairValue(q3[2], q3[3]) == b6
    ensures AllHex(q1 + q2 + q3) && Pairs(q1 + q2 + q3) == [b1, b2] + [b3, b4] + [b5, b6]
  {
    QuadBytes(q1, b1, b2);
    QuadBytes(q2, b3, b4);
    QuadBytes(q3, b5, b6);
    PairsAppend(q1, q2);
    PairsAppend(q1 + q2, q3);
  }

  lemma QuadBytes(q: string, hi: byte, lo: byte)
    requires |q| == 4 && AllHex(q)
    requires PairValue(q[0], q[1]) == hi && PairValue(q[2], q[3]) == lo
    ensures Pairs(q) == [hi, lo]
  {
  }

  /** An integer of at most eight digits and its `%04X` text are the same UUID. */
  lemma IntAndTextAgree(n: int)
    requires ShortRange(n)
    ensures Parse(Int(n)) == Parse(Str(FormatUpper(n, 4)))
  {
  }

  /** `UUID(0x2902) == UUID("00002902-0000-1000-8000-00805f9b34fb")`: the
      Client Characteristic Configuration descriptor in both spellings. */
  lemma ClientConfigurationDescriptor()
    ensures Parse(Int(0x2902)).Ok?
    ensures ToString(Parse(Int(0x2902)).value) == "00002902-0000-1000-8000-00805f9b34fb"
    ensures Parse(Int(0x2902)) == Parse(Str("00002902-0000-1000-8000-00805f9b34fb"))
  {
    var head: seq<byte> := [0x00, 0x00] + [0x29, 0x02];
    assert BigEndian(0x2902, 4) == head;
    ShortFormBytes(0x2902);
    var u := Uuid(head + BaseBytes);
    assert ToString(u) == "00002902-0000-1000-8000-00805f9b34fb" by {
      DescriptorDigits(head);
      DescriptorText("0000" + "2902", "0000", "1000", "8000", "0080" + "5f9b" + "34fb");
    }
    ParseToString(u);
  }

  lemma DescriptorDigits(head: seq<byte>)
    requires head == [0x00, 0x00] + [0x29, 0x02]
    ensures Hexlify(head + BaseBytes) == ("0000" + "2902") + (("0000" + "1000" + "8000") + ("0080" + "5f9b" + "34fb"))
  {
    var a: seq<byte>, b: seq<byte>, c: seq<byte> := [0x00, 0x00], [0x10, 0x00], [0x80, 0x00];
    var d: seq<byte>, e: seq<byte>, f: seq<byte> := [0x00, 0x80], [0x5F, 0x9B], [0x34, 0xFB];
    HexPair(0x00, 0x00, "0000");
    HexPair(0x29, 0x02, "2902");
    HexPair(0x10, 0x00, "1000");
    HexPair(0x80, 0x00, "8000");
    HexPair(0x00, 0x80, "0080");
    HexPair(0x5F, 0x9B, "5f9b");
    HexPair(0x34, 0xFB, "34fb");
    HexlifyAppend([0x00, 0x00], [0x29, 0x02]);
    HexlifyAppend(a, b);
    HexlifyAppend(a + b, c);
    HexlifyAppend(d, e);
    HexlifyAppend(d + e, f);
    HexlifyAppend(a + b + c, d + e + f);
    HexlifyAppend(head, BaseBytes);
  }

  lemma DescriptorText(p1: string, p2: string, p3: string, p4: string, p5: string)
    requires p1 == "0000" + "2902" && p2 == "0000" && p3 == "1000" && p4 == "8000" && p5 == "0080" + "5f9b" + "34fb"
    ensures Dashed(p1 + ((p2 + p3 + p4) + p5)) == "00002902-0000-1000-8000-00805f9b34fb"
  {
    assert p1 + ((p2 + p3 + p4) + p5) == p1 + p2 + p3 + p4 + p5;
    DashedParts(p1, p2, p3, p4, p5);
    DescriptorLiteral();
  }

  lemma DescriptorLiteral()
    ensures ("0000" + "2902") + "-" + "0000" + "-" + "1000" + "-" + "8000" + "-" + ("0080" + "5f9b" + "34fb")
      == "00002902-0000-1000-8000-00805f9b34fb"
  {
  }

  lemma HexPair(x: byte, y: byte, s: string)
    requires |s| == 4
    requires s[0] == LowerDigit(x / 16) && s[1] == LowerDigit(x % 16)
    requires s[2] == LowerDigit(y / 16) && s[3] == LowerDigit(y % 16)
    ensures Hexlify([x, y]) == s
  {
    assert [x, y][1..] == [y];
  }

  lemma {:induction false} HexlifyAppend(a: seq<byte>, b: seq<byte>)
    ensures Hexlify(a + b) == Hexlify(a) + Hexlify(b)
    decreases |a|
  {
    if a != [] {
      HexlifyAppend(a[1..], b);
      assert (a + b)[1..] == a[1..] + b;
    } else {
      assert a + b == b;
    }
  }

  lemma DashedParts(p1: string, p2: string, p3: string, p4: string, p5: string)
    requires |p1| == 8 && |p2| == 4 && |p3| == 4 && |p4| == 4 && |p5| == 12
    ensures Dashed(p1 + p2 + p3 + p4 + p5) == p1 + "-" + p2 + "-" + p3 + "-" + p4 + "-" + p5
  {
    var h := p1 + p2 + p3 + p4 + p5;
    assert h[0..8] == p1 && h[8..12] == p2 && h[12..16] == p3 && h[16..20] == p4 && h[20..32] == p5;
  }
}
