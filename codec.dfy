/** The `struct` formats the gateway unpacks sensor readings with. All of
    them are little-endian ('<', or a single byte where order is moot), so
    a value is its bytes read lowest first; signed formats are two's
    complement. Unpacking raises struct.error when the byte count differs
    from the format's size. */
module Codec {
  import opened Outcomes
  import opened Hex

  datatype Triple = Triple(x: int, y: int, z: int)
  datatype Pair = Pair(first: int, second: int)

  predicate InU16(n: int) { 0 <= n < 0x1_0000 }
  predicate InU32(n: int) { 0 <= n < 0x1_0000_0000 }
  predicate InI16(n: int) { -0x8000 <= n < 0x8000 }
  predicate InI8(n: int) { -0x80 <= n < 0x80 }

  /** Two's complement reading of `u`, where `half` is 2^(bits - 1). */
  function Signed(u: nat, half: nat): (v: int)
    requires u < 2 * half
    ensures -(half as int) <= v < half
    ensures v >= 0 <==> u < half
  {
    if u >= half then u - 2 * half else u
  }

  // ---------------------------------------------------------------------
  // Single values

  /** `struct.unpack('<H', b)[0]`. */
  function U16(b: seq<byte>): (r: Result<nat>)
    ensures r.Ok? <==> |b| == 2
    ensures r.Err? ==> r.error == StructError
    ensures r.Ok? ==> InU16(r.value)
  {
    if |b| != 2 then Err(StructError) else Ok((b[0] as int) + 0x100 * (b[1] as int))
  }

  /** `struct.unpack('<I', b)[0]`. */
  function U32(b: seq<byte>): (r: Result<nat>)
    ensures r.Ok? <==> |b| == 4
    ensures r.Err? ==> r.error == StructError
    ensures r.Ok? ==> InU32(r.value)
  {
    if |b| != 4 then Err(StructError)
    else Ok((b[0] as int) + 0x100 * (b[1] as int) + 0x1_0000 * (b[2] as int) + 0x100_0000 * (b[3] as int))
  }

  /** `struct.unpack('<h', b)[0]`. */
  function I16(b: seq<byte>): (r: Result<int>)
    ensures r.Ok? <==> |b| == 2
    ensures r.Err? ==> r.error == StructError
    ensures r.Ok? ==> InI16(r.value)
    ensures r.Ok? ==> (r.value < 0 <==> b[1] >= 0x80)
  {
    if |b| != 2 then Err(StructError) else Ok(Signed((b[0] as int) + 0x100 * (b[1] as int), 0x8000))
  }

  /** `struct.unpack('b', b)[0]`: one signed byte. */
  function I8(b: seq<byte>): (r: Result<int>)
    ensures r.Ok? <==> |b| == 1
    ensures r.Err? ==> r.error == StructError
    ensures r.Ok? ==> InI8(r.value)
  {
    if |b| != 1 then Err(StructError) else Ok(Signed(b[0], 0x80))
  }

  // ---------------------------------------------------------------------
  // Records of several values

  /** `struct.unpack('<hhh', b)`: three signed 16-bit values from 6 bytes. */
  function I16Triple(b: seq<byte>): (r: Result<Triple>)
    ensures r.Ok? <==> |b| == 6
    ensures r.Err? ==> r.error == StructError
    ensures r.Ok? ==> InI16(r.value.x) && InI16(r.value.y) && InI16(r.value.z)
  {
    if |b| != 6 then Err(StructError)
    else Ok(Triple(I16(b[0..2]).value, I16(b[2..4]).value, I16(b[4..6]).value))
  }

  /** `struct.unpack('bbb', b)`: three signed bytes. */
  function I8Triple(b: seq<byte>): (r: Result<Triple>)
    ensures r.Ok? <==> |b| == 3
    ensures r.Err? ==> r.error == StructError
    ensures r.Ok? ==> InI8(r.value.x) && InI8(r.value.y) && InI8(r.value.z)
  {
    if |b| != 3 then Err(StructError)
    else Ok(Triple(I8(b[0..1]).value, I8(b[1..2]).value, I8(b[2..3]).value))
  }

  /** `struct.unpack('<hh', b)`. */
  function I16Pair(b: seq<byte>): (r: Result<Pair>)
    ensures r.Ok? <==> |b| == 4
    ensures r.Err? ==> r.error == StructError
    ensures r.Ok? ==> InI16(r.value.first) && InI16(r.value.second)
  {
    if |b| != 4 then Err(StructError) else Ok(Pair(I16(b[0..2]).value, I16(b[2..4]).value))
  }

  /** `struct.unpack('<HH', b)`. */
  function U16Pair(b: seq<byte>): (r: Result<Pair>)
    ensures r.Ok? <==> |b| == 4
    ensures r.Err? ==> r.error == StructError
    ensures r.Ok? ==> InU16(r.value.first) && InU16(r.value.second)
  {
    if |b| != 4 then Err(StructError) else Ok(Pair(U16(b[0..2]).value, U16(b[2..4]).value))
  }

  // ---------------------------------------------------------------------
  // The inverse direction: `struct.pack` with the same formats

  function PackU16(n: nat): (b: seq<byte>)
    requires InU16(n)
    ensures |b| == 2
  {
    [n % 0x100, n / 0x100]
  }

  function PackU32(n: nat): (b: seq<byte>)
    requires InU32(n)
    ensures |b| == 4
  {
    [n % 0x100, (n / 0x100) % 0x100, (n / 0x1_0000) % 0x100, n / 0x100_0000]
  }

  function PackI16(v: int): (b: seq<byte>)
    requires InI16(v)
    ensures |b| == 2
  {
    PackU16(if v < 0 then v + 0x1_0000 else v)
  }

  function PackI8(v: int): (b: seq<byte>)
    requires InI8(v)
    ensures |b| == 1
  {
    [if v < 0 then v + 0x100 else v]
  }

  lemma U16RoundTrip(n: nat)
    requires InU16(n)
    ensures U16(PackU16(n)) == Ok(n)
  {
  }

  lemma U16Injective(b: seq<byte>)
    requires |b| == 2
    ensures PackU16(U16(b).value) == b
  {
  }

  lemma U32RoundTrip(n: nat)
    requires InU32(n)
    ensures U32(PackU32(n)) == Ok(n)
  {
    var b := PackU32(n);
    var q1, q2, q3 := n / 0x100, n / 0x1_0000, n / 0x100_0000;
    assert n == b[0] + 0x100 * q1;
    assert q1 == b[1] + 0x100 * q2;
    assert q2 == b[2] + 0x100 * q3;
    assert q3 == b[3];
  }

  lemma U32Injective(b: seq<byte>)
    requires |b| == 4
    ensures PackU32(U32(b).value) == b
  {
    var n := U32(b).value;
    var hi: int := (b[1] as int) + 0x100 * (b[2] as int) + 0x1_0000 * (b[3] as int);
    assert n == (b[0] as int) + 0x100 * hi;
    assert n / 0x100 == hi && n % 0x100 == b[0];
    var hi2: int := (b[2] as int) + 0x100 * (b[3] as int);
    assert hi == (b[1] as int) + 0x100 * hi2;
    assert n / 0x1_0000 == hi2;
    assert n / 0x100_0000 == b[3];
  }

  lemma I16RoundTrip(v: int)
    requires InI16(v)
    ensures I16(PackI16(v)) == Ok(v)
  {
  }

  lemma I16Injective(b: seq<byte>)
    requires |b| == 2
    ensures PackI16(I16(b).value) == b
  {
  }

  lemma I8RoundTrip(v: int)
    requires InI8(v)
    ensures I8(PackI8(v)) == Ok(v)
  {
  }

  /** `<hhh` reads back three packed i16 values, in order. */
  lemma I16TripleRoundTrip(x: int, y: int, z: int)
    requires InI16(x) && InI16(y) && InI16(z)
    ensures I16Triple(PackI16(x) + PackI16(y) + PackI16(z)) == Ok(Triple(x, y, z))
  {
    var b := PackI16(x) + PackI16(y) + PackI16(z);
    assert b[0..2] == PackI16(x) && b[2..4] == PackI16(y) && b[4..6] == PackI16(z);
    I16RoundTrip(x);
    I16RoundTrip(y);
    I16RoundTrip(z);
  }

  /** `bbb` reads back three packed signed bytes, in order. */
  lemma I8TripleRoundTrip(x: int, y: int, z: int)
    requires InI8(x) && InI8(y) && InI8(z)
    ensures I8Triple(PackI8(x) + PackI8(y) + PackI8(z)) == Ok(Triple(x, y, z))
  {
    var b := PackI8(x) + PackI8(y) + PackI8(z);
    assert b[0..1] == PackI8(x) && b[1..2] == PackI8(y) && b[2..3] == PackI8(z);
    I8RoundTrip(x);
    I8RoundTrip(y);
    I8RoundTrip(z);
  }

  /** `<hh` reads back two packed i16 values, in order. */
  lemma I16PairRoundTrip(x: int, y: int)
    requires InI16(x) && InI16(y)
    ensures I16Pair(PackI16(x) + PackI16(y)) == Ok(Pair(x, y))
  {
    var b := PackI16(x) + PackI16(y);
    assert b[0..2] == PackI16(x) && b[2..4] == PackI16(y);
    I16RoundTrip(x);
    I16RoundTrip(y);
  }

  /** `<HH` reads back two packed u16 values, in order. */
  lemma U16PairRoundTrip(x: nat, y: nat)
    requires InU16(x) && InU16(y)
    ensures U16Pair(PackU16(x) + PackU16(y)) == Ok(Pair(x, y))
  {
    var b := PackU16(x) + PackU16(y);
    assert b[0..2] == PackU16(x) && b[2..4] == PackU16(y);
    U16RoundTrip(x);
    U16RoundTrip(y);
  }

  // ---------------------------------------------------------------------
  // Hex text first: `struct.unpack(fmt, text.decode('hex'))`

  /** Decoding hex text and then unpacking: TypeError from the hex step
      comes first, struct.error from the size check second. */
  function FromHex<T>(text: string, unpack: seq<byte> -> Result<T>): (r: Result<T>)
    ensures Unhexlify(text).Err? ==> r == Err(TypeError)
    ensures Unhexlify(text).Ok? ==> r == unpack(Unhexlify(text).value)
  {
    var b :- Unhexlify(text);
    unpack(b)
  }
}
