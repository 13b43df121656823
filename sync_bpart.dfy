/** The synchronous bPart of bpart_sync/bpart.py: the UUIDs derived from a
    sensor number, the binding of each sensor to the data characteristic of
    its service, the order `BPart.__init__` builds a device in, and the
    integer values the four sensors' `read` methods unpack.

    The `btle` module that file imports (a synchronous Peripheral) is not
    part of this model: its UUID is taken to be the UUID of btle.py, its
    service lookup and characteristic filter those of btle.py's Peripheral
    and Service, and its connection and reads are given as their outcomes. */
module SyncBPart {
  import opened Outcomes
  import opened Hex
  import Uuid
  import Gatt
  import Btle
  import Codec
  import AsyncBPart

  type Channel = AsyncBPart.Channel

  /** The number every bPart UUID's first group is counted from. */
  const Base: nat := 0x4B822000

  /** `"%08X-3941-4a4b-a3cc-b2602ffe0d00" % (0x4B822000 + val)`. */
  function BPartUuidText(v: nat): (t: string)
    ensures |t| >= 36
  {
    FormatUpper(Base + v, 8) + "-" + "3941" + "-" + "4a4b" + "-" + "a3cc" + "-" + "b2602ffe0d00"
  }

  /** `_bpart_UUID(val)`. */
  function BPartUuid(v: nat): (r: Result<Uuid.Uuid>)
    ensures r.Ok? ==> Uuid.Valid(r.value)
  {
    Uuid.Parse(Uuid.Str(BPartUuidText(v)))
  }

  /** Text of an eight-digit first group and four lower-case groups parses,
      and prints as the first group in lower case and the other groups as
      they were. */
  lemma PrintsAs(f: string, p2: string, p3: string, p4: string, p5: string)
    requires |f| == 8 && AllHex(f)
    requires |p2| == 4 && |p3| == 4 && |p4| == 4 && |p5| == 12
    requires AllLowerHex(p2) && AllLowerHex(p3) && AllLowerHex(p4) && AllLowerHex(p5)
    ensures Uuid.Parse(Uuid.Str(f + "-" + p2 + "-" + p3 + "-" + p4 + "-" + p5)).Ok?
    ensures Uuid.ToString(Uuid.Parse(Uuid.Str(f + "-" + p2 + "-" + p3 + "-" + p4 + "-" + p5)).value)
         == LowerHex(f) + "-" + p2 + "-" + p3 + "-" + p4 + "-" + p5
  {
    var text := Uuid.Str(f + "-" + p2 + "-" + p3 + "-" + p4 + "-" + p5);
    assert '-' !in f && '-' !in p2 && '-' !in p3 && '-' !in p4 && '-' !in p5 by {
      assert !IsHexDigit('-');
    }
    Uuid.RemoveDashedParts(f, p2, p3, p4, p5);
    var hex := f + p2 + p3 + p4 + p5;
    assert Uuid.HexText(text) == Ok(hex);
    assert |hex| == 32 && AllHex(hex);
    var u := Uuid.Parse(text).value;
    Uuid.ToStringOfParse(text);
    Uuid.RemoveDashesOfString(u);
    var h := Hexlify(u.bin);
    assert h == LowerHex(hex);
    LowerHexGroups(f, p2, p3, p4, p5);
    assert Uuid.ToString(u) == Uuid.Dashed(h);
    Uuid.DashedParts(LowerHex(f), p2, p3, p4, p5);
  }

  /** Folding to lower case changes only the first group: the others are
      lower case already. */
  lemma LowerHexGroups(f: string, p2: string, p3: string, p4: string, p5: string)
    requires AllLowerHex(p2) && AllLowerHex(p3) && AllLowerHex(p4) && AllLowerHex(p5)
    ensures LowerHex(f + p2 + p3 + p4 + p5) == LowerHex(f) + p2 + p3 + p4 + p5
  {
    var x, y := f + p2 + p3 + p4 + p5, LowerHex(f) + p2 + p3 + p4 + p5;
    forall i | |f| <= i < |x| ensures LowerHex(x)[i] == y[i] {
      assert IsLowerHexDigit(x[i]);
    }
  }

  /** Every first group that fits in eight digits makes a valid UUID, which
      prints as the same digits in lower case followed by the fixed tail. */
  lemma BPartUuidPrints(v: nat)
    requires Base + v < 0x1_0000_0000
    ensures BPartUuid(v).Ok?
    ensures Uuid.ToString(BPartUuid(v).value)
         == LowerHex(FormatUpper(Base + v, 8)) + "-" + "3941" + "-" + "4a4b" + "-" + "a3cc" + "-" + "b2602ffe0d00"
  {
    var n := Base + v;
    assert Pow16(8) == 0x1_0000_0000;
    UpperDigitsLength(n, 8);
    FormatUpperShape(n, 8);
    PrintsAs(FormatUpper(n, 8), "3941", "4a4b", "a3cc", "b2602ffe0d00");
  }

  /** The sensor number whose last two hex digits are `a` and `b`. */
  function SensorNumber(a: nat, b: nat): nat {
    0xF00 + 16 * a + b
  }

  /** One more digit at the low end. */
  lemma UpperDigitsStep(m: nat, d: nat)
    requires 1 <= m && d < 16
    ensures UpperDigits(16 * m + d) == UpperDigits(m) + [UpperDigit(d)]
  {
    var n := 16 * m + d;
    assert n / 16 == m && n % 16 == d;
  }

  /** The digits of 0x4B822F, the bPart range. */
  lemma RangePrefix()
    ensures UpperDigits(0x4B822F) == [UpperDigit(4), UpperDigit(11), UpperDigit(8), UpperDigit(2), UpperDigit(2), UpperDigit(15)]
  {
    UpperDigitsStep(4, 11);
    UpperDigitsStep(0x4B, 8);
    UpperDigitsStep(0x4B8, 2);
    UpperDigitsStep(0x4B82, 2);
    UpperDigitsStep(0x4B822, 15);
  }

  /** The digits of a number in the bPart range "4B822Fab". */
  lemma RangeDigits(a: nat, b: nat)
    requires a < 16 && b < 16
    ensures FormatUpper(Base + SensorNumber(a, b), 8)
         == [UpperDigit(4), UpperDigit(11), UpperDigit(8), UpperDigit(2), UpperDigit(2), UpperDigit(15), UpperDigit(a), UpperDigit(b)]
  {
    RangePrefix();
    UpperDigitsStep(0x4B822F, a);
    UpperDigitsStep(0x4B822F * 16 + a, b);
    assert Base + SensorNumber(a, b) == 16 * (0x4B822F * 16 + a) + b;
  }

  /** How the first group of the number 0xF00 + 16a + b prints. */
  function GroupOf(a: nat, b: nat): (g: string)
    requires a < 16 && b < 16
    ensures |g| == 8
  {
    [LowerDigit(4), LowerDigit(11), LowerDigit(8), LowerDigit(2), LowerDigit(2), LowerDigit(15), LowerDigit(a), LowerDigit(b)]
  }

  /** The first group of a number in the bPart range, in lower case. */
  lemma RangeGroup(a: nat, b: nat)
    requires a < 16 && b < 16
    ensures LowerHex(FormatUpper(Base + SensorNumber(a, b), 8)) == GroupOf(a, b)
  {
    RangeDigits(a, b);
    var f := FormatUpper(Base + SensorNumber(a, b), 8);
    forall i | 0 <= i < 8 ensures LowerHex(f)[i] == LowerDigit(DigitValue(f[i])) {
      LowerDigitOf(f[i]);
    }
  }

  /** The UUID of the sensor numbered 0xF00 + 16a + b prints as
      "4b822fab-3941-4a4b-a3cc-b2602ffe0d00" with the digits in lower case. */
  lemma RangeUuid(a: nat, b: nat)
    requires a < 16 && b < 16
    ensures BPartUuid(SensorNumber(a, b)).Ok?
    ensures Uuid.ToString(BPartUuid(SensorNumber(a, b)).value)
         == GroupOf(a, b) + "-" + "3941" + "-" + "4a4b" + "-" + "a3cc" + "-" + "b2602ffe0d00"
  {
    BPartUuidPrints(SensorNumber(a, b));
    RangeGroup(a, b);
  }

  // ---------------------------------------------------------------------
  // The four sensors

  /** The hex digit that tells the four bPart services apart. */
  function ServiceDigit(ch: Channel): (a: nat)
    ensures a < 4
  {
    match ch
    case Temperature => 2
    case Light => 0
    case Humidity => 3
    case Acceleration => 1
  }

  /** `svcUUID` of each sensor class, as a sensor number: 0xF20 for the
      temperature, 0xF00 for light, 0xF30 for humidity, 0xF10 for the
      accelerometer (`SensorNumbers`). */
  function ServiceOffset(ch: Channel): (v: nat)
    ensures 0xF00 <= v < 0xF40
  {
    SensorNumber(ServiceDigit(ch), 0)
  }

  /** `dataUUID` of each sensor class: the number after its service's. */
  function DataOffset(ch: Channel): (v: nat)
    ensures v == ServiceOffset(ch) + 1
  {
    SensorNumber(ServiceDigit(ch), 1)
  }

  /** The numbers the four sensor classes are declared with. */
  lemma SensorNumbers()
    ensures ServiceOffset(AsyncBPart.Temperature) == 0xF20 && DataOffset(AsyncBPart.Temperature) == 0xF21
    ensures ServiceOffset(AsyncBPart.Light) == 0xF00 && DataOffset(AsyncBPart.Light) == 0xF01
    ensures ServiceOffset(AsyncBPart.Humidity) == 0xF30 && DataOffset(AsyncBPart.Humidity) == 0xF31
    ensures ServiceOffset(AsyncBPart.Acceleration) == 0xF10 && DataOffset(AsyncBPart.Acceleration) == 0xF11
  {
  }

  /** How the first group of a sensor's service UUID prints. */
  function ServiceGroup(ch: Channel): (g: string)
    ensures |g| == 8
  {
    GroupOf(ServiceDigit(ch), 0)
  }

  /** How the first group of a sensor's data UUID prints. */
  function DataGroup(ch: Channel): (g: string)
    ensures |g| == 8
  {
    GroupOf(ServiceDigit(ch), 1)
  }

  /** Each sensor's service UUID prints as its first group and the shared
      tail. */
  lemma ServiceUuidPrints(ch: Channel)
    ensures BPartUuid(ServiceOffset(ch)).Ok?
    ensures Uuid.ToString(BPartUuid(ServiceOffset(ch)).value) == ServiceGroup(ch) + "-" + "3941" + "-" + "4a4b" + "-" + "a3cc" + "-" + "b2602ffe0d00"
  {
    RangeUuid(ServiceDigit(ch), 0);
  }

  /** Each sensor's data UUID prints as its first group and the shared
      tail. */
  lemma DataUuidPrints(ch: Channel)
    ensures BPartUuid(DataOffset(ch)).Ok?
    ensures Uuid.ToString(BPartUuid(DataOffset(ch)).value) == DataGroup(ch) + "-" + "3941" + "-" + "4a4b" + "-" + "a3cc" + "-" + "b2602ffe0d00"
  {
    RangeUuid(ServiceDigit(ch), 1);
  }

  // The service UUID texts of the asynchronous gateway, split into their
  // five groups.

  lemma TemperatureText()
    ensures AsyncBPart.TemperatureUuid == "4b822f20" + "-" + "3941" + "-" + "4a4b" + "-" + "a3cc" + "-" + "b2602ffe0d00"
  {
  }

  lemma LightText()
    ensures AsyncBPart.LightUuid == "4b822f00" + "-" + "3941" + "-" + "4a4b" + "-" + "a3cc" + "-" + "b2602ffe0d00"
  {
  }

  lemma HumidityText()
    ensures AsyncBPart.HumidityUuid == "4b822f30" + "-" + "3941" + "-" + "4a4b" + "-" + "a3cc" + "-" + "b2602ffe0d00"
  {
  }

  lemma AccelerationText()
    ensures AsyncBPart.AccelerationUuid == "4b822f10" + "-" + "3941" + "-" + "4a4b" + "-" + "a3cc" + "-" + "b2602ffe0d00"
  {
  }

  /** The UUID texts of the asynchronous gateway have the same shape. */
  lemma AsyncServiceUuid(ch: Channel)
    ensures AsyncBPart.ServiceUuid(ch) == ServiceGroup(ch) + "-" + "3941" + "-" + "4a4b" + "-" + "a3cc" + "-" + "b2602ffe0d00"
  {
    match ch
    case Temperature =>
      TemperatureText();
      assert ServiceGroup(ch) == "4b822f20";
    case Light =>
      LightText();
      assert ServiceGroup(ch) == "4b822f00";
    case Humidity =>
      HumidityText();
      assert ServiceGroup(ch) == "4b822f30";
    case Acceleration =>
      AccelerationText();
      assert ServiceGroup(ch) == "4b822f10";
  }

  /** The service of each sensor is the one the asynchronous gateway routes
      that sensor's notifications by: `str(_bpart_UUID(0xF20))` is its
      temperature service UUID, and so on for the other three. */
  lemma ServiceUuidsAgree(ch: Channel)
    ensures BPartUuid(ServiceOffset(ch)).Ok?
    ensures Uuid.ToString(BPartUuid(ServiceOffset(ch)).value) == AsyncBPart.ServiceUuid(ch)
  {
    ServiceUuidPrints(ch);
    AsyncServiceUuid(ch);
  }

  /** A sensor object: the service it was found in and its data
      characteristic. */
  datatype Sensor = Sensor(service: Gatt.Service, data: Gatt.Characteristic)

  /** The second half of `SensorBase.__init__`: the service's
      characteristics are filtered by the data UUID (fetched with the
      gatttool text `chars` gives for its handle range when the cache is
      empty) and the first match is taken, an IndexError when none does.
      The service comes back with its cache as the call left it. */
  function BindData(svc: Gatt.Service, ch: Channel, chars: (string, string) -> string): (r: (Gatt.Service, Result<Sensor>))
    ensures r.0.uuid == svc.uuid && r.0.hndStart == svc.hndStart && r.0.hndEnd == svc.hndEnd
    ensures r.1.Err? ==> !r.1.error.Transport()
    ensures r.1.Ok? ==> BPartUuid(DataOffset(ch)).Ok?
                        && r.1.value.service == r.0 && r.0.chars.Some?
                        && r.1.value.data in r.0.chars.value
                        && r.1.value.data.uuid == BPartUuid(DataOffset(ch)).value
  {
    match BPartUuid(DataOffset(ch))
    case Err(e) => (svc, Err(e))
    case Ok(du) =>
      Uuid.ParseToString(du);
      var (svc1, res) := Gatt.ServiceChars(svc, chars(svc.hndStart, svc.hndEnd), Some(Uuid.Str(Uuid.ToString(du))));
      match res
      case Err(e) => (svc1, Err(e))
      case Ok(cs) => if |cs| == 0 then (svc1, Err(IndexError)) else (svc1, Ok(Sensor(svc1, cs[0])))
  }

  /** `SensorBase.__init__`: the service is looked up by the class's
      service UUID (KeyError when the device has no such service), then
      bound by `BindData`; the service with its cache filled is stored back
      under its key. */
  function BindSensor(d: Gatt.Services, ch: Channel, chars: (string, string) -> string): (r: (Gatt.Services, Result<Sensor>))
    ensures Gatt.Keys(r.0) == Gatt.Keys(d) && |r.0| == |d|
    ensures r.1.Ok? ==> BPartUuid(ServiceOffset(ch)).Ok?
                        && Uuid.ToString(BPartUuid(ServiceOffset(ch)).value) in Gatt.Keys(d)
    ensures r.1.Ok? ==> BPartUuid(DataOffset(ch)).Ok? && r.1.value.data.uuid == BPartUuid(DataOffset(ch)).value
    ensures BPartUuid(ServiceOffset(ch)).Ok? && Uuid.ToString(BPartUuid(ServiceOffset(ch)).value) !in Gatt.Keys(d) ==>
              r == (d, Err(KeyError))
  {
    match BPartUuid(ServiceOffset(ch))
    case Err(e) => (d, Err(e))
    case Ok(su) =>
      var key := Uuid.ToString(su);
      Uuid.ParseToString(su);
      match Btle.ServiceIndex(d, Uuid.Str(key))
      case Err(e) => (d, Err(e))
      case Ok(i) =>
        var (svc1, res) := BindData(d[i].1, ch, chars);
        (Gatt.Put(d, key, svc1), res)
  }

  /** With its characteristics at hand, a service without one of the data
      UUID fails with IndexError: `[0]` of an empty list. */
  lemma NoDataCharacteristic(svc: Gatt.Service, ch: Channel, chars: (string, string) -> string)
    requires BPartUuid(DataOffset(ch)).Ok?
    requires Gatt.FetchSucceeds(svc, chars(svc.hndStart, svc.hndEnd))
    requires var cs := Gatt.ServiceChars(svc, chars(svc.hndStart, svc.hndEnd), None).0.chars.value;
      forall c | c in cs :: c.uuid != BPartUuid(DataOffset(ch)).value
    ensures BindData(svc, ch, chars).1 == Err(IndexError)
  {
    var du := BPartUuid(DataOffset(ch)).value;
    Uuid.ParseToString(du);
    var text := chars(svc.hndStart, svc.hndEnd);
    var cs := Gatt.ServiceChars(svc, text, None).0.chars.value;
    var r := Gatt.ServiceChars(svc, text, Some(Uuid.Str(Uuid.ToString(du))));
    assert r.0.chars.value == cs;
    assert r.1 == Ok(Gatt.Matching(cs, du));
    Gatt.MatchingNone(cs, du);
  }

  /** A device: its address, its services, and the four sensors
      `BPart.__init__` binds. */
  datatype Device = Device(deviceAddr: string, services: Gatt.Services,
                           temperature: Sensor, light: Sensor, humidity: Sensor, acceleration: Sensor)

  /** `BPart(addr)`: the Peripheral's connection (given as its outcome),
      `discoverServices` on the gatttool listing `primary`, then the
      Temperature, Light, Humidity and Acceleration sensors in that order;
      the first failure is what escapes. */
  function Open(addr: string, link: Outcome, primary: string, chars: (string, string) -> string): (r: Result<Device>)
    ensures link.Fail? ==> r == Err(link.error)
    ensures r.Ok? ==> link.Pass? && r.value.deviceAddr == addr
  {
    if link.Fail? then Err(link.error)
    else
      var (d0, o) := Btle.DiscoverFrom([], Gatt.Lines(primary));
      if o.Fail? then Err(o.error)
      else
        var (d1, t) := BindSensor(d0, AsyncBPart.Temperature, chars);
        var temperature :- t;
        var (d2, l) := BindSensor(d1, AsyncBPart.Light, chars);
        var light :- l;
        var (d3, h) := BindSensor(d2, AsyncBPart.Humidity, chars);
        var humidity :- h;
        var (d4, a) := BindSensor(d3, AsyncBPart.Acceleration, chars);
        var acceleration :- a;
        Ok(Device(addr, d4, temperature, light, humidity, acceleration))
  }

  /** The attribute of a device that holds a sensor. */
  function SensorOf(dev: Device, ch: Channel): (s: Sensor)
    ensures s in {dev.temperature, dev.light, dev.humidity, dev.acceleration}
  {
    match ch
    case Temperature => dev.temperature
    case Light => dev.light
    case Humidity => dev.humidity
    case Acceleration => dev.acceleration
  }

  /** A device is only built when discovery found all four bPart services
      and each sensor holds a characteristic of its own data UUID; it keeps
      the address it was opened with. */
  lemma OpenedDevice(addr: string, link: Outcome, primary: string, chars: (string, string) -> string, ch: Channel)
    requires Open(addr, link, primary, chars).Ok?
    ensures var dev := Open(addr, link, primary, chars).value;
      && link.Pass? && dev.deviceAddr == addr
      && BPartUuid(ServiceOffset(ch)).Ok?
      && Uuid.ToString(BPartUuid(ServiceOffset(ch)).value) in Gatt.Keys(dev.services)
      && BPartUuid(DataOffset(ch)) == Ok(SensorOf(dev, ch).data.uuid)
  {
    var d0 := Btle.DiscoverFrom([], Gatt.Lines(primary)).0;
    var (d1, t) := BindSensor(d0, AsyncBPart.Temperature, chars);
    var (d2, l) := BindSensor(d1, AsyncBPart.Light, chars);
    var (d3, h) := BindSensor(d2, AsyncBPart.Humidity, chars);
    var (d4, a) := BindSensor(d3, AsyncBPart.Acceleration, chars);
    assert Gatt.Keys(d0) == Gatt.Keys(d1) == Gatt.Keys(d2) == Gatt.Keys(d3) == Gatt.Keys(d4);
    var dev := Device(addr, d4, t.value, l.value, h.value, a.value);
    assert Open(addr, link, primary, chars) == Ok(dev);
  }

  /** Discovery comes first: when it fails, no sensor is bound and its
      error is the one raised. */
  lemma DiscoveryFirst(addr: string, primary: string, chars: (string, string) -> string)
    requires Btle.DiscoverFrom([], Gatt.Lines(primary)).1.Fail?
    ensures Open(addr, Pass, primary, chars) == Err(Btle.DiscoverFrom([], Gatt.Lines(primary)).1.error)
  {
  }

  /** The temperature sensor is bound first: a device whose listing has no
      temperature service fails with KeyError, whatever else it offers. */
  lemma TemperatureFirst(addr: string, primary: string, chars: (string, string) -> string)
    requires Btle.DiscoverFrom([], Gatt.Lines(primary)).1.Pass?
    requires BPartUuid(ServiceOffset(AsyncBPart.Temperature)).Ok?
    requires Uuid.ToString(BPartUuid(ServiceOffset(AsyncBPart.Temperature)).value) !in Gatt.Keys(Btle.DiscoverFrom([], Gatt.Lines(primary)).0)
    ensures Open(addr, Pass, primary, chars) == Err(KeyError)
  {
  }

  // ---------------------------------------------------------------------
  // Reading the sensors

  /** What a sensor's `read` returns, before the float scaling. */
  datatype Reading = Number(n: int) | Axes(t: Codec.Triple)

  /** `struct.unpack` of the bytes `data.read()` returned: '<h' for the
      temperature, '<I' for light, '<H' for humidity, '<hhh' for the
      accelerometer; the wrong number of bytes raises struct.error. */
  function Decode(ch: Channel, raw: seq<byte>): (r: Result<Reading>)
    ensures r.Err? ==> r.error == StructError
    ensures r.Ok? <==> |raw| == AsyncBPart.Width(ch)
    ensures r.Ok? ==> (r.value.Axes? <==> ch == AsyncBPart.Acceleration)
  {
    match ch
    case Temperature => var v :- Codec.I16(raw); Ok(Number(v))
    case Light => var v :- Codec.U32(raw); Ok(Number(v))
    case Humidity => var v :- Codec.U16(raw); Ok(Number(v))
    case Acceleration => var v :- Codec.I16Triple(raw); Ok(Axes(v))
  }

  /** Each sensor reads back exactly the value its device packed. */
  lemma DecodeRoundTrip(v: int, t: Codec.Triple)
    requires Codec.InI16(v) && Codec.InI16(t.x) && Codec.InI16(t.y) && Codec.InI16(t.z)
    ensures Decode(AsyncBPart.Temperature, Codec.PackI16(v)) == Ok(Number(v))
    ensures v >= 0 ==> Decode(AsyncBPart.Light, Codec.PackU32(v)) == Ok(Number(v))
    ensures v >= 0 ==> Decode(AsyncBPart.Humidity, Codec.PackU16(v)) == Ok(Number(v))
    ensures Decode(AsyncBPart.Acceleration, Codec.PackI16(t.x) + Codec.PackI16(t.y) + Codec.PackI16(t.z)) == Ok(Axes(t))
  {
    Codec.I16RoundTrip(v);
    if v >= 0 {
      Codec.U32RoundTrip(v);
      Codec.U16RoundTrip(v);
    }
    var b := Codec.PackI16(t.x) + Codec.PackI16(t.y) + Codec.PackI16(t.z);
    assert b[0..2] == Codec.PackI16(t.x) && b[2..4] == Codec.PackI16(t.y) && b[4..6] == Codec.PackI16(t.z);
    Codec.I16RoundTrip(t.x);
    Codec.I16RoundTrip(t.y);
    Codec.I16RoundTrip(t.z);
  }

  /** The synchronous reads and the notification parsers of the
      asynchronous gateway agree on every sensor's bytes. */
  lemma DecodeAgreesWithNotifications(s: AsyncBPart.Slots, ch: Channel, raw: seq<byte>)
    ensures Decode(ch, raw).Ok? <==> AsyncBPart.Assign(s, ch, raw).Ok?
    ensures Decode(ch, raw).Ok? ==> var v, s1 := Decode(ch, raw).value, AsyncBPart.Assign(s, ch, raw).value;
      match ch
      case Temperature => s1 == s.(temperature := Some(v.n))
      case Light => s1 == s.(light := Some(v.n))
      case Humidity => s1 == s.(humidity := Some(v.n))
      case Acceleration => s1 == s.(acceleration := Some(v.t))
  {
  }
}
