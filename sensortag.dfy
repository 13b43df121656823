/** The TI SensorTag device of the asynchronous gateway
    (bpart_async/sensortag.py): a Peripheral with six sensors. It switches
    them on, decodes their notifications into raw readings, and switches
    notifications on by fixed handles. The Peripheral part is
    `Btle.Peripheral`, held as `dev` rather than inherited. */
module SensorTag {
  import opened Outcomes
  import opened Hex
  import Text
  import Uuid
  import Codec
  import Gatt
  import Btle
  import opened ServiceLookup
  import opened Switching

  // ---------------------------------------------------------------------
  // The SensorTag UUIDs: service and sensor switch, upper case

  const TemperatureUuid: string := "F000AA00-0451-4000-B000-000000000000"
  const AccelerationUuid: string := "F000AA10-0451-4000-B000-000000000000"
  const HumidityUuid: string := "F000AA20-0451-4000-B000-000000000000"
  const MagnetometerUuid: string := "F000AA30-0451-4000-B000-000000000000"
  const BarometerUuid: string := "F000AA40-0451-4000-B000-000000000000"
  const GyroscopeUuid: string := "F000AA50-0451-4000-B000-000000000000"

  const TemperatureSensorUuid: string := "F000AA02-0451-4000-B000-000000000000"
  const AccelerationSensorUuid: string := "F000AA12-0451-4000-B000-000000000000"
  const HumiditySensorUuid: string := "F000AA22-0451-4000-B000-000000000000"
  const MagnetometerSensorUuid: string := "F000AA32-0451-4000-B000-000000000000"
  const BarometerSensorUuid: string := "F000AA42-0451-4000-B000-000000000000"
  const GyroscopeSensorUuid: string := "F000AA52-0451-4000-B000-000000000000"

  datatype Sensor = Temperature | Acceleration | Humidity | Magnetometer | Barometer | Gyroscope

  function ServiceUuid(sensor: Sensor): string {
    match sensor
    case Temperature => TemperatureUuid
    case Acceleration => AccelerationUuid
    case Humidity => HumidityUuid
    case Magnetometer => MagnetometerUuid
    case Barometer => BarometerUuid
    case Gyroscope => GyroscopeUuid
  }

  function SensorUuid(sensor: Sensor): string {
    match sensor
    case Temperature => TemperatureSensorUuid
    case Acceleration => AccelerationSensorUuid
    case Humidity => HumiditySensorUuid
    case Magnetometer => MagnetometerSensorUuid
    case Barometer => BarometerSensorUuid
    case Gyroscope => GyroscopeSensorUuid
  }

  // ---------------------------------------------------------------------
  // Raw decoding (the floating-point conversions are not modelled)

  /** `_parseTemperature` up to the thermopile formula: `<hh`, the raw
      object voltage and the raw ambient temperature. */
  function ParseTemperature(data: string): (r: Result<Codec.Pair>)
    ensures r.Ok? ==> Codec.InI16(r.value.first) && Codec.InI16(r.value.second)
  {
    Codec.FromHex(data, Codec.I16Pair)
  }

  /** The raw object voltage and ambient temperature come back from their
      bytes, once printed as hex; text that is not hex is a TypeError. */
  lemma {:induction false} TemperatureRoundTrip(vobj: int, tamb: int, data: string)
    requires Codec.InI16(vobj) && Codec.InI16(tamb)
    ensures ParseTemperature(Hexlify(Codec.PackI16(vobj) + Codec.PackI16(tamb))) == Ok(Codec.Pair(vobj, tamb))
    ensures |data| % 2 != 0 || !AllHex(data) ==> ParseTemperature(data) == Err(TypeError)
  {
    UnhexlifyHexlify(Codec.PackI16(vobj) + Codec.PackI16(tamb));
    Codec.I16PairRoundTrip(vobj, tamb);
  }

  /** `_parseMagnetometer` and `_parseGyroscope` before their scaling: both
      read `<hhh`, three little-endian i16 axes. */
  function ParseAxes(data: string): (r: Result<Codec.Triple>)
    ensures r.Ok? ==> Codec.InI16(r.value.x) && Codec.InI16(r.value.y) && Codec.InI16(r.value.z)
  {
    Codec.FromHex(data, Codec.I16Triple)
  }

  /** `_parseAcceleration` before the division by 64: `bbb`, three signed
      bytes. */
  function ParseAcceleration(data: string): (r: Result<Codec.Triple>)
    ensures r.Ok? ==> Codec.InI8(r.value.x) && Codec.InI8(r.value.y) && Codec.InI8(r.value.z)
  {
    Codec.FromHex(data, Codec.I8Triple)
  }

  /** `rawH & 0xFFFC` for a 16-bit `rawH`: its two low bits cleared. */
  function ClearLowBits(h: nat): (m: nat)
    requires Codec.InU16(h)
    ensures m % 4 == 0 && m <= h < m + 4 && Codec.InU16(m)
  {
    h / 4 * 4
  }

  /** `_parseHumidity` before its scaling: `<HH`, the raw temperature and
      the raw humidity with its status bits masked off. */
  function ParseHumidity(data: string): (r: Result<Codec.Pair>)
    ensures r.Ok? ==> r.value.second % 4 == 0
  {
    var p :- Codec.FromHex(data, Codec.U16Pair);
    Ok(Codec.Pair(p.first, ClearLowBits(p.second)))
  }

  /** What one notification yields. The barometer payload is only printed,
      so it stays text. */
  datatype Reading =
    | Thermopile(raw: Codec.Pair)
    | Accel(axes: Codec.Triple)
    | Humid(raw: Codec.Pair)
    | Magnetic(axes: Codec.Triple)
    | Pressure(text: string)
    | Gyro(axes: Codec.Triple)

  /** The branch of `_handleNotification` for `sensor`, given the payload
      hex text. */
  function Decode(sensor: Sensor, data: string): Result<Reading> {
    match sensor
    case Temperature => var v :- ParseTemperature(data); Ok(Thermopile(v))
    case Acceleration => var v :- ParseAcceleration(data); Ok(Accel(v))
    case Humidity => var v :- ParseHumidity(data); Ok(Humid(v))
    case Magnetometer => var v :- ParseAxes(data); Ok(Magnetic(v))
    case Barometer => Ok(Pressure(data))
    case Gyroscope => var v :- ParseAxes(data); Ok(Gyro(v))
  }

  /** The reading the payload bytes stand for. */
  function DecodeBytes(sensor: Sensor, b: seq<byte>): Result<Reading> {
    match sensor
    case Temperature => var v :- Codec.I16Pair(b); Ok(Thermopile(v))
    case Acceleration => var v :- Codec.I8Triple(b); Ok(Accel(v))
    case Humidity =>
      var v :- Codec.U16Pair(b);
      Ok(Humid(Codec.Pair(v.first, ClearLowBits(v.second))))
    case Magnetometer => var v :- Codec.I16Triple(b); Ok(Magnetic(v))
    case Barometer => Ok(Pressure(Hexlify(b)))
    case Gyroscope => var v :- Codec.I16Triple(b); Ok(Gyro(v))
  }

  /** The decoders read back the bytes the device sent, once printed as
      hex. */
  lemma DecodeOfBytes(sensor: Sensor, b: seq<byte>)
    ensures Decode(sensor, Hexlify(b)) == DecodeBytes(sensor, b)
  {
    UnhexlifyHexlify(b);
  }

  /** Text that is not an even number of hex digits is a TypeError for
      every sensor but the barometer, whose text is not decoded. */
  lemma DecodeRejects(sensor: Sensor, data: string)
    requires |data| % 2 != 0 || !AllHex(data)
    ensures Decode(sensor, data) == if sensor == Barometer then Ok(Pressure(data)) else Err(TypeError)
  {
  }

  /** The humidity status bits never reach the reading: two raw humidity
      values that differ only in their two low bits decode alike. */
  lemma HumidityIgnoresStatusBits(t: nat, h1: nat, h2: nat)
    requires Codec.InU16(t) && Codec.InU16(h1) && Codec.InU16(h2) && h1 / 4 == h2 / 4
    ensures DecodeBytes(Humidity, Codec.PackU16(t) + Codec.PackU16(h1))
         == DecodeBytes(Humidity, Codec.PackU16(t) + Codec.PackU16(h2))
    ensures DecodeBytes(Humidity, Codec.PackU16(t) + Codec.PackU16(h1)) == Ok(Humid(Codec.Pair(t, h1 / 4 * 4)))
  {
    var b1, b2 := Codec.PackU16(t) + Codec.PackU16(h1), Codec.PackU16(t) + Codec.PackU16(h2);
    assert b1[0..2] == Codec.PackU16(t) && b1[2..4] == Codec.PackU16(h1);
    assert b2[0..2] == Codec.PackU16(t) && b2[2..4] == Codec.PackU16(h2);
    Codec.U16RoundTrip(t);
    Codec.U16RoundTrip(h1);
    Codec.U16RoundTrip(h2);
  }

  /** The three axes of `<hhh` come back from their packed bytes. */
  lemma AxesRoundTrip(x: int, y: int, z: int)
    requires Codec.InI16(x) && Codec.InI16(y) && Codec.InI16(z)
    ensures DecodeBytes(Magnetometer, Codec.PackI16(x) + Codec.PackI16(y) + Codec.PackI16(z)) == Ok(Magnetic(Codec.Triple(x, y, z)))
    ensures DecodeBytes(Gyroscope, Codec.PackI16(x) + Codec.PackI16(y) + Codec.PackI16(z)) == Ok(Gyro(Codec.Triple(x, y, z)))
  {
    Codec.I16TripleRoundTrip(x, y, z);
  }

  /** The three signed bytes of `bbb` come back from their packed bytes. */
  lemma AccelerationRoundTrip(x: int, y: int, z: int)
    requires Codec.InI8(x) && Codec.InI8(y) && Codec.InI8(z)
    ensures DecodeBytes(Acceleration, Codec.PackI8(x) + Codec.PackI8(y) + Codec.PackI8(z)) == Ok(Accel(Codec.Triple(x, y, z)))
  {
    Codec.I8TripleRoundTrip(x, y, z);
  }

  // ---------------------------------------------------------------------
  // Notifications

  /** The if/elif chain of `_handleNotification` on the upper-cased service
      UUID. */
  function Route(svc: string): (r: Option<Sensor>)
    ensures r.Some? <==> svc in {TemperatureUuid, MagnetometerUuid, AccelerationUuid, HumidityUuid, GyroscopeUuid, BarometerUuid}
    ensures r.Some? ==> svc == ServiceUuid(r.value)
  {
    if svc == TemperatureUuid then Some(Temperature)
    else if svc == MagnetometerUuid then Some(Magnetometer)
    else if svc == AccelerationUuid then Some(Acceleration)
    else if svc == HumidityUuid then Some(Humidity)
    else if svc == GyroscopeUuid then Some(Gyroscope)
    else if svc == BarometerUuid then Some(Barometer)
    else None
  }

  /** The payload hex: the tokens from index 5 up to, not including, the
      last one, run together. */
  function Payload(t: seq<string>): string {
    Text.Concat(Text.SliceToLast(t, 5))
  }

  /** `_handleNotification`: the text is split at single spaces, token 3 is
      the handle, the service UUID is upper-cased (`None.upper()` is an
      AttributeError) and routed; the reading of the routed sensor, or
      nothing for another service. */
  function NotifySpec(vs: seq<Gatt.Service>, notification: string): (r: Result<Option<Reading>>)
    requires AllValid(vs)
  {
    var t := Text.Split(notification, ' ');
    if |t| < 4 then Err(IndexError)
    else
      var svc :- ServiceOf(vs, t[3]);
      if svc.None? then Err(AttributeError)
      else
        match Route(Text.Upper(svc.value))
        case None => Ok(None)
        case Some(sensor) => var v :- Decode(sensor, Payload(t)); Ok(Some(v))
  }

  /** A handle that lies in no service's range makes `.upper()` fail. */
  lemma UnknownHandleRaises(vs: seq<Gatt.Service>, n: string)
    requires AllValid(vs)
    requires var t := Text.Split(n, ' '); |t| >= 4 && ServiceOf(vs, t[3]) == Ok(None)
    ensures NotifySpec(vs, n) == Err(AttributeError)
  {
  }

  /** `.upper()` makes the comparison blind to case: a service printed in
      lower case is routed like its upper-case spelling. */
  lemma RouteIgnoresCase(a: string, b: string)
    requires Text.Upper(a) == Text.Upper(b)
    ensures Route(Text.Upper(a)) == Route(Text.Upper(b))
  {
  }

  /** Token `k` is the two-digit hex of byte `b[k]`. */
  predicate ByteTokens(ts: seq<string>, b: seq<byte>) {
    |ts| == |b| && forall k | 0 <= k < |b| :: ts[k] == Hexlify([b[k]])
  }

  /** Running byte tokens together gives the hex of the bytes. */
  lemma {:induction false} ConcatByteTokens(ts: seq<string>, b: seq<byte>)
    requires ByteTokens(ts, b)
    ensures Text.Concat(ts) == Hexlify(b)
    decreases |b|
  {
    if b != [] {
      assert ByteTokens(ts[1..], b[1..]) by {
        forall k | 0 <= k < |b[1..]| ensures ts[1..][k] == Hexlify([b[1..][k]]) {
          assert ts[1..][k] == ts[k + 1];
        }
      }
      ConcatByteTokens(ts[1..], b[1..]);
      assert b == [b[0]] + b[1..];
      Uuid.HexlifyAppend([b[0]], b[1..]);
    } else {
      assert Hexlify(b) == "";
    }
  }

  /** A notification whose middle tokens print the bytes `b` for a service
      routed to `sensor` yields the reading of those bytes, whatever their
      number: the slice is not checked against the sensor's size. */
  lemma NotificationDecodes(vs: seq<Gatt.Service>, n: string, u: string, sensor: Sensor, b: seq<byte>)
    requires AllValid(vs)
    requires var t := Text.Split(n, ' ');
      && |t| >= 6 && ServiceOf(vs, t[3]) == Ok(Some(u)) && Route(Text.Upper(u)) == Some(sensor)
      && ByteTokens(t[5..|t| - 1], b)
    ensures NotifySpec(vs, n) == match DecodeBytes(sensor, b) case Ok(v) => Ok(Some(v)) case Err(e) => Err(e)
  {
    var t := Text.Split(n, ' ');
    ConcatByteTokens(t[5..|t| - 1], b);
    DecodeOfBytes(sensor, b);
  }

  // ---------------------------------------------------------------------
  // Switching the sensors and the notifications

  /** The value that switches a sensor on: "07" for the gyroscope (all
      three axes), "01" for the others. */
  function OnValue(sensor: Sensor): string {
    if sensor == Gyroscope then "07" else "01"
  }

  /** `activate<Sensor>Sensor` (on) and `deactivate<Sensor>Sensor` ("00"). */
  function SwitchOf(sensor: Sensor, on: bool): Switch {
    Switch(Uuid.Str(ServiceUuid(sensor)), Uuid.Str(SensorUuid(sensor)), if on then OnValue(sensor) else "00")
  }

  /** `calibrateBarometer`: "01" to the barometer's sensor switch. */
  const Calibration: Switch := Switch(Uuid.Str(BarometerUuid), Uuid.Str(BarometerSensorUuid), "01")

  /** `calibrateBarometer` writes what `activateBarometerSensor` writes,
      to the same characteristic. */
  lemma CalibrationIsActivation()
    ensures Calibration == SwitchOf(Barometer, true)
  {
  }

  /** `initialize` switches the sensors on in this order. */
  const InitOrder: seq<Sensor> := [Temperature, Acceleration, Humidity, Barometer, Magnetometer, Gyroscope]

  function SwitchesOn(sensors: seq<Sensor>): (sws: seq<Switch>)
    ensures |sws| == |sensors|
  {
    seq(|sensors|, k requires 0 <= k < |sensors| => SwitchOf(sensors[k], true))
  }

  /** The switches `initialize` writes: "01" to temperature, acceleration,
      humidity, barometer and magnetometer, then "07" to the gyroscope. */
  lemma InitSwitches()
    ensures SwitchesOn(InitOrder) ==
      [ Switch(Uuid.Str(TemperatureUuid), Uuid.Str(TemperatureSensorUuid), "01"),
        Switch(Uuid.Str(AccelerationUuid), Uuid.Str(AccelerationSensorUuid), "01"),
        Switch(Uuid.Str(HumidityUuid), Uuid.Str(HumiditySensorUuid), "01"),
        Switch(Uuid.Str(BarometerUuid), Uuid.Str(BarometerSensorUuid), "01"),
        Switch(Uuid.Str(MagnetometerUuid), Uuid.Str(MagnetometerSensorUuid), "01"),
        Switch(Uuid.Str(GyroscopeUuid), Uuid.Str(GyroscopeSensorUuid), "07") ]
  {
  }

  /** The handles `activateNotifications` writes "0100" to. */
  const NotifyHandles: seq<string> := ["0x0026", "0x002e", "0x0039", "0x0041"]

  /** `activateNotifications`: "0100" to each notification handle in
      turn, write `k` answered by `replies(k)`; an exception stops the
      sequence. */
  function ActivateSpec(s: Btle.PState, handles: seq<string>, replies: nat -> Resp): (Btle.PState, Outcome)
    requires |handles| == 4
  {
    var (s1, o1) := Btle.WriteCharSpec(s, handles[0], "0100", replies(0));
    if o1.Fail? then (s1, o1) else
    var (s2, o2) := Btle.WriteCharSpec(s1, handles[1], "0100", replies(1));
    if o2.Fail? then (s2, o2) else
    var (s3, o3) := Btle.WriteCharSpec(s2, handles[2], "0100", replies(2));
    if o3.Fail? then (s3, o3) else
    Btle.WriteCharSpec(s3, handles[3], "0100", replies(3))
  }

  /** One `writeCharacteristic` with the helper running: the request for
      the re-printed handle is sent, and a timeout marks the link down. */
  lemma WriteCharStep(s: Btle.PState, handle: string, val: string, reply: Resp)
    requires s.helper && ParseHexInt(handle).Ok?
    ensures Btle.WriteCharSpec(s, handle, val, reply)
         == (s.(sent := s.sent + [Btle.WriteReq(FormatLower(ParseHexInt(handle).value, 4), val)],
                connected := s.connected && !reply.Timeout?), Pass)
  {
  }

  /** `int('0x00hl', 16)` for two hex digits `h`, `l`. */
  lemma ShortHandleValue(hc: char, lc: char)
    requires IsHexDigit(hc) && IsHexDigit(lc)
    ensures ParseHexInt(['0', 'x', '0', '0', hc, lc]) == Ok(16 * DigitValue(hc) + DigitValue(lc))
  {
    var d := ['0', '0', hc, lc];
    assert StripHexPrefix(['0', 'x'] + d) == d;
    var z := ['0'];
    assert z[..0] == [];
    assert ValueOf(z) == 0;
    assert d[..2][..1] == z;
    assert ValueOf(d[..2]) == 0;
    assert d[..3][..2] == d[..2];
    assert ValueOf(d[..3]) == DigitValue(hc);
  }

  /** `'{0:0>4x}'` of a number with two significant hex digits. */
  lemma ShortHandleFormat(hc: char, lc: char)
    requires IsLowerHexDigit(hc) && hc != '0' && IsLowerHexDigit(lc)
    ensures FormatLower(16 * DigitValue(hc) + DigitValue(lc), 4) == ['0', '0', hc, lc]
  {
    var h, l := DigitValue(hc), DigitValue(lc);
    var n := 16 * h + l;
    assert UpperDigits(n) == [UpperDigit(h), UpperDigit(l)] by {
      assert n / 16 == h && n % 16 == l;
    }
    var u := ['0', '0', UpperDigit(h), UpperDigit(l)];
    assert FormatUpper(n, 4) == u;
    LowerDigitOf(UpperDigit(h));
    LowerDigitOf(UpperDigit(l));
    LowerDigitOf(hc);
    LowerDigitOf(lc);
    assert LowerHex(u) == ['0', '0', hc, lc];
  }

  /** A handle `0x00hl` with a non-zero lower-case `h` is re-printed as
      `00hl`. */
  lemma ShortHandle(hc: char, lc: char)
    requires IsLowerHexDigit(hc) && hc != '0' && IsLowerHexDigit(lc)
    ensures ParseHexInt(['0', 'x', '0', '0', hc, lc]).Ok?
    ensures FormatLower(ParseHexInt(['0', 'x', '0', '0', hc, lc]).value, 4) == ['0', '0', hc, lc]
  {
    ShortHandleValue(hc, lc);
    ShortHandleFormat(hc, lc);
  }

  /** "0100" written to handle `0x00hl` with the helper running: the
      request names `00hl`, and the helper and services stay. */
  lemma NotifyWrite(s: Btle.PState, hc: char, lc: char, reply: Resp) returns (r: Btle.PState)
    requires s.helper && IsLowerHexDigit(hc) && hc != '0' && IsLowerHexDigit(lc)
    ensures Btle.WriteCharSpec(s, ['0', 'x', '0', '0', hc, lc], "0100", reply) == (r, Pass)
    ensures r.helper && r.services == s.services && r.sent == s.sent + ["char-write-req 00" + [hc, lc] + " 0100"]
  {
    ShortHandle(hc, lc);
    WriteCharStep(s, ['0', 'x', '0', '0', hc, lc], "0100", reply);
    assert Btle.WriteReq(['0', '0', hc, lc], "0100") == "char-write-req 00" + [hc, lc] + " 0100";
    r := s.(sent := s.sent + ["char-write-req 00" + [hc, lc] + " 0100"], connected := s.connected && !reply.Timeout?);
  }

  /** `activateNotifications` with the helper running passes whatever the
      replies (a timeout only marks the link down) and sends "0100" to
      handles 0026, 002e, 0039 and 0041, in that order. */
  lemma NotificationRequests(s: Btle.PState, replies: nat -> Resp)
    requires s.helper
    ensures var (r, o) := ActivateSpec(s, NotifyHandles, replies);
      && o.Pass? && r.helper && r.services == s.services
      && r.sent == s.sent + ["char-write-req 0026 0100", "char-write-req 002e 0100",
                             "char-write-req 0039 0100", "char-write-req 0041 0100"]
  {
    var s1 := NotifyWrite(s, '2', '6', replies(0));
    var s2 := NotifyWrite(s1, '2', 'e', replies(1));
    var s3 := NotifyWrite(s2, '3', '9', replies(2));
    var s4 := NotifyWrite(s3, '4', '1', replies(3));
    assert ActivateSpec(s, NotifyHandles, replies) == (s4, Pass);
    NotifyRequestTexts();
    AppendFour(s.sent, s1.sent, s2.sent, s3.sent, s4.sent, "char-write-req 0026 0100", "char-write-req 002e 0100",
               "char-write-req 0039 0100", "char-write-req 0041 0100");
  }

  lemma AppendFour<T>(t0: seq<T>, t1: seq<T>, t2: seq<T>, t3: seq<T>, t4: seq<T>, a: T, b: T, c: T, d: T)
    requires t1 == t0 + [a] && t2 == t1 + [b] && t3 == t2 + [c] && t4 == t3 + [d]
    ensures t4 == t0 + [a, b, c, d]
  {
  }

  lemma NotifyRequestTexts()
    ensures "char-write-req 00" + ['2', '6'] + " 0100" == "char-write-req 0026 0100"
    ensures "char-write-req 00" + ['2', 'e'] + " 0100" == "char-write-req 002e 0100"
    ensures "char-write-req 00" + ['3', '9'] + " 0100" == "char-write-req 0039 0100"
    ensures "char-write-req 00" + ['4', '1'] + " 0100" == "char-write-req 0041 0100"
  {
  }

  /** `initialize` with the sensor switches `sws` (`SwitchesOn(InitOrder)`
      in `Tag.Initialize`) and the calibration switch `cal`: the switches,
      then the notification handles, then the calibration. */
  function InitializeSpec(s: Btle.PState, sws: seq<Switch>, cal: Switch, tool: Btle.ToolOutput,
                          replies: nat -> Resp, notifyReplies: nat -> Resp, calReply: Resp): (Btle.PState, Outcome)
  {
    var (s1, o1) := SwitchFrom(s, sws, 0, Writing(tool, replies));
    if o1.Fail? then (s1, o1)
    else
      var (s2, o2) := ActivateSpec(s1, NotifyHandles, notifyReplies);
      if o2.Fail? then (s2, o2) else SwitchSpec(s2, cal, tool, calReply)
  }

  /** With the helper running and every switch cached, `initialize` passes
      whatever the replies, and sends the switch requests in order, then the
      four notification requests, then the calibration request. */
  lemma InitializeOrder(s: Btle.PState, sws: seq<Switch>, cal: Switch, tool: Btle.ToolOutput,
                        replies: nat -> Resp, notifyReplies: nat -> Resp, calReply: Resp)
    requires s.helper && AllCached(s.services, sws) && Cached(s.services, cal)
    ensures var (r, o) := InitializeSpec(s, sws, cal, tool, replies, notifyReplies, calReply);
      && o.Pass?
      && r.sent == s.sent + Requests(s.services, sws)
                          + ["char-write-req 0026 0100", "char-write-req 002e 0100",
                             "char-write-req 0039 0100", "char-write-req 0041 0100"]
                          + [Request(s.services, cal)]
  {
    AllSwitched(s, sws, tool, replies);
    var s1 := SwitchFrom(s, sws, 0, Writing(tool, replies)).0;
    NotificationRequests(s1, notifyReplies);
    var s2 := ActivateSpec(s1, NotifyHandles, notifyReplies).0;
    var _ := SwitchStep(s2, cal, tool, calReply);
  }

  // ---------------------------------------------------------------------
  // The device

  class Tag {
    const dev: Btle.Peripheral

    constructor Create(dev: Btle.Peripheral)
      ensures this.dev == dev
    {
      this.dev := dev;
    }

    /** `SensorTag(addr)`: only the Peripheral's address check. */
    static method Open(addr: string) returns (r: Result<Tag>)
      ensures r.Err? <==> Btle.AddressCheck(addr).Fail?
      ensures r.Ok? ==> fresh(r.value) && fresh(r.value.dev) && r.value.dev.State() == Btle.Initial(addr)
    {
      var p := Btle.Peripheral.Open(addr);
      if p.Err? {
        return Err(p.error);
      }
      var t := new Tag.Create(p.value);
      return Ok(t);
    }

    /** `_handleNotification`, which changes no state: the reading it
        decodes and prints. */
    method HandleNotification(notification: string) returns (r: Result<Option<Reading>>)
      requires Gatt.UuidsValid(dev.services)
      ensures r == NotifySpec(Btle.Values(dev.services), notification)
    {
      var t := Text.Split(notification, ' ');
      if |t| < 4 {
        return Err(IndexError);
      }
      var svc := ServiceToHandle(Btle.Values(dev.services), t[3]);
      if svc.Err? {
        return Err(svc.error);
      }
      if svc.value.None? {
        return Err(AttributeError);
      }
      var u := Text.Upper(svc.value.value);
      var data := Payload(t);
      var v: Result<Reading>;
      if u == TemperatureUuid {
        v := Decode(Temperature, data);
      } else if u == MagnetometerUuid {
        v := Decode(Magnetometer, data);
      } else if u == AccelerationUuid {
        v := Decode(Acceleration, data);
      } else if u == HumidityUuid {
        v := Decode(Humidity, data);
      } else if u == GyroscopeUuid {
        v := Decode(Gyroscope, data);
      } else if u == BarometerUuid {
        v := Decode(Barometer, data);
      } else {
        return Ok(None);
      }
      if v.Err? {
        return Err(v.error);
      }
      return Ok(Some(v.value));
    }

    /** `activate<Sensor>Sensor` and `deactivate<Sensor>Sensor`. */
    method SwitchSensor(sensor: Sensor, on: bool, tool: Btle.ToolOutput, reply: Resp) returns (o: Outcome)
      modifies dev
      ensures (dev.State(), o) == SwitchSpec(old(dev.State()), SwitchOf(sensor, on), tool, reply)
    {
      o := dev.SensorWrite(Uuid.Str(ServiceUuid(sensor)), Uuid.Str(SensorUuid(sensor)), if on then OnValue(sensor) else "00", tool, reply);
    }

    /** `calibrateBarometer`. */
    method CalibrateBarometer(tool: Btle.ToolOutput, reply: Resp) returns (o: Outcome)
      modifies dev
      ensures (dev.State(), o) == SwitchSpec(old(dev.State()), Calibration, tool, reply)
    {
      o := dev.SensorWrite(Uuid.Str(BarometerUuid), Uuid.Str(BarometerSensorUuid), "01", tool, reply);
    }

    /** `activateNotifications`: four `writeCharacteristic` calls. */
    method ActivateNotifications(replies: nat -> Resp) returns (o: Outcome)
      modifies dev
      ensures (dev.State(), o) == ActivateSpec(old(dev.State()), NotifyHandles, replies)
    {
      o := dev.WriteCharacteristic("0x0026", "0100", replies(0));
      if o.Fail? {
        return;
      }
      o := dev.WriteCharacteristic("0x002e", "0100", replies(1));
      if o.Fail? {
        return;
      }
      o := dev.WriteCharacteristic("0x0039", "0100", replies(2));
      if o.Fail? {
        return;
      }
      o := dev.WriteCharacteristic("0x0041", "0100", replies(3));
    }

    /** The `activate<Sensor>Sensor` calls of `initialize`, in the order of
        `sensors`: write `k` is answered by `replies(k)`. */
    method SwitchAllOn(sensors: seq<Sensor>, tool: Btle.ToolOutput, replies: nat -> Resp) returns (o: Outcome)
      modifies dev
      ensures (dev.State(), o) == SwitchFrom(old(dev.State()), SwitchesOn(sensors), 0, Writing(tool, replies))
    {
      ghost var sws, write := SwitchesOn(sensors), Writing(tool, replies);
      var k := 0;
      while k < |sensors|
        invariant 0 <= k <= |sensors|
        invariant SwitchFrom(dev.State(), sws, k, write) == SwitchFrom(old(dev.State()), sws, 0, write)
      {
        SwitchFromStep(dev.State(), sws, k, write);
        o := SwitchSensor(sensors[k], true, tool, replies(k));
        if o.Fail? {
          return;
        }
        k := k + 1;
      }
      o := Pass;
    }

    /** `initialize`: switch write `k` is answered by `replies(k)`,
        notification write `j` by `notifyReplies(j)`. */
    method Initialize(tool: Btle.ToolOutput, replies: nat -> Resp, notifyReplies: nat -> Resp, calReply: Resp) returns (o: Outcome)
      modifies dev
      ensures (dev.State(), o) == InitializeSpec(old(dev.State()), SwitchesOn(InitOrder), Calibration, tool, replies, notifyReplies, calReply)
    {
      o := SwitchAllOn(InitOrder, tool, replies);
      if o.Fail? {
        return;
      }
      o := ActivateNotifications(notifyReplies);
      if o.Fail? {
        return;
      }
      o := CalibrateBarometer(tool, calReply);
    }
  }
}
