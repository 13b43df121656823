/** The BPart device of the asynchronous gateway (bpart_async/bpart.py): a
    Peripheral that switches the four BPart sensors on, decodes their
    notifications into four reading slots and uploads a complete set of
    readings to CUMULUS. The Peripheral part is `Btle.Peripheral`, held as
    `dev` rather than inherited. */
module AsyncBPart {
  import opened Outcomes
  import opened Hex
  import Text
  import Uuid
  import Codec
  import Gatt
  import Btle
  import Cumulus
  import opened ServiceLookup
  import opened Switching

  // ---------------------------------------------------------------------
  // The BPart UUIDs: service, value characteristic, sensor switch

  const TemperatureUuid: string := "4b822f20-3941-4a4b-a3cc-b2602ffe0d00"
  const LightUuid: string := "4b822f00-3941-4a4b-a3cc-b2602ffe0d00"
  const AccelerationUuid: string := "4b822f10-3941-4a4b-a3cc-b2602ffe0d00"
  const HumidityUuid: string := "4b822f30-3941-4a4b-a3cc-b2602ffe0d00"

  const TemperatureSensorUuid: string := "4b822f22-3941-4a4b-a3cc-b2602ffe0d00"
  const LightSensorUuid: string := "4b822f02-3941-4a4b-a3cc-b2602ffe0d00"
  const AccelerationSensorUuid: string := "4b822f12-3941-4a4b-a3cc-b2602ffe0d00"
  const HumiditySensorUuid: string := "4b822f32-3941-4a4b-a3cc-b2602ffe0d00"

  /** The four sensors of a BPart. */
  datatype Channel = Temperature | Light | Acceleration | Humidity

  function ServiceUuid(ch: Channel): string {
    match ch
    case Temperature => TemperatureUuid
    case Light => LightUuid
    case Acceleration => AccelerationUuid
    case Humidity => HumidityUuid
  }

  function SensorUuid(ch: Channel): string {
    match ch
    case Temperature => TemperatureSensorUuid
    case Light => LightSensorUuid
    case Acceleration => AccelerationSensorUuid
    case Humidity => HumiditySensorUuid
  }

  // ---------------------------------------------------------------------
  // Decoding the payload

  /** `_parseLight`: little-endian u32 of the hex text. */
  function ParseLight(data: string): (r: Result<nat>)
    ensures r.Ok? ==> Codec.InU32(r.value)
  {
    Codec.FromHex(data, Codec.U32)
  }

  /** `_parseHumidity`: little-endian u16 of the hex text. */
  function ParseHumidity(data: string): (r: Result<nat>)
    ensures r.Ok? ==> Codec.InU16(r.value)
  {
    Codec.FromHex(data, Codec.U16)
  }

  /** `_parseTemperature` before the division by 1000: little-endian i16. */
  function ParseTemperature(data: string): (r: Result<int>)
    ensures r.Ok? ==> Codec.InI16(r.value)
  {
    Codec.FromHex(data, Codec.I16)
  }

  /** `_parseAcceleration` before the division by 16000: three
      little-endian i16. */
  function ParseAcceleration(data: string): (r: Result<Codec.Triple>)
    ensures r.Ok? ==> Codec.InI16(r.value.x) && Codec.InI16(r.value.y) && Codec.InI16(r.value.z)
  {
    Codec.FromHex(data, Codec.I16Triple)
  }

  /** The parsers read back the bytes a device sent, once printed as hex;
      text that is not hex is a TypeError and text of the wrong length a
      struct error. */
  lemma ParsersOfBytes(b: seq<byte>)
    ensures ParseLight(Hexlify(b)) == Codec.U32(b)
    ensures ParseHumidity(Hexlify(b)) == Codec.U16(b)
    ensures ParseTemperature(Hexlify(b)) == Codec.I16(b)
    ensures ParseAcceleration(Hexlify(b)) == Codec.I16Triple(b)
  {
    UnhexlifyHexlify(b);
  }

  lemma ParsersReject(data: string)
    requires |data| % 2 != 0 || !AllHex(data)
    ensures ParseLight(data) == Err(TypeError) && ParseHumidity(data) == Err(TypeError)
    ensures ParseTemperature(data) == Err(TypeError) && ParseAcceleration(data) == Err(TypeError)
  {
  }

  /** The light value of the bytes `struct.pack('<I', n)` gives is `n`. */
  lemma LightRoundTrip(n: nat)
    requires Codec.InU32(n)
    ensures ParseLight(Hexlify(Codec.PackU32(n))) == Ok(n)
  {
    ParsersOfBytes(Codec.PackU32(n));
    Codec.U32RoundTrip(n);
  }

  /** The three axes of the bytes `struct.pack('<hhh', x, y, z)` gives
      are `x`, `y` and `z`. */
  lemma AccelerationRoundTrip(x: int, y: int, z: int)
    requires Codec.InI16(x) && Codec.InI16(y) && Codec.InI16(z)
    ensures ParseAcceleration(Hexlify(Codec.PackI16(x) + Codec.PackI16(y) + Codec.PackI16(z))) == Ok(Codec.Triple(x, y, z))
  {
    ParsersOfBytes(Codec.PackI16(x) + Codec.PackI16(y) + Codec.PackI16(z));
    Codec.I16TripleRoundTrip(x, y, z);
  }

  lemma HumidityRoundTrip(n: nat)
    requires Codec.InU16(n)
    ensures ParseHumidity(Hexlify(Codec.PackU16(n))) == Ok(n)
  {
    ParsersOfBytes(Codec.PackU16(n));
    Codec.U16RoundTrip(n);
  }

  lemma TemperatureRoundTrip(v: int)
    requires Codec.InI16(v)
    ensures ParseTemperature(Hexlify(Codec.PackI16(v))) == Ok(v)
  {
    ParsersOfBytes(Codec.PackI16(v));
    Codec.I16RoundTrip(v);
  }

  // ---------------------------------------------------------------------
  // The four reading slots

  /** `_light`, `_humidity`, `_temperature` (raw, before / 1000.0) and
      `_acceleration` (raw axes). */
  datatype Slots = Slots(light: Option<int>, humidity: Option<int>, temperature: Option<int>, acceleration: Option<Codec.Triple>)

  const Empty: Slots := Slots(None, None, None, None)

  /** Python truth of a number slot: set and not zero (for the temperature
      the float raw / 1000.0 is zero exactly when raw is). */
  predicate Truthy(x: Option<int>) {
    x.Some? && x.value != 0
  }

  /** `self._light and self._humidity and self._temperature and
      self._acceleration`; a tuple is always true. */
  predicate Complete(s: Slots) {
    Truthy(s.light) && Truthy(s.humidity) && Truthy(s.temperature) && s.acceleration.Some?
  }

  function ReadingsOf(s: Slots): Cumulus.Readings
    requires Complete(s)
  {
    Cumulus.Readings(s.temperature.value, s.humidity.value, s.light.value, s.acceleration.value)
  }

  /** The if/elif chain of `_handleNotification` on the service UUID. */
  function Route(svc: Option<string>): (ch: Option<Channel>)
    ensures ch.Some? <==> svc.Some? && svc.value in {TemperatureUuid, LightUuid, AccelerationUuid, HumidityUuid}
    ensures ch.Some? ==> svc == Some(ServiceUuid(ch.value))
  {
    if svc == Some(TemperatureUuid) then Some(Temperature)
    else if svc == Some(LightUuid) then Some(Light)
    else if svc == Some(AccelerationUuid) then Some(Acceleration)
    else if svc == Some(HumidityUuid) then Some(Humidity)
    else None
  }

  /** How many payload tokens, from token 5 on, a channel reads. */
  function Width(ch: Channel): nat {
    match ch
    case Temperature => 2
    case Light => 4
    case Acceleration => 6
    case Humidity => 2
  }

  /** The branch of channel `ch`: its payload tokens are joined, decoded and
      stored in its slot; a missing token is an IndexError. */
  function Store(s: Slots, ch: Channel, t: seq<string>): (r: Result<Slots>)
    ensures |t| < 5 + Width(ch) ==> r == Err(IndexError)
  {
    match ch
    case Temperature =>
      if |t| < 7 then Err(IndexError)
      else
        var v :- ParseTemperature(t[5] + t[6]);
        Ok(s.(temperature := Some(v)))
    case Light =>
      if |t| < 9 then Err(IndexError)
      else
        var v :- ParseLight(t[5] + t[6] + t[7] + t[8]);
        Ok(s.(light := Some(v)))
    case Acceleration =>
      if |t| < 11 then Err(IndexError)
      else
        var v :- ParseAcceleration(t[5] + t[6] + t[7] + t[8] + t[9] + t[10]);
        Ok(s.(acceleration := Some(v)))
    case Humidity =>
      if |t| < 7 then Err(IndexError)
      else
        var v :- ParseHumidity(t[5] + t[6]);
        Ok(s.(humidity := Some(v)))
  }

  /** The reading a channel gets from its payload bytes. */
  function Assign(s: Slots, ch: Channel, b: seq<byte>): Result<Slots> {
    match ch
    case Temperature => var v :- Codec.I16(b); Ok(s.(temperature := Some(v)))
    case Light => var v :- Codec.U32(b); Ok(s.(light := Some(v)))
    case Acceleration => var v :- Codec.I16Triple(b); Ok(s.(acceleration := Some(v)))
    case Humidity => var v :- Codec.U16(b); Ok(s.(humidity := Some(v)))
  }

  /** Token `5 + k` is the two-digit hex of payload byte `k`. */
  predicate PayloadTokens(t: seq<string>, b: seq<byte>) {
    5 + |b| <= |t| && forall k | 0 <= k < |b| :: t[5 + k] == Hexlify([b[k]])
  }

  /** A channel's branch stores the value of the bytes gatttool printed in
      its payload tokens: 2 for temperature and humidity, 4 for light and
      6 for acceleration. */
  lemma StoreOfBytes(s: Slots, ch: Channel, t: seq<string>, b: seq<byte>)
    requires |b| == Width(ch) && PayloadTokens(t, b)
    ensures Store(s, ch, t) == Assign(s, ch, b)
  {
    var k := |b|;
    forall i | 0 <= i <= k
      ensures Hexlify(b[..i]) == Joined(t, i)
    {
      JoinedHex(t, b, i);
    }
    assert b[..k] == b;
    match ch
    case Temperature =>
      assert t[5] + t[6] == Joined(t, 2);
      ParsersOfBytes(b);
    case Humidity =>
      assert t[5] + t[6] == Joined(t, 2);
      ParsersOfBytes(b);
    case Light =>
      assert Joined(t, 2) == t[5] + t[6];
      assert Joined(t, 4) == t[5] + t[6] + t[7] + t[8];
      ParsersOfBytes(b);
    case Acceleration =>
      assert Joined(t, 2) == t[5] + t[6];
      assert Joined(t, 4) == t[5] + t[6] + t[7] + t[8];
      assert Joined(t, 6) == t[5] + t[6] + t[7] + t[8] + t[9] + t[10];
      ParsersOfBytes(b);
  }

  /** Tokens 5 up to `5 + i`, run together. */
  function Joined(t: seq<string>, i: nat): string
    requires 5 + i <= |t|
  {
    if i == 0 then "" else Joined(t, i - 1) + t[5 + i - 1]
  }

  lemma {:induction false} JoinedHex(t: seq<string>, b: seq<byte>, i: nat)
    requires PayloadTokens(t, b) && i <= |b|
    ensures Hexlify(b[..i]) == Joined(t, i)
    decreases i
  {
    if i > 0 {
      JoinedHex(t, b, i - 1);
      assert b[..i] == b[..i - 1] + [b[i - 1]];
      Uuid.HexlifyAppend(b[..i - 1], [b[i - 1]]);
    }
  }

  /** One notification, up to the upload test: the text is split at single
      spaces, token 3 is the handle, and the routed channel's slot is
      stored; a handle of no BPart service stores nothing. */
  function Notify(s: Slots, vs: seq<Gatt.Service>, notification: string): (r: Result<Slots>)
    requires AllValid(vs)
  {
    var t := Text.Split(notification, ' ');
    if |t| < 4 then Err(IndexError)
    else
      var svc :- ServiceOf(vs, t[3]);
      match Route(svc)
      case None => Ok(s)
      case Some(ch) => Store(s, ch, t)
  }

  /** `_handleNotification`: the new slots, the readings uploaded (if the
      set became complete), and whether an exception escaped (nothing is
      changed then). */
  function HandleSpec(s: Slots, vs: seq<Gatt.Service>, notification: string): (r: (Slots, Option<Cumulus.Readings>, Outcome))
    requires AllValid(vs)
  {
    match Notify(s, vs, notification)
    case Err(e) => (s, None, Fail(e))
    case Ok(s1) => if Complete(s1) then (Empty, Some(ReadingsOf(s1)), Pass) else (s1, None, Pass)
  }

  /** Upload happens exactly when the stored slots are all true, it sends
      those slots, and the slots are all None afterwards; otherwise the
      stored slots are kept. */
  lemma UploadExactlyWhenComplete(s: Slots, vs: seq<Gatt.Service>, n: string)
    requires AllValid(vs)
    ensures var (s2, up, o) := HandleSpec(s, vs, n);
      && (up.Some? <==> Notify(s, vs, n).Ok? && Complete(Notify(s, vs, n).value))
      && (up.Some? ==> s2 == Empty && up.value == ReadingsOf(Notify(s, vs, n).value))
      && (up.None? && o.Pass? ==> s2 == Notify(s, vs, n).value)
      && (o.Fail? ==> s2 == s && up.None?)
  {
  }

  /** The slots are never left all true: whatever comes in, a complete set
      is uploaded and cleared at once. */
  lemma NeverLeftComplete(s: Slots, vs: seq<Gatt.Service>, n: string)
    requires AllValid(vs) && !Complete(s)
    ensures !Complete(HandleSpec(s, vs, n).0)
  {
  }

  /** A notification writes only its own channel's slot (a repeat
      overwrites it); the three others are as before unless the set is
      uploaded. */
  lemma OnlyOwnSlot(s: Slots, vs: seq<Gatt.Service>, n: string, ch: Channel)
    requires AllValid(vs)
    requires var t := Text.Split(n, ' '); |t| >= 4 && ServiceOf(vs, t[3]).Ok? && Route(ServiceOf(vs, t[3]).value) == Some(ch)
    requires Notify(s, vs, n).Ok?
    ensures var s1 := Notify(s, vs, n).value;
      && (ch != Light ==> s1.light == s.light)
      && (ch != Humidity ==> s1.humidity == s.humidity)
      && (ch != Temperature ==> s1.temperature == s.temperature)
      && (ch != Acceleration ==> s1.acceleration == s.acceleration)
      && (ch == Light ==> s1.light.Some?) && (ch == Humidity ==> s1.humidity.Some?)
      && (ch == Temperature ==> s1.temperature.Some?) && (ch == Acceleration ==> s1.acceleration.Some?)
  {
  }

  /** A handle that belongs to no BPart service leaves the slots as they
      are and uploads nothing. */
  lemma UnroutedKeepsSlots(s: Slots, vs: seq<Gatt.Service>, n: string)
    requires AllValid(vs) && !Complete(s)
    requires var t := Text.Split(n, ' '); |t| >= 4 && ServiceOf(vs, t[3]).Ok? && Route(ServiceOf(vs, t[3]).value).None?
    ensures HandleSpec(s, vs, n) == (s, None, Pass)
  {
  }

  /** A notification with well-formed payload bytes for a BPart service
      stores their value in that channel's slot. */
  lemma NotificationStores(s: Slots, vs: seq<Gatt.Service>, n: string, ch: Channel, b: seq<byte>)
    requires AllValid(vs)
    requires var t := Text.Split(n, ' '); |t| >= 4 && ServiceOf(vs, t[3]) == Ok(Some(ServiceUuid(ch)))
    requires |b| == Width(ch) && PayloadTokens(Text.Split(n, ' '), b)
    ensures Notify(s, vs, n) == Assign(s, ch, b)
    ensures Notify(s, vs, n).Ok?
  {
    StoreOfBytes(s, ch, Text.Split(n, ' '), b);
  }

  /** Notifications handled one after another: the slots at the end and the
      readings uploaded, stopping at the first exception. */
  function HandleAll(s: Slots, vs: seq<Gatt.Service>, ns: seq<string>): (r: (Slots, seq<Cumulus.Readings>, Outcome))
    requires AllValid(vs)
    decreases |ns|
  {
    if ns == [] then (s, [], Pass)
    else
      var (s1, up, o) := HandleSpec(s, vs, ns[0]);
      if o.Fail? then (s1, [], o)
      else
        var (s2, ups, o2) := HandleAll(s1, vs, ns[1..]);
        (s2, (if up.Some? then [up.value] else []) + ups, o2)
  }

  /** The notification `n` does not write the light slot. */
  predicate LeavesLight(vs: seq<Gatt.Service>, n: string)
    requires AllValid(vs)
  {
    var t := Text.Split(n, ' ');
    |t| < 4 || ServiceOf(vs, t[3]).Err? || Route(ServiceOf(vs, t[3]).value) != Some(Light)
  }

  /** A light reading of 0 stalls the upload: until a later notification
      writes the light slot again, nothing is uploaded, however many
      readings of the other channels arrive. */
  lemma {:induction false} ZeroLightStalls(s: Slots, vs: seq<Gatt.Service>, ns: seq<string>)
    requires AllValid(vs) && s.light == Some(0)
    requires forall i | 0 <= i < |ns| :: LeavesLight(vs, ns[i])
    ensures HandleAll(s, vs, ns).1 == []
    ensures HandleAll(s, vs, ns).0.light == Some(0)
    decreases |ns|
  {
    if ns != [] {
      var (s1, up, o) := HandleSpec(s, vs, ns[0]);
      assert LeavesLight(vs, ns[0]);
      assert s1.light == Some(0) && up.None?;
      if o.Pass? {
        assert forall i | 0 <= i < |ns[1..]| :: LeavesLight(vs, ns[1..][i]) by {
          forall i | 0 <= i < |ns[1..]| ensures LeavesLight(vs, ns[1..][i]) {
            assert ns[1..][i] == ns[i + 1];
          }
        }
        ZeroLightStalls(s1, vs, ns[1..]);
      }
    }
  }

  /** What `_sendDataToCumulus` PUTs: the URL of the device and the body. */
  datatype Upload = Upload(url: string, payload: seq<Cumulus.Entry>)

  // ---------------------------------------------------------------------
  // Switching the sensors

  /** Writing `val` to the sensor switch of a channel. */
  function SwitchOf(ch: Channel, val: string): Switch {
    Switch(Uuid.Str(ServiceUuid(ch)), Uuid.Str(SensorUuid(ch)), val)
  }

  /** `initialize` switches the sensors on in this order. */
  const InitOrder: seq<Channel> := [Light, Humidity, Acceleration, Temperature]

  /** The switch-on writes of `chs`, in order. */
  function SwitchesOn(chs: seq<Channel>): (sws: seq<Switch>)
    ensures |sws| == |chs| && forall k | 0 <= k < |chs| :: sws[k] == SwitchOf(chs[k], "01")
  {
    seq(|chs|, k requires 0 <= k < |chs| => SwitchOf(chs[k], "01"))
  }

  /** `initialize` with the sensor switches `sws` (`SwitchesOn(InitOrder)`
      in `BPart.Initialize`): the switches in turn, then the notifications. */
  function InitializeSpec(s: Btle.PState, sws: seq<Switch>, tool: Btle.ToolOutput, replies: nat -> Resp, notifyReplies: nat -> Resp): (Btle.PState, Outcome) {
    var (s1, o1) := SwitchFrom(s, sws, 0, Writing(tool, replies));
    if o1.Fail? then (s1, o1) else Btle.NotifyFrom(s1, 0, "0100", notifyReplies)
  }

  /** With every sensor switch cached, the helper running and every
      notification write acknowledged, `initialize` sends the switch
      requests in order, then "0100" to every notification handle in list
      order, and nothing escapes. */
  lemma InitializeOrder(s: Btle.PState, sws: seq<Switch>, tool: Btle.ToolOutput, replies: nat -> Resp, notifyReplies: nat -> Resp)
    requires s.helper && AllCached(s.services, sws)
    requires forall j | 0 <= j < |s.handles| :: notifyReplies(j).Matched?
    ensures var (r, o) := InitializeSpec(s, sws, tool, replies, notifyReplies);
      && o.Pass?
      && r.sent == s.sent + Requests(s.services, sws) + Btle.WriteReqs(s.handles, 0, |s.handles|, "0100")
  {
    AllSwitched(s, sws, tool, replies);
    var s4 := SwitchFrom(s, sws, 0, Writing(tool, replies)).0;
    Btle.NotifyAcked(s4, 0, "0100", notifyReplies);
  }

  /** The switches `initialize` writes: "01" to light, humidity,
      acceleration and temperature, in that order. */
  lemma InitSwitches()
    ensures SwitchesOn(InitOrder) == [SwitchOf(Light, "01"), SwitchOf(Humidity, "01"), SwitchOf(Acceleration, "01"), SwitchOf(Temperature, "01")]
  {
  }

  // ---------------------------------------------------------------------
  // The device

  class BPart {
    const dev: Btle.Peripheral
    /** `config.CUMULUS_URL`. */
    const collector: string
    var light: Option<int>
    var humidity: Option<int>
    var temperature: Option<int>
    var acceleration: Option<Codec.Triple>
    /** What `_sendDataToCumulus` was handed, in order. */
    var uploads: seq<Upload>

    function Current(): Slots
      reads this
    {
      Slots(light, humidity, temperature, acceleration)
    }

    constructor Create(dev: Btle.Peripheral, collector: string)
      ensures this.dev == dev && this.collector == collector
      ensures Current() == Empty && uploads == []
    {
      this.dev := dev;
      this.collector := collector;
      light, humidity, temperature, acceleration := None, None, None, None;
      uploads := [];
    }

    /** `BPart(addr)`: the Peripheral checks the address, then the slots
        start empty. */
    static method Open(addr: string, collector: string) returns (r: Result<BPart>)
      ensures r.Err? <==> Btle.AddressCheck(addr).Fail?
      ensures r.Ok? ==> fresh(r.value) && fresh(r.value.dev) && r.value.dev.State() == Btle.Initial(addr)
                        && r.value.Current() == Empty && r.value.uploads == [] && r.value.collector == collector
    {
      var p := Btle.Peripheral.Open(addr);
      if p.Err? {
        return Err(p.error);
      }
      var b := new BPart.Create(p.value, collector);
      return Ok(b);
    }

    /** `_handleNotification`. */
    method HandleNotification(notification: string) returns (o: Outcome)
      requires Gatt.UuidsValid(dev.services)
      modifies this
      ensures var (s, up, o') := HandleSpec(old(Current()), Btle.Values(dev.services), notification);
        && Current() == s && o == o'
        && uploads == old(uploads) + (if up.Some? then [Upload(Cumulus.CollectorUrl(collector, dev.deviceAddr), Cumulus.Payload(up.value))] else [])
    {
      o := StoreReading(notification);
      if o.Fail? {
        return;
      }
      if Truthy(light) && Truthy(humidity) && Truthy(temperature) && acceleration.Some? {
        var readings := Cumulus.Readings(temperature.value, humidity.value, light.value, acceleration.value);
        uploads := uploads + [Upload(Cumulus.CollectorUrl(collector, dev.deviceAddr), Cumulus.Payload(readings))];
        light, humidity, temperature, acceleration := None, None, None, None;
      }
    }

    /** The part of `_handleNotification` before the upload test: route the
        notification and store the reading of its channel. */
    method StoreReading(notification: string) returns (o: Outcome)
      requires Gatt.UuidsValid(dev.services)
      modifies this
      ensures uploads == old(uploads)
      ensures match Notify(old(Current()), Btle.Values(dev.services), notification)
        case Err(e) => o == Fail(e) && Current() == old(Current())
        case Ok(s1) => o == Pass && Current() == s1
    {
      var t := Text.Split(notification, ' ');
      if |t| < 4 {
        return Fail(IndexError);
      }
      var svc := ServiceToHandle(Btle.Values(dev.services), t[3]);
      if svc.Err? {
        return Fail(svc.error);
      }
      if svc.value == Some(TemperatureUuid) {
        if |t| < 7 {
          return Fail(IndexError);
        }
        var v := ParseTemperature(t[5] + t[6]);
        if v.Err? {
          return Fail(v.error);
        }
        temperature := Some(v.value);
      } else if svc.value == Some(LightUuid) {
        if |t| < 9 {
          return Fail(IndexError);
        }
        var v := ParseLight(t[5] + t[6] + t[7] + t[8]);
        if v.Err? {
          return Fail(v.error);
        }
        light := Some(v.value);
      } else if svc.value == Some(AccelerationUuid) {
        if |t| < 11 {
          return Fail(IndexError);
        }
        var v := ParseAcceleration(t[5] + t[6] + t[7] + t[8] + t[9] + t[10]);
        if v.Err? {
          return Fail(v.error);
        }
        acceleration := Some(v.value);
      } else if svc.value == Some(HumidityUuid) {
        if |t| < 7 {
          return Fail(IndexError);
        }
        var v := ParseHumidity(t[5] + t[6]);
        if v.Err? {
          return Fail(v.error);
        }
        humidity := Some(v.value);
      }
      return Pass;
    }

    /** `activate<Sensor>Sensor` ("01") and `deactivate<Sensor>Sensor` ("00"). */
    method SwitchSensor(ch: Channel, on: bool, tool: Btle.ToolOutput, reply: Resp) returns (o: Outcome)
      modifies dev
      ensures (dev.State(), o) == SwitchSpec(old(dev.State()), SwitchOf(ch, if on then "01" else "00"), tool, reply)
    {
      o := dev.SensorWrite(Uuid.Str(ServiceUuid(ch)), Uuid.Str(SensorUuid(ch)), if on then "01" else "00", tool, reply);
    }

    /** `initialize`: write `k` is answered by `replies(k)`, notification
        write `j` by `notifyReplies(j)`. */
    method Initialize(tool: Btle.ToolOutput, replies: nat -> Resp, notifyReplies: nat -> Resp) returns (o: Outcome)
      modifies dev
      ensures (dev.State(), o) == InitializeSpec(old(dev.State()), SwitchesOn(InitOrder), tool, replies, notifyReplies)
    {
      var chs := InitOrder;
      ghost var sw, write := SwitchesOn(chs), Writing(tool, replies);
      SwitchFromStep(dev.State(), sw, 0, write);
      o := SwitchSensor(chs[0], true, tool, replies(0));
      if o.Fail? {
        return;
      }
      SwitchFromStep(dev.State(), sw, 1, write);
      o := SwitchSensor(chs[1], true, tool, replies(1));
      if o.Fail? {
        return;
      }
      SwitchFromStep(dev.State(), sw, 2, write);
      o := SwitchSensor(chs[2], true, tool, replies(2));
      if o.Fail? {
        return;
      }
      SwitchFromStep(dev.State(), sw, 3, write);
      o := SwitchSensor(chs[3], true, tool, replies(3));
      if o.Fail? {
        return;
      }
      assert SwitchFrom(dev.State(), sw, 4, write) == (dev.State(), Pass);
      o := dev.ActivateNotifications(notifyReplies);
    }
  }
}
