/** What the gateway uploads to the CUMULUS collector for one complete set of
    readings: the six named entries of the JSON body and the URL the body is
    PUT to. The three copies in bpart.py, btle_alt.py and bpart_sync/main.py
    build the same structure. Values are kept as the raw integer a sensor
    delivered plus the divisor the source applies to it. */
module Cumulus {
  import Text
  import Codec
  import opened Outcomes

  datatype Unit = DegC | Percent | Number

  /** A reading as `raw / scale`; scale 1 means the raw integer itself. */
  datatype Quantity = Quantity(raw: int, scale: nat)

  datatype Entry = Entry(name: string, value: Quantity, unit: Unit)

  /** One complete set: raw temperature (milli-degrees), humidity, light and
      the three raw acceleration axes (1/16000 g). */
  datatype Readings = Readings(temperature: int, humidity: int, light: int, accel: Codec.Triple)

  const Names: seq<string> := ["Temperature", "Humidity", "Light", "AccelX", "AccelY", "AccelZ"]

  /** The unit each payload key is sent with. */
  function UnitOf(name: string): Unit {
    if name == "Temperature" then DegC
    else if name == "Humidity" then Percent
    else Number
  }

  /** The `data` object of `_createJSONString`. */
  function Payload(r: Readings): (p: seq<Entry>)
    ensures |p| == 6
    ensures forall i | 0 <= i < 6 :: p[i].name == Names[i] && p[i].unit == UnitOf(p[i].name)
    ensures forall i, j | 0 <= i < j < 6 :: p[i].name != p[j].name
  {
    [ Entry("Temperature", Quantity(r.temperature, 1000), DegC),
      Entry("Humidity", Quantity(r.humidity, 1), Percent),
      Entry("Light", Quantity(r.light, 1), Number),
      Entry("AccelX", Quantity(r.accel.x, 16000), Number),
      Entry("AccelY", Quantity(r.accel.y, 16000), Number),
      Entry("AccelZ", Quantity(r.accel.z, 16000), Number) ]
  }

  /** The entry sent under `name`, if any. */
  function Lookup(p: seq<Entry>, name: string): (e: Option<Entry>)
    ensures e.Some? ==> e.value in p && e.value.name == name
    ensures e.None? ==> forall i | 0 <= i < |p| :: p[i].name != name
  {
    if p == [] then None
    else if p[0].name == name then Some(p[0])
    else Lookup(p[1..], name)
  }

  /** Every reading of the set travels under its own key, unchanged. */
  lemma PayloadCarries(r: Readings)
    ensures Lookup(Payload(r), "Temperature") == Some(Entry("Temperature", Quantity(r.temperature, 1000), DegC))
    ensures Lookup(Payload(r), "Humidity") == Some(Entry("Humidity", Quantity(r.humidity, 1), Percent))
    ensures Lookup(Payload(r), "Light") == Some(Entry("Light", Quantity(r.light, 1), Number))
    ensures Lookup(Payload(r), "AccelX") == Some(Entry("AccelX", Quantity(r.accel.x, 16000), Number))
    ensures Lookup(Payload(r), "AccelY") == Some(Entry("AccelY", Quantity(r.accel.y, 16000), Number))
    ensures Lookup(Payload(r), "AccelZ") == Some(Entry("AccelZ", Quantity(r.accel.z, 16000), Number))
  {
    var p := Payload(r);
    LookupAt(p, 0);
    LookupAt(p, 1);
    LookupAt(p, 2);
    LookupAt(p, 3);
    LookupAt(p, 4);
    LookupAt(p, 5);
  }

  /** The first entry carrying a name is the one found under it. */
  lemma {:induction false} LookupAt(p: seq<Entry>, i: nat)
    requires i < |p|
    requires forall j | 0 <= j < i :: p[j].name != p[i].name
    ensures Lookup(p, p[i].name) == Some(p[i])
  {
    if i > 0 {
      LookupAt(p[1..], i - 1);
    }
  }

  /** `CUMULUS_URL + mac.replace(':', '')`. */
  function CollectorUrl(base: string, mac: string): (url: string)
    ensures |base| <= |url| == |base| + |mac| - Text.Count(mac, ':')
    ensures url[..|base|] == base && ':' !in url[|base|..]
  {
    Text.RemoveCount(mac, ':');
    base + Text.Remove(mac, ':')
  }

  /** For an address written as colon-separated groups, the URL ends with the
      groups run together in order. */
  lemma UrlOfAddress(base: string, mac: string)
    ensures CollectorUrl(base, mac) == base + Text.Concat(Text.Split(mac, ':'))
  {
    Text.RemoveJoin(Text.Split(mac, ':'), ':');
  }
}
