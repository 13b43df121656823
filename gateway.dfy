/** The two threads of bpart_sync/main.py, one pass of each: the Gateway
    takes the devices the connector handed over, polls every connected bPart
    and uploads its readings, and hands the addresses of the ones it lost
    back to the BTDeviceConnector, which tries to build a bPart for every
    address it holds and hands each one it built to the Gateway.

    The queues between the threads are sequences; `Queue.get` takes the
    front. What the radio does is given as inputs: the bytes (or the
    BTLEException) each sensor read gives, what building a bPart for an
    address gives, whether `disconnect` raises. The order a dict or a set is
    iterated in is an input too, any order of its keys. */
module SyncGateway {
  import opened Outcomes
  import opened Hex
  import Cumulus
  import SyncBPart
  import AsyncBPart

  type Channel = AsyncBPart.Channel
  type Device = SyncBPart.Device

  /** What one `data.read()` gives: the bytes read, or a BTLEException
      because the device can no longer be reached. */
  datatype Read = Raw(bytes: seq<byte>) | Lost

  /** The reads of a pass, by device address and sensor. */
  type Reads = (string, Channel) -> Read

  /** `order` lists every key once: an order a dict or a set can be
      iterated in. */
  predicate IsOrder(order: seq<string>, keys: set<string>) {
    (forall i, j | 0 <= i < j < |order| :: order[i] != order[j])
    && (forall k | k in keys :: k in order) && (forall k | k in order :: k in keys)
  }

  predicate Distinct(s: seq<string>) {
    forall i, j | 0 <= i < j < |s| :: s[i] != s[j]
  }

  function Elements(s: seq<string>): (e: set<string>)
    ensures forall x :: x in e <==> x in s
  {
    set x | x in s
  }

  // ---------------------------------------------------------------------
  // Draining the gateway queue

  /** `connectedDevices[device.deviceAddr] = device` for each queued device,
      front first. */
  function Absorb(m: map<string, Device>, q: seq<Device>): (r: map<string, Device>)
    ensures r.Keys == m.Keys + Addrs(q)
    decreases |q|
  {
    if q == [] then m
    else
      assert Addrs(q) == {q[0].deviceAddr} + Addrs(q[1..]) by {
        assert forall d | d in q :: d == q[0] || d in q[1..];
      }
      Absorb(m[q[0].deviceAddr := q[0]], q[1..])
  }

  /** The addresses of the queued devices. */
  function Addrs(q: seq<Device>): set<string> {
    set d | d in q :: d.deviceAddr
  }

  /** The device stored under an address is the last queued one with that
      address: a later device replaces an earlier one. */
  lemma {:induction false} AbsorbLatest(m: map<string, Device>, q: seq<Device>, i: nat)
    requires i < |q|
    requires forall j | i < j < |q| :: q[j].deviceAddr != q[i].deviceAddr
    ensures q[i].deviceAddr in Absorb(m, q) && Absorb(m, q)[q[i].deviceAddr] == q[i]
    decreases |q|
  {
    var m1 := m[q[0].deviceAddr := q[0]];
    if i == 0 {
      AbsorbKeeps(m1, q[1..], q[0].deviceAddr);
    } else {
      AbsorbLatest(m1, q[1..], i - 1);
    }
  }

  /** An address no queued device has keeps its device. */
  lemma {:induction false} AbsorbKeeps(m: map<string, Device>, q: seq<Device>, k: string)
    requires k in m
    requires forall j | 0 <= j < |q| :: q[j].deviceAddr != k
    ensures k in Absorb(m, q) && Absorb(m, q)[k] == m[k]
    decreases |q|
  {
    if q != [] {
      AbsorbKeeps(m[q[0].deviceAddr := q[0]], q[1..], k);
    }
  }

  // ---------------------------------------------------------------------
  // Polling one device

  /** What the body of the poll loop makes of one device: its readings,
      unreachable (a BTLEException, caught), or a struct.error raised. */
  datatype Poll = Sent(readings: Cumulus.Readings) | Unreachable | Raised

  /** A read that gives the number of bytes the sensor's format unpacks. */
  predicate Fits(r: Read, ch: Channel) {
    r.Raw? && |r.bytes| == AsyncBPart.Width(ch)
  }

  /** The four reads of one device, each read unpacked before the next is
      made: temperature, humidity, light, acceleration. A lost device is
      Unreachable (the BTLEException is caught); a wrong number of bytes
      raises struct.error, which nothing catches. */
  function ReadDevice(mac: string, input: Reads): (p: Poll)
    ensures p.Unreachable? ==> exists ch: Channel :: input(mac, ch).Lost?
    ensures p.Sent? <==>
      && Fits(input(mac, AsyncBPart.Temperature), AsyncBPart.Temperature)
      && Fits(input(mac, AsyncBPart.Humidity), AsyncBPart.Humidity)
      && Fits(input(mac, AsyncBPart.Light), AsyncBPart.Light)
      && Fits(input(mac, AsyncBPart.Acceleration), AsyncBPart.Acceleration)
  {
    match input(mac, AsyncBPart.Temperature)
    case Lost => Unreachable
    case Raw(tb) =>
      match SyncBPart.Decode(AsyncBPart.Temperature, tb)
      case Err(_) => Raised
      case Ok(t) =>
        match input(mac, AsyncBPart.Humidity)
        case Lost => Unreachable
        case Raw(hb) =>
          match SyncBPart.Decode(AsyncBPart.Humidity, hb)
          case Err(_) => Raised
          case Ok(h) =>
            match input(mac, AsyncBPart.Light)
            case Lost => Unreachable
            case Raw(lb) =>
              match SyncBPart.Decode(AsyncBPart.Light, lb)
              case Err(_) => Raised
              case Ok(l) =>
                match input(mac, AsyncBPart.Acceleration)
                case Lost => Unreachable
                case Raw(ab) =>
                  match SyncBPart.Decode(AsyncBPart.Acceleration, ab)
                  case Err(_) => Raised
                  case Ok(a) => Sent(Cumulus.Readings(t.n, h.n, l.n, a.t))
  }

  /** A device that sends carries exactly the four values its sensors
      decode to. */
  lemma SentCarries(mac: string, input: Reads)
    requires ReadDevice(mac, input).Sent?
    ensures var r := ReadDevice(mac, input).readings;
      && SyncBPart.Decode(AsyncBPart.Temperature, input(mac, AsyncBPart.Temperature).bytes) == Ok(SyncBPart.Number(r.temperature))
      && SyncBPart.Decode(AsyncBPart.Humidity, input(mac, AsyncBPart.Humidity).bytes) == Ok(SyncBPart.Number(r.humidity))
      && SyncBPart.Decode(AsyncBPart.Light, input(mac, AsyncBPart.Light).bytes) == Ok(SyncBPart.Number(r.light))
      && SyncBPart.Decode(AsyncBPart.Acceleration, input(mac, AsyncBPart.Acceleration).bytes) == Ok(SyncBPart.Axes(r.accel))
  {
  }

  /** The temperature is read and unpacked before the humidity is read: a
      temperature of the wrong size raises even when the humidity read
      would have found the device gone. */
  lemma TemperatureReadFirst(mac: string, input: Reads)
    requires input(mac, AsyncBPart.Temperature).Raw? && |input(mac, AsyncBPart.Temperature).bytes| != 2
    requires input(mac, AsyncBPart.Humidity).Lost?
    ensures ReadDevice(mac, input) == Raised
  {
  }

  // ---------------------------------------------------------------------
  // The poll loop

  /** What the body of the poll loop makes of each device. */
  type Polls = string -> Poll

  /** The poll loop's view of a pass's reads. */
  function Polled(input: Reads): Polls {
    mac => ReadDevice(mac, input)
  }

  /** The uploads, the addresses marked for deletion and how the loop ends,
      for the devices in `order`: a device is uploaded only when all four
      reads succeed, marked only when one finds it gone, and the first
      struct.error ends the pass. */
  function PollFrom(collector: string, order: seq<string>, polls: Polls): (r: (seq<AsyncBPart.Upload>, seq<string>, Outcome))
    ensures r.2.Fail? ==> r.2 == Fail(StructError)
    ensures |r.0| + |r.1| <= |order|
  {
    if order == [] then ([], [], Pass)
    else
      var mac := order[0];
      var (u, l, o) := PollFrom(collector, order[1..], polls);
      match polls(mac)
      case Raised => ([], [], Fail(StructError))
      case Unreachable => (u, [mac] + l, o)
      case Sent(r) => ([UploadOf(collector, mac, r)] + u, l, o)
  }

  /** When the pass completes, exactly the unreachable devices are marked,
      each once, and the pass only fails on a device that raised. */
  lemma {:induction false} PollMarks(collector: string, order: seq<string>, polls: Polls)
    requires Distinct(order)
    ensures var (_, lost, o) := PollFrom(collector, order, polls);
      && (o.Pass? ==> Distinct(lost) && forall mac :: mac in lost <==> mac in order && polls(mac).Unreachable?)
      && (o.Fail? <==> exists i | 0 <= i < |order| :: polls(order[i]).Raised?)
  {
    if order != [] {
      PollMarks(collector, order[1..], polls);
      var (_, lost, o) := PollFrom(collector, order, polls);
      if o.Fail? && !polls(order[0]).Raised? {
        var i :| 0 <= i < |order[1..]| && polls(order[1..][i]).Raised?;
        assert polls(order[i + 1]).Raised?;
      }
      if o.Pass? {
        forall i | 0 <= i < |order| ensures !polls(order[i]).Raised? {
          if i > 0 {
            assert order[1..][i - 1] == order[i];
          }
        }
      }
    }
  }

  /** The PUT request for a device's readings. */
  function UploadOf(collector: string, mac: string, r: Cumulus.Readings): AsyncBPart.Upload {
    AsyncBPart.Upload(Cumulus.CollectorUrl(collector, mac), Cumulus.Payload(r))
  }

  /** The uploads and marks of the poll loop after the devices before `i`,
      when what is left to poll gives `PollFrom` of the whole order. */
  ghost predicate PollsTo(collector: string, order: seq<string>, polls: Polls, i: nat, sent: seq<AsyncBPart.Upload>, lost: seq<string>)
    requires i <= |order|
  {
    var whole := PollFrom(collector, order, polls);
    var rest := PollFrom(collector, order[i..], polls);
    whole.0 == sent + rest.0 && whole.1 == lost + rest.1 && whole.2 == rest.2
  }

  /** One step of the poll loop: the device at `i` raises and ends the
      pass, or is marked, or uploads. */
  lemma PollStep(collector: string, order: seq<string>, polls: Polls, i: nat, sent: seq<AsyncBPart.Upload>, lost: seq<string>)
    requires i < |order| && PollsTo(collector, order, polls, i, sent, lost)
    ensures polls(order[i]).Raised? ==>
      PollFrom(collector, order, polls) == (sent, lost, Fail(StructError))
    ensures polls(order[i]).Unreachable? ==>
      PollsTo(collector, order, polls, i + 1, sent, lost + [order[i]])
    ensures polls(order[i]).Sent? ==>
      PollsTo(collector, order, polls, i + 1, sent + [UploadOf(collector, order[i], polls(order[i]).readings)], lost)
  {
    assert order[i..][1..] == order[i + 1..];
    var rest := PollFrom(collector, order[i + 1..], polls);
    match polls(order[i])
    case Raised =>
      assert PollFrom(collector, order[i..], polls) == ([], [], Fail(StructError));
      assert sent + [] == sent && lost + [] == lost;
    case Unreachable =>
      assert lost + ([order[i]] + rest.1) == (lost + [order[i]]) + rest.1;
    case Sent(r) =>
      var up := UploadOf(collector, order[i], r);
      assert sent + ([up] + rest.0) == (sent + [up]) + rest.0;
  }

  /** Every upload of a pass goes to the URL of a polled device whose four
      reads succeeded, with that device's readings. */
  lemma {:induction false} PollUploads(collector: string, order: seq<string>, polls: Polls)
    ensures forall up | up in PollFrom(collector, order, polls).0 :: exists mac | mac in order ::
      polls(mac).Sent? && up == UploadOf(collector, mac, polls(mac).readings)
  {
    if order != [] {
      PollUploads(collector, order[1..], polls);
      assert forall mac | mac in order[1..] :: mac in order;
    }
  }

  /** A device that is not marked and did not raise uploads. */
  lemma {:induction false} ReachableUploads(collector: string, order: seq<string>, polls: Polls, i: nat)
    requires i < |order| && polls(order[i]).Sent?
    requires PollFrom(collector, order, polls).2.Pass?
    ensures UploadOf(collector, order[i], polls(order[i]).readings) in PollFrom(collector, order, polls).0
  {
    if i > 0 {
      ReachableUploads(collector, order[1..], polls, i - 1);
    }
  }


  // ---------------------------------------------------------------------
  // Handing lost devices back to the connector

  /** The connector's drain as written: `set` has no `append`, so any
      address in its queue raises AttributeError, before the queue is
      touched. */
  function RequeueAsWritten(disconnected: set<string>, queue: seq<string>): (r: Result<set<string>>)
    ensures r.Ok? <==> queue == []
    ensures r.Ok? ==> r.value == disconnected
    ensures r.Err? ==> r.error == AttributeError
  {
    if queue == [] then Ok(disconnected) else Err(AttributeError)
  }

  /** The connector's drain with `add` for `append`: every queued address
      joins the set. */
  function Requeue(disconnected: set<string>, queue: seq<string>): (r: set<string>)
    ensures forall mac :: mac in r <==> mac in disconnected || mac in queue
    decreases |queue|
  {
    if queue == [] then disconnected
    else
      var r := Requeue(disconnected + {queue[0]}, queue[1..]);
      assert forall mac | mac in queue :: mac == queue[0] || mac in queue[1..];
      r
  }

  /** A device the gateway finds unreachable is handed back; the connector
      as written then fails on its next pass, while with `add` the address
      is tried again. */
  lemma LostDeviceReturns(collector: string, order: seq<string>, polls: Polls, i: nat,
                          disconnected: set<string>, queue: seq<string>)
    requires Distinct(order) && i < |order| && polls(order[i]).Unreachable?
    requires PollFrom(collector, order, polls).2.Pass?
    ensures var lost := PollFrom(collector, order, polls).1;
      && RequeueAsWritten(disconnected, queue + lost) == Err(AttributeError)
      && order[i] in Requeue(disconnected, queue + lost)
  {
    PollMarks(collector, order, polls);
    var lost := PollFrom(collector, order, polls).1;
    assert order[i] in lost;
    assert order[i] in queue + lost;
  }

  // ---------------------------------------------------------------------
  // Building bParts for the connector

  /** What `BPart(mac)` meets for each address: the outcome of the
      Peripheral's connection, its gatttool service listing, and the
      characteristics listing of a handle range. */
  datatype Radio = Radio(link: string -> Outcome, primary: string -> string, chars: string -> (string, string) -> string)

  function Build(radio: Radio, mac: string): (r: Result<Device>)
    ensures r.Ok? ==> r.value.deviceAddr == mac
  {
    var r := SyncBPart.Open(mac, radio.link(mac), radio.primary(mac), radio.chars(mac));
    if r.Ok? then
      SyncBPart.OpenedDevice(mac, radio.link(mac), radio.primary(mac), radio.chars(mac), AsyncBPart.Temperature);
      r
    else r
  }

  /** What `BPart(mac)` gives for each address. */
  type Builds = string -> Result<Device>

  /** Every bPart built is for the address it was built for. */
  ghost predicate Addressed(built: Builds) {
    forall mac :: built(mac).Ok? ==> built(mac).value.deviceAddr == mac
  }

  /** Building with `BPart(mac)` over a radio keeps the address. */
  lemma RadioAddressed(radio: Radio)
    ensures Addressed(mac => Build(radio, mac))
  {
  }

  /** The connector pass over the addresses in `order`: the devices handed
      to the gateway, the addresses connected, and how the loop ends. A
      BTLEException leaves the address for the next pass; any other error
      ends the pass, as does handing over with no gateway set (`None` has
      no `addConnectedDevice`). */
  function ConnectFrom(built: Builds, hasGateway: bool, order: seq<string>): (r: (seq<Device>, seq<string>, Outcome))
    ensures |r.0| == |r.1| <= |order|
    ensures r.2.Fail? ==> r.2.error == AttributeError || !r.2.error.Btle?
  {
    if order == [] then ([], [], Pass)
    else
      var mac := order[0];
      match built(mac)
      case Ok(dev) =>
        if !hasGateway then ([], [], Fail(AttributeError))
        else
          var (ds, ms, o) := ConnectFrom(built, hasGateway, order[1..]);
          ([dev] + ds, [mac] + ms, o)
      case Err(e) =>
        if e.Btle? then ConnectFrom(built, hasGateway, order[1..])
        else ([], [], Fail(e))
  }

  /** Each device handed over is the bPart built for the address marked
      beside it, and that address is where the gateway files it. */
  lemma {:induction false} ConnectHandsOver(built: Builds, hasGateway: bool, order: seq<string>)
    requires Addressed(built)
    ensures forall i | 0 <= i < |ConnectFrom(built, hasGateway, order).0| ::
      && ConnectFrom(built, hasGateway, order).1[i] in order
      && built(ConnectFrom(built, hasGateway, order).1[i]) == Ok(ConnectFrom(built, hasGateway, order).0[i])
      && ConnectFrom(built, hasGateway, order).0[i].deviceAddr == ConnectFrom(built, hasGateway, order).1[i]
  {
    if order != [] {
      ConnectHandsOver(built, hasGateway, order[1..]);
      var r := ConnectFrom(built, hasGateway, order);
      var r1 := ConnectFrom(built, hasGateway, order[1..]);
      if built(order[0]).Ok? && hasGateway {
        var dev := built(order[0]).value;
        assert r.0 == [dev] + r1.0 && r.1 == [order[0]] + r1.1;
        forall i | 0 <= i < |r.0| ensures r.1[i] in order && built(r.1[i]) == Ok(r.0[i]) && r.0[i].deviceAddr == r.1[i] {
          if i > 0 {
            assert r.0[i] == r1.0[i - 1] && r.1[i] == r1.1[i - 1];
            assert r1.1[i - 1] in order[1..];
          }
        }
      } else if built(order[0]).Err? && built(order[0]).error.Btle? {
        assert r == r1;
        assert forall mac | mac in order[1..] :: mac in order;
      }
    }
  }

  /** A completed pass connects every address that builds, each once. */
  lemma {:induction false} ConnectAll(built: Builds, hasGateway: bool, order: seq<string>)
    requires Distinct(order)
    requires ConnectFrom(built, hasGateway, order).2.Pass?
    ensures var ms := ConnectFrom(built, hasGateway, order).1;
      Distinct(ms) && forall mac :: mac in ms <==> mac in order && built(mac).Ok?
  {
    if order != [] {
      ConnectAll(built, hasGateway, order[1..]);
      forall mac | mac in order[1..] ensures mac != order[0] {
        var j :| 0 <= j < |order[1..]| && order[1..][j] == mac;
        assert order[j + 1] == mac;
      }
      assert forall mac | mac in order :: mac == order[0] || mac in order[1..];
    }
  }

  /** Only BTLEExceptions are caught: a pass with a gateway whose addresses
      all build or fail with a BTLEException completes. */
  lemma {:induction false} ConnectCompletes(built: Builds, order: seq<string>)
    requires forall i | 0 <= i < |order| :: built(order[i]).Ok? || built(order[i]).error.Btle?
    ensures ConnectFrom(built, true, order).2 == Pass
  {
    if order != [] {
      assert forall i | 0 <= i < |order[1..]| :: order[1..][i] == order[i + 1];
      ConnectCompletes(built, order[1..]);
    }
  }

  // ---------------------------------------------------------------------
  // The two threads

  class Gateway {
    var connectedDevices: map<string, Device>
    var deviceQueue: seq<Device>
    var running: bool
    /** `CUMULUS_URL`. */
    const collector: string
    /** `BTConnector`. */
    const connector: Connector?
    /** The PUT requests sent to the collector. */
    var uploads: seq<AsyncBPart.Upload>
    /** The addresses `disconnect` was called on at shutdown. */
    var disconnects: seq<string>

    /** `Gateway(connector)`. */
    constructor (collector: string, connector: Connector?)
      ensures this.collector == collector && this.connector == connector
      ensures connectedDevices == map[] && deviceQueue == [] && running
      ensures uploads == [] && disconnects == []
    {
      this.collector := collector;
      this.connector := connector;
      connectedDevices := map[];
      deviceQueue := [];
      running := true;
      uploads := [];
      disconnects := [];
    }

    /** `addConnectedDevice`: the device joins the back of the queue. */
    method AddConnectedDevice(device: Device)
      modifies this
      ensures deviceQueue == old(deviceQueue) + [device]
      ensures connectedDevices == old(connectedDevices) && running == old(running)
      ensures uploads == old(uploads) && disconnects == old(disconnects)
    {
      deviceQueue := deviceQueue + [device];
    }

    method Stop()
      modifies this
      ensures !running
      ensures connectedDevices == old(connectedDevices) && deviceQueue == old(deviceQueue)
      ensures uploads == old(uploads) && disconnects == old(disconnects)
    {
      running := false;
    }

    /** The inner loop of `run`: every queued device is stored under its
        address and the queue is left empty. */
    method Drain()
      modifies this
      ensures deviceQueue == []
      ensures connectedDevices == Absorb(old(connectedDevices), old(deviceQueue))
      ensures running == old(running) && uploads == old(uploads) && disconnects == old(disconnects)
    {
      while deviceQueue != []
        invariant Absorb(connectedDevices, deviceQueue) == Absorb(old(connectedDevices), old(deviceQueue))
        invariant running == old(running) && uploads == old(uploads) && disconnects == old(disconnects)
        decreases |deviceQueue|
      {
        var device := deviceQueue[0];
        deviceQueue := deviceQueue[1..];
        connectedDevices := connectedDevices[device.deviceAddr := device];
      }
    }

    /** The `for mac, device in self.connectedDevices.iteritems()` loop:
        uploads are sent as devices succeed, and the lost addresses are
        returned; a struct.error ends the loop. */
    method Poll(order: seq<string>, input: Reads) returns (lost: seq<string>, o: Outcome)
      modifies this
      ensures var (u, l, po) := PollFrom(collector, order, Polled(input));
        uploads == old(uploads) + u && lost == l && o == po
      ensures connectedDevices == old(connectedDevices) && deviceQueue == old(deviceQueue)
      ensures running == old(running) && disconnects == old(disconnects)
    {
      lost := [];
      ghost var sent: seq<AsyncBPart.Upload> := [];
      var i := 0;
      assert order[i..] == order;
      while i < |order|
        invariant 0 <= i <= |order|
        invariant uploads == old(uploads) + sent
        invariant PollsTo(collector, order, Polled(input), i, sent, lost)
        invariant connectedDevices == old(connectedDevices) && deviceQueue == old(deviceQueue)
        invariant running == old(running) && disconnects == old(disconnects)
      {
        var mac := order[i];
        PollStep(collector, order, Polled(input), i, sent, lost);
        var p := ReadDevice(mac, input);
        if p.Raised? {
          return lost, Fail(StructError);
        } else if p.Unreachable? {
          lost := lost + [mac];
        } else {
          var up := UploadOf(collector, mac, p.readings);
          uploads := uploads + [up];
          sent := sent + [up];
        }
        i := i + 1;
      }
      assert order[i..] == [];
      o := Pass;
    }

    /** `for mac in macsToDelete`: each address is deleted from the
        connected devices, then passed to the connector. */
    method HandBack(lost: seq<string>) returns (o: Outcome)
      modifies this, connector
      ensures o.Pass? ==> connector != null || lost == []
      ensures Distinct(lost) && (forall mac | mac in lost :: mac in old(connectedDevices)) && (connector != null || lost == []) ==>
        && o == Pass
        && connectedDevices == old(connectedDevices) - Elements(lost)
        && (connector != null ==>
              && connector.deviceQueue == old(connector.deviceQueue) + lost
              && connector.disconnectedDevices == old(connector.disconnectedDevices))
      ensures connector == null && lost != [] && lost[0] in old(connectedDevices) ==>
        o == Fail(AttributeError) && connectedDevices == old(connectedDevices) - {lost[0]}
      ensures deviceQueue == old(deviceQueue) && running == old(running)
      ensures uploads == old(uploads) && disconnects == old(disconnects)
      ensures connector != null ==>
        && connector.disconnectedDevices == old(connector.disconnectedDevices)
        && connector.running == old(connector.running) && connector.gateway == old(connector.gateway)
    {
      var i := 0;
      while i < |lost|
        invariant 0 <= i <= |lost|
        invariant connectedDevices == old(connectedDevices) - Elements(lost[..i])
        invariant connector != null ==> connector.deviceQueue == old(connector.deviceQueue) + lost[..i]
        invariant connector != null ==> connector.disconnectedDevices == old(connector.disconnectedDevices)
        invariant connector != null ==> connector.running == old(connector.running) && connector.gateway == old(connector.gateway)
        invariant connector == null ==> i == 0
        invariant deviceQueue == old(deviceQueue) && running == old(running)
        invariant uploads == old(uploads) && disconnects == old(disconnects)
      {
        var mac := lost[i];
        if mac !in connectedDevices {
          return Fail(KeyError);
        }
        connectedDevices := connectedDevices - {mac};
        if connector == null {
          return Fail(AttributeError);
        }
        connector.AddDisconnectedDevice(mac);
        assert lost[..i + 1] == lost[..i] + [mac];
        i := i + 1;
      }
      assert lost[..i] == lost;
      o := Pass;
    }

    /** One pass of the `while self.running` loop of `run`: drain the queue,
        poll every connected device, then delete the lost ones and hand
        them back. */
    method Step(order: seq<string>, input: Reads) returns (o: Outcome)
      requires IsOrder(order, Absorb(connectedDevices, deviceQueue).Keys)
      modifies this, connector
      ensures deviceQueue == [] && running == old(running) && disconnects == old(disconnects)
      ensures uploads == old(uploads) + PollFrom(collector, order, Polled(input)).0
      ensures PollFrom(collector, order, Polled(input)).2.Fail? ==>
        o == PollFrom(collector, order, Polled(input)).2 && connectedDevices == Absorb(old(connectedDevices), old(deviceQueue))
      ensures var (_, lost, po) := PollFrom(collector, order, Polled(input));
        po.Pass? && (connector != null || lost == []) ==>
        && o == Pass
        && connectedDevices == Absorb(old(connectedDevices), old(deviceQueue)) - Elements(lost)
      ensures var (_, lost, po) := PollFrom(collector, order, Polled(input));
        po.Pass? && connector == null && lost != [] ==> o == Fail(AttributeError)
      ensures connector != null ==> var (_, lost, po) := PollFrom(collector, order, Polled(input));
        && connector.deviceQueue == old(connector.deviceQueue) + (if po.Pass? then lost else [])
        && connector.disconnectedDevices == old(connector.disconnectedDevices)
        && connector.running == old(connector.running) && connector.gateway == old(connector.gateway)
      ensures o.Pass? ==> forall mac :: mac in connectedDevices <==>
        mac in Absorb(old(connectedDevices), old(deviceQueue)) && !ReadDevice(mac, input).Unreachable?
    {
      Drain();
      var lost, po := Poll(order, input);
      if po.Fail? {
        return po;
      }
      PollMarks(collector, order, Polled(input));
      ghost var absorbed := connectedDevices;
      o := HandBack(lost);
      if o.Pass? {
        assert connectedDevices == absorbed - Elements(lost);
        forall mac ensures mac in connectedDevices <==> mac in absorbed && !ReadDevice(mac, input).Unreachable? {
          assert mac in lost <==> mac in order && ReadDevice(mac, input).Unreachable?;
        }
      }
    }

    /** The cleanup after the loop: `disconnect` is called on every
        connected device, and one that raises a BTLEException does not stop
        the others. The addresses whose disconnect raised are returned. */
    method Shutdown(order: seq<string>, fails: string -> bool) returns (warned: seq<string>)
      requires IsOrder(order, connectedDevices.Keys)
      modifies this
      ensures disconnects == old(disconnects) + order
      ensures forall mac :: mac in warned <==> mac in connectedDevices && fails(mac)
      ensures connectedDevices == old(connectedDevices) && deviceQueue == old(deviceQueue)
      ensures running == old(running) && uploads == old(uploads)
    {
      warned := [];
      var i := 0;
      while i < |order|
        invariant 0 <= i <= |order|
        invariant disconnects == old(disconnects) + order[..i]
        invariant forall mac :: mac in warned <==> mac in order[..i] && fails(mac)
        invariant connectedDevices == old(connectedDevices) && deviceQueue == old(deviceQueue)
        invariant running == old(running) && uploads == old(uploads)
      {
        var mac := order[i];
        disconnects := disconnects + [mac];
        if fails(mac) {
          warned := warned + [mac];
        }
        assert order[..i + 1] == order[..i] + [mac];
        i := i + 1;
      }
      assert order[..i] == order;
    }
  }

  class Connector {
    var disconnectedDevices: set<string>
    var deviceQueue: seq<string>
    var running: bool
    var gateway: Gateway?

    /** `BTDeviceConnector(gateway)`, over the roster of addresses. */
    constructor (devices: seq<string>, gateway: Gateway?)
      ensures disconnectedDevices == Elements(devices) && deviceQueue == [] && running
      ensures this.gateway == gateway
    {
      disconnectedDevices := Elements(devices);
      deviceQueue := [];
      running := true;
      this.gateway := gateway;
    }

    /** `addDisconnectedDevice`: the address joins the back of the queue. */
    method AddDisconnectedDevice(mac: string)
      modifies this
      ensures deviceQueue == old(deviceQueue) + [mac]
      ensures disconnectedDevices == old(disconnectedDevices) && running == old(running) && gateway == old(gateway)
    {
      deviceQueue := deviceQueue + [mac];
    }

    method SetGateway(gateway: Gateway?)
      modifies this
      ensures this.gateway == gateway
      ensures disconnectedDevices == old(disconnectedDevices) && deviceQueue == old(deviceQueue) && running == old(running)
    {
      this.gateway := gateway;
    }

    method Stop()
      modifies this
      ensures !running
      ensures disconnectedDevices == old(disconnectedDevices) && deviceQueue == old(deviceQueue) && gateway == old(gateway)
    {
      running := false;
    }

    /** The inner loop of `run` as written: `self.disconnectedDevices.append`
        is looked up before `get` runs, so a nonempty queue raises and
        nothing changes. */
    method DrainAsWritten() returns (o: Outcome)
      modifies this
      ensures match RequeueAsWritten(old(disconnectedDevices), old(deviceQueue))
        case Ok(s) => o == Pass && disconnectedDevices == s && deviceQueue == []
        case Err(e) => o == Fail(e) && disconnectedDevices == old(disconnectedDevices) && deviceQueue == old(deviceQueue)
      ensures running == old(running) && gateway == old(gateway)
    {
      if deviceQueue != [] {
        return Fail(AttributeError);
      }
      o := Pass;
    }

    /** The inner loop of `run` with `add`: the queue is emptied into the
        set. */
    method Drain()
      modifies this
      ensures deviceQueue == []
      ensures disconnectedDevices == Requeue(old(disconnectedDevices), old(deviceQueue))
      ensures running == old(running) && gateway == old(gateway)
    {
      while deviceQueue != []
        invariant Requeue(disconnectedDevices, deviceQueue) == Requeue(old(disconnectedDevices), old(deviceQueue))
        invariant running == old(running) && gateway == old(gateway)
        decreases |deviceQueue|
      {
        var mac := deviceQueue[0];
        deviceQueue := deviceQueue[1..];
        disconnectedDevices := disconnectedDevices + {mac};
      }
    }

    /** The `for mac in self.disconnectedDevices` loop and the removals
        after it. */
    method Connect(order: seq<string>, built: Builds) returns (o: Outcome)
      modifies this, gateway
      ensures gateway == old(gateway)
      ensures var (ds, ms, po) := ConnectFrom(built, gateway != null, order);
        && o == po
        && (gateway != null ==> gateway.deviceQueue == old(gateway.deviceQueue) + ds)
        && disconnectedDevices == (if po.Pass? then old(disconnectedDevices) - Elements(ms) else old(disconnectedDevices))
      ensures deviceQueue == old(deviceQueue) && running == old(running)
      ensures gateway != null ==>
        && gateway.connectedDevices == old(gateway.connectedDevices) && gateway.running == old(gateway.running)
        && gateway.uploads == old(gateway.uploads) && gateway.disconnects == old(gateway.disconnects)
    {
      var toRemove: seq<string> := [];
      ghost var handed: seq<Device> := [];
      var i := 0;
      assert order[i..] == order;
      assert handed + ConnectFrom(built, gateway != null, order).0 == ConnectFrom(built, gateway != null, order).0;
      assert toRemove + ConnectFrom(built, gateway != null, order).1 == ConnectFrom(built, gateway != null, order).1;
      while i < |order|
        invariant 0 <= i <= |order|
        invariant gateway == old(gateway) && deviceQueue == old(deviceQueue) && running == old(running)
        invariant disconnectedDevices == old(disconnectedDevices)
        invariant gateway != null ==> gateway.connectedDevices == old(gateway.connectedDevices) && gateway.running == old(gateway.running)
        invariant gateway != null ==> gateway.uploads == old(gateway.uploads) && gateway.disconnects == old(gateway.disconnects)
        invariant gateway != null ==> gateway.deviceQueue == old(gateway.deviceQueue) + handed
        invariant gateway == null ==> handed == []
        invariant var r := ConnectFrom(built, gateway != null, order[i..]);
          ConnectFrom(built, gateway != null, order) == (handed + r.0, toRemove + r.1, r.2)
      {
        var mac := order[i];
        assert order[i..][1..] == order[i + 1..];
        var r := built(mac);
        ghost var rest := ConnectFrom(built, gateway != null, order[i + 1..]);
        if r.Ok? {
          if gateway == null {
            return Fail(AttributeError);
          }
          assert ConnectFrom(built, gateway != null, order[i..]) == ([r.value] + rest.0, [mac] + rest.1, rest.2);
          assert handed + ([r.value] + rest.0) == (handed + [r.value]) + rest.0;
          assert toRemove + ([mac] + rest.1) == (toRemove + [mac]) + rest.1;
          gateway.AddConnectedDevice(r.value);
          handed := handed + [r.value];
          toRemove := toRemove + [mac];
        } else if !r.error.Btle? {
          return Fail(r.error);
        }
        i := i + 1;
      }
      assert order[i..] == [];
      disconnectedDevices := disconnectedDevices - Elements(toRemove);
      o := Pass;
    }

    /** One pass of the `while self.running` loop of `run` as written. */
    method StepAsWritten(order: seq<string>, built: Builds) returns (o: Outcome)
      modifies this, gateway
      ensures gateway == old(gateway) && running == old(running)
      ensures gateway != null ==>
        && gateway.connectedDevices == old(gateway.connectedDevices) && gateway.running == old(gateway.running)
        && gateway.uploads == old(gateway.uploads) && gateway.disconnects == old(gateway.disconnects)
      ensures old(deviceQueue) != [] ==>
        && o == Fail(AttributeError)
        && disconnectedDevices == old(disconnectedDevices) && deviceQueue == old(deviceQueue)
        && (gateway != null ==> gateway.deviceQueue == old(gateway.deviceQueue))
      ensures old(deviceQueue) == [] ==> var r := ConnectFrom(built, gateway != null, order);
        && o == r.2
        && (gateway != null ==> gateway.deviceQueue == old(gateway.deviceQueue) + r.0)
        && disconnectedDevices == (if r.2.Pass? then old(disconnectedDevices) - Elements(r.1) else old(disconnectedDevices))
    {
      o := DrainAsWritten();
      if o.Fail? {
        return;
      }
      o := Connect(order, built);
    }

    /** One pass of the `while self.running` loop of `run`, draining with
        `add`: every address that builds is handed over and leaves the set,
        the others stay. */
    method Step(order: seq<string>, built: Builds) returns (o: Outcome)
      requires IsOrder(order, Requeue(disconnectedDevices, deviceQueue))
      modifies this, gateway
      ensures gateway == old(gateway) && running == old(running) && deviceQueue == []
      ensures gateway != null ==>
        && gateway.connectedDevices == old(gateway.connectedDevices) && gateway.running == old(gateway.running)
        && gateway.uploads == old(gateway.uploads) && gateway.disconnects == old(gateway.disconnects)
      ensures var r := ConnectFrom(built, gateway != null, order);
        && o == r.2
        && (gateway != null ==> gateway.deviceQueue == old(gateway.deviceQueue) + r.0)
        && disconnectedDevices == (if r.2.Pass? then Requeue(old(disconnectedDevices), old(deviceQueue)) - Elements(r.1)
                                   else Requeue(old(disconnectedDevices), old(deviceQueue)))
      ensures o.Pass? ==> forall mac :: mac in disconnectedDevices <==>
        mac in Requeue(old(disconnectedDevices), old(deviceQueue)) && !built(mac).Ok?
    {
      Drain();
      o := Connect(order, built);
      if o.Pass? {
        ConnectAll(built, gateway != null, order);
      }
    }
  }
}
