/** The older, self-contained BPart of btle_alt.py: one class that drives
    gatttool itself, switches notifications on and off by fixed handles,
    tracks their status (ACTIVE / ACTIVATING / INACTIVE), routes
    notifications by the literal handle token into the four reading slots
    and uploads a complete set. Gatttool runs are given as the text they
    print, each wait for the interactive helper as its outcome (`Resp`). */
module AltBPart {
  import opened Outcomes
  import Text
  import Hex
  import Uuid
  import Gatt
  import Btle
  import Cumulus
  import Codec
  import opened AsyncBPart

  /** `notificationStatus`: NOTIFICATION_ACTIVE, _ACTIVATING, _INACTIVE. */
  datatype NotifyStatus = Active | Activating | Inactive

  /** The fields of a btle_alt `BPart`. `descriptions` holds the
      `description` of each stored service, by the same key. */
  datatype AState = AState(
    helper: bool,            // `_helper` holds a gatttool process
    services: Gatt.Services,
    descriptions: map<string, string>,
    discovered: bool,        // `discoveredAllServices`
    running: bool,
    status: NotifyStatus,    // `notificationStatus`
    connected: bool,
    addr: string,            // `deviceAddr`
    collector: string,       // `config.CUMULUS_URL`
    slots: Slots,            // `_light`, `_humidity`, `_temperature`, `_acceleration`
    sent: seq<string>,       // commands written to the helper, oldest first
    uploads: seq<Upload>)    // what `_sendDataToCumulus` was handed

  /** The fields `__init__` sets (after the address check, which is
      `Btle.AddressCheck`). */
  function Initial(addr: string, collector: string): AState {
    AState(false, [], map[], false, true, Inactive, false, addr, collector, Empty, [], [])
  }

  /** The link is only ever marked up while a helper runs. */
  predicate Linked(s: AState) {
    s.connected ==> s.helper
  }

  // ---------------------------------------------------------------------
  // The helper process and the link

  function StartHelperSpec(s: AState): AState {
    s.(helper := true)
  }

  function StopHelperSpec(s: AState): AState {
    if s.helper then s.(helper := false, sent := s.sent + ["exit"]) else s
  }

  /** `connect`: start the helper, ask it to connect and wait; a timeout
      stops the helper again and reports DISCONNECTED, EOF escapes. */
  function ConnectSpec(s: AState, reply: Resp): (r: (AState, Outcome))
    ensures r.1.Fail? ==> r.1.error in {Btle(Disconnected), PexpectEof}
  {
    var s1 := StartHelperSpec(s).(sent := s.sent + [Btle.ConnectCommand(s.addr)]);
    match reply
    case Matched(_) => (s1.(connected := true), Pass)
    case Timeout => (StopHelperSpec(s1), Fail(Btle(Disconnected)))
    case Eof => (s1, Fail(PexpectEof))
  }

  /** The effect of `connect` on the link: up with the helper on success,
      the helper stopped after a timeout (the link flag untouched), and
      the connect command sent in every case. */
  lemma ConnectEffects(s: AState, reply: Resp)
    ensures var (r, o) := ConnectSpec(s, reply);
      && r.sent[..|s.sent| + 1] == s.sent + [Btle.ConnectCommand(s.addr)]
      && (o.Pass? <==> reply.Matched?)
      && (reply.Matched? ==> r.connected && r.helper)
      && (reply.Timeout? ==> !r.helper && r.connected == s.connected && o == Fail(Btle(Disconnected)))
      && (!s.connected ==> Linked(r))
  {
    var s1 := StartHelperSpec(s).(sent := s.sent + [Btle.ConnectCommand(s.addr)]);
    assert (s1.sent + ["exit"])[..|s.sent| + 1] == s1.sent;
  }

  /** `disconnect`: `running` and `connected` cleared; a running helper is
      told "disconnect" and then stopped; without one nothing is sent. */
  function DisconnectSpec(s: AState): (r: AState)
    ensures !r.running && !r.connected && !r.helper && Linked(r)
    ensures r.sent == s.sent + (if s.helper then ["disconnect", "exit"] else [])
    ensures r.status == s.status && r.slots == s.slots && r.services == s.services
  {
    var s1 := s.(running := false, connected := false);
    if !s1.helper then s1
    else
      var s2 := StopHelperSpec(s1.(sent := s1.sent + ["disconnect"]));
      assert s1.sent + ["disconnect"] + ["exit"] == s.sent + ["disconnect", "exit"];
      s2
  }

  // ---------------------------------------------------------------------
  // Switching notifications on and off

  /** The four notification handles, with the value that switches them on. */
  const ActivateCommands: seq<string> :=
    ["char-write-req 0014 0100", "char-write-req 0018 0100", "char-write-req 001c 0100", "char-write-req 0020 0100"]

  /** The same handles, written without response to switch them off. */
  const DeactivateCommands: seq<string> :=
    ["char-write-cmd 0014 0000", "char-write-cmd 0018 0000", "char-write-cmd 001c 0000", "char-write-cmd 0020 0000"]

  /** How a run of command / answer exchanges ended: every answer came, one
      timed out, or an exception escaped. */
  datatype Exchange = Acked | TimedOut | Broke(error: Error)

  /** `_writeCmd(cmds[i])` then `_getResp(...)`, for `i` on; wait `i` is
      answered by `replies(i)`. Without a helper the write raises. */
  function ExchangeFrom(s: AState, cmds: seq<string>, i: nat, replies: nat -> Resp): (r: (AState, Exchange))
    decreases |cmds| - i
  {
    if i >= |cmds| then (s, Acked)
    else if !s.helper then (s, Broke(Btle(InternalError)))
    else
      var s1 := s.(sent := s.sent + [cmds[i]]);
      match replies(i)
      case Matched(_) => ExchangeFrom(s1, cmds, i + 1, replies)
      case Timeout => (s1, TimedOut)
      case Eof => (s1, Broke(PexpectEof))
  }

  /** With a helper, the exchanges send the commands from `i` up to the
      first answer that does not come (that one included), change nothing
      else, and all are acknowledged exactly when every answer comes. */
  lemma {:induction false} ExchangeSends(s: AState, cmds: seq<string>, i: nat, replies: nat -> Resp) returns (k: nat)
    requires s.helper && i <= |cmds|
    ensures var (r, x) := ExchangeFrom(s, cmds, i, replies);
      && i <= k <= |cmds| && r == s.(sent := s.sent + cmds[i..k])
      && (x == Acked <==> forall j | i <= j < |cmds| :: replies(j).Matched?)
      && (x == Acked ==> k == |cmds|)
      && (x == TimedOut ==> i < k && replies(k - 1).Timeout?)
      && (x.Broke? ==> x.error == PexpectEof)
    decreases |cmds| - i
  {
    if i == |cmds| {
      k := i;
      assert cmds[i..k] == [];
    } else {
      var s1 := s.(sent := s.sent + [cmds[i]]);
      match replies(i)
      case Matched(_) =>
        k := ExchangeSends(s1, cmds, i + 1, replies);
        assert cmds[i..k] == [cmds[i]] + cmds[i + 1..k];
        assert s1.sent + cmds[i + 1..k] == s.sent + cmds[i..k];
      case Timeout =>
        k := i + 1;
        assert cmds[i..k] == [cmds[i]];
      case Eof =>
        k := i + 1;
        assert cmds[i..k] == [cmds[i]];
    }
  }

  /** `activateNotifications`: with the link up, the four writes and their
      answers; all answered makes the status ACTIVE, a timeout ACTIVATING.
      With the link down only the status changes, to ACTIVATING. */
  function ActivateSpec(s: AState, replies: nat -> Resp): (AState, Outcome) {
    if s.connected then
      var (s1, x) := ExchangeFrom(s, ActivateCommands, 0, replies);
      match x
      case Acked => (s1.(status := Active), Pass)
      case TimedOut => (s1.(status := Activating), Pass)
      case Broke(e) => (s1, Fail(e))
    else (s.(status := Activating), Pass)
  }

  /** `deactivateNotifications`: the four writes and their answers; all
      answered makes the status INACTIVE, a timeout leaves it as it was. */
  function DeactivateSpec(s: AState, replies: nat -> Resp): (AState, Outcome) {
    var (s1, x) := ExchangeFrom(s, DeactivateCommands, 0, replies);
    match x
    case Acked => (s1.(status := Inactive), Pass)
    case TimedOut => (s1, Pass)
    case Broke(e) => (s1, Fail(e))
  }

  /** Activation with the link up (and so a helper) and no EOF: it passes,
      the status is ACTIVE exactly when all four writes are acknowledged and
      ACTIVATING otherwise, and the writes sent are a prefix of the four. */
  lemma ActivationOutcome(s: AState, replies: nat -> Resp)
    requires s.connected && Linked(s) && forall j | 0 <= j < 4 :: !replies(j).Eof?
    ensures var (r, o) := ActivateSpec(s, replies);
      && o.Pass? && r.connected && r.helper
      && (r.status == Active <==> forall j | 0 <= j < 4 :: replies(j).Matched?)
      && (r.status != Active ==> r.status == Activating)
      && exists k | 1 <= k <= 4 :: r == s.(status := r.status, sent := s.sent + ActivateCommands[..k])
  {
    var k := ExchangeSends(s, ActivateCommands, 0, replies);
    var (s1, x) := ExchangeFrom(s, ActivateCommands, 0, replies);
    if x.Broke? {
      assert false;
    }
    if x == Acked {
      assert forall j | 0 <= j < 4 :: replies(j).Matched?;
    }
    assert ActivateCommands[0..k] == ActivateCommands[..k];
    assert 1 <= k <= 4;
  }

  /** Activation with the link down sends nothing and only sets the status
      to ACTIVATING. */
  lemma ActivationWhileDown(s: AState, replies: nat -> Resp)
    requires !s.connected
    ensures ActivateSpec(s, replies) == (s.(status := Activating), Pass)
  {
  }

  /** Deactivation with a helper and no EOF passes; the status becomes
      INACTIVE when all four writes are acknowledged and stays as it was
      after a timeout. */
  lemma DeactivationOutcome(s: AState, replies: nat -> Resp)
    requires s.helper && forall j | 0 <= j < 4 :: !replies(j).Eof?
    ensures var (r, o) := DeactivateSpec(s, replies);
      && o.Pass? && r.connected == s.connected && r.helper
      && ((forall j | 0 <= j < 4 :: replies(j).Matched?) ==> r.status == Inactive && r.sent == s.sent + DeactivateCommands)
      && (!(forall j | 0 <= j < 4 :: replies(j).Matched?) ==> r.status == s.status)
  {
    var k := ExchangeSends(s, DeactivateCommands, 0, replies);
    var (s1, x) := ExchangeFrom(s, DeactivateCommands, 0, replies);
    if x.Broke? {
      assert false;
    }
    assert DeactivateCommands[0..4] == DeactivateCommands;
  }

  // ---------------------------------------------------------------------
  // Notifications

  /** The if/elif chain of `_handleNotification` on the literal handle
      token. */
  function HandleRoute(handle: string): (ch: Option<Channel>)
    ensures ch.Some? <==> handle in {"0x001b", "0x0013", "0x0017", "0x001f"}
    ensures ch == Some(Temperature) <==> handle == "0x001b"
    ensures ch == Some(Light) <==> handle == "0x0013"
    ensures ch == Some(Acceleration) <==> handle == "0x0017"
    ensures ch == Some(Humidity) <==> handle == "0x001f"
  {
    if handle == "0x001b" then Some(Temperature)
    else if handle == "0x0013" then Some(Light)
    else if handle == "0x0017" then Some(Acceleration)
    else if handle == "0x001f" then Some(Humidity)
    else None
  }

  /** One notification up to the upload test: the text is split at single
      spaces, token 3 is the handle, and the routed channel's payload
      tokens are decoded into its slot. */
  function StoreNotification(s: Slots, notification: string): (r: Result<Slots>) {
    var t := Text.Split(notification, ' ');
    if |t| < 4 then Err(IndexError)
    else
      match HandleRoute(t[3])
      case None => Ok(s)
      case Some(ch) => Store(s, ch, t)
  }

  /** `_handleNotification`: the new slots, the readings uploaded if the
      set became complete, and the exception that escaped, if any (the
      slots are unchanged then). */
  function HandleSlots(s: Slots, notification: string): (r: (Slots, Option<Cumulus.Readings>, Outcome)) {
    match StoreNotification(s, notification)
    case Err(e) => (s, None, Fail(e))
    case Ok(s1) => if Complete(s1) then (Empty, Some(ReadingsOf(s1)), Pass) else (s1, None, Pass)
  }

  /** Upload happens exactly when the stored slots are all true, it sends
      those slots, and they are all None afterwards; otherwise the stored
      slots are kept. */
  lemma UploadExactlyWhenComplete(s: Slots, n: string)
    ensures var (s2, up, o) := HandleSlots(s, n);
      && (up.Some? <==> StoreNotification(s, n).Ok? && Complete(StoreNotification(s, n).value))
      && (up.Some? ==> s2 == Empty && up.value == ReadingsOf(StoreNotification(s, n).value))
      && (up.None? && o.Pass? ==> s2 == StoreNotification(s, n).value)
      && (o.Fail? ==> s2 == s && up.None?)
  {
  }

  /** A handle other than the four leaves the slots as they are. */
  lemma OtherHandleKeepsSlots(s: Slots, n: string)
    requires !Complete(s)
    requires var t := Text.Split(n, ' '); |t| >= 4 && t[3] !in {"0x001b", "0x0013", "0x0017", "0x001f"}
    ensures HandleSlots(s, n) == (s, None, Pass)
  {
  }

  /** A notification writes only its own channel's slot. */
  lemma OnlyOwnSlot(s: Slots, n: string, ch: Channel)
    requires var t := Text.Split(n, ' '); |t| >= 4 && HandleRoute(t[3]) == Some(ch)
    requires StoreNotification(s, n).Ok?
    ensures var s1 := StoreNotification(s, n).value;
      && (ch != Light ==> s1.light == s.light)
      && (ch != Humidity ==> s1.humidity == s.humidity)
      && (ch != Temperature ==> s1.temperature == s.temperature)
      && (ch != Acceleration ==> s1.acceleration == s.acceleration)
      && (ch == Light ==> s1.light.Some?) && (ch == Humidity ==> s1.humidity.Some?)
      && (ch == Temperature ==> s1.temperature.Some?) && (ch == Acceleration ==> s1.acceleration.Some?)
  {
  }

  /** The payload tokens of a routed handle are read as in bpart.py: the
      bytes gatttool printed are the value stored. */
  lemma NotificationStores(s: Slots, n: string, ch: Channel, b: seq<Hex.byte>)
    requires var t := Text.Split(n, ' '); |t| >= 4 && HandleRoute(t[3]) == Some(ch)
    requires |b| == Width(ch) && PayloadTokens(Text.Split(n, ' '), b)
    ensures StoreNotification(s, n) == Assign(s, ch, b)
  {
    StoreOfBytes(s, ch, Text.Split(n, ' '), b);
  }

  /** `_sendDataToCumulus(mac, _createJSONString(...))`: the device's URL
      under the collector and the body of the readings. */
  function UploadTo(collector: string, addr: string, r: Cumulus.Readings): Upload {
    Upload(Cumulus.CollectorUrl(collector, addr), Cumulus.Payload(r))
  }

  /** `_handleNotification` on the whole state: the slots, and an upload to
      the device's URL when the set is complete. */
  function NotificationSpec(s: AState, notification: string): (AState, Outcome) {
    var (slots, up, o) := HandleSlots(s.slots, notification);
    var ups := if up.Some? then [UploadTo(s.collector, s.addr, up.value)] else [];
    (s.(slots := slots, uploads := s.uploads + ups), o)
  }

  /** The state after the upload test: a complete set of slots is sent
      and cleared, any other set is kept. */
  function Flushed(s: AState): (r: AState)
    ensures Complete(s.slots) ==> r.slots == Empty && |r.uploads| == |s.uploads| + 1
    ensures !Complete(s.slots) ==> r == s
  {
    if Complete(s.slots) then s.(slots := Empty, uploads := s.uploads + [UploadTo(s.collector, s.addr, ReadingsOf(s.slots))])
    else s
  }

  /** `_handleNotification` is the if/elif chain followed by the upload
      test. */
  lemma NotificationFlushes(s: AState, notification: string)
    ensures NotificationSpec(s, notification) ==
      match StoreNotification(s.slots, notification)
      case Err(e) => (s, Fail(e))
      case Ok(s1) => (Flushed(s.(slots := s1)), Pass)
  {
    var r := StoreNotification(s.slots, notification);
    if r.Err? {
      assert s.uploads + [] == s.uploads;
    } else if !Complete(r.value) {
      assert s.uploads + [] == s.uploads;
    }
  }

  // ---------------------------------------------------------------------
  // Discovery

  /** One line of `gatttool --primary`: Python reads tokens -1, 3 and 8
      before building the service, so fewer than nine tokens is an
      IndexError; otherwise the line is read as in btle.py. */
  function ServiceLine(line: string): (r: Result<(string, Gatt.Service)>)
    ensures |Text.Fields(line)| < 9 ==> r == Err(IndexError)
    ensures |Text.Fields(line)| >= 9 ==> r == Gatt.ParseServiceLine(line)
    ensures r.Err? ==> !r.error.Transport()
  {
    if |Text.Fields(line)| < 9 then Err(IndexError) else Gatt.ParseServiceLine(line)
  }

  /** The description `discoverServices` gives the service stored under
      `key`: the BPart sensor it belongs to, or "No Description". */
  function Describe(key: string): (d: string)
    ensures d != "No Description" <==> key in {HumidityUuid, TemperatureUuid, AccelerationUuid, LightUuid}
  {
    if key == HumidityUuid then "Humidity"
    else if key == TemperatureUuid then "Temperature"
    else if key == AccelerationUuid then "Acceleration"
    else if key == LightUuid then "Light"
    else "No Description"
  }

  /** Every stored service has a description, the one its key calls for. */
  predicate Described(d: Gatt.Services, m: map<string, string>) {
    Gatt.Keys(d) == m.Keys && forall k | k in m :: m[k] == Describe(k)
  }

  /** The `discoverServices` loop: each line is parsed, stored and tagged
      in turn; the first bad line stops it, keeping what came before. */
  function DiscoverFrom(d: Gatt.Services, m: map<string, string>, lines: seq<string>): (r: (Gatt.Services, map<string, string>, Outcome))
    ensures r.2.Fail? ==> !r.2.error.Transport()
    decreases |lines|
  {
    if lines == [] then (d, m, Pass)
    else
      match ServiceLine(lines[0])
      case Err(e) => (d, m, Fail(e))
      case Ok(kv) => DiscoverFrom(Gatt.Put(d, kv.0, kv.1), m[kv.0 := Describe(kv.0)], lines[1..])
  }

  /** One line of the discovery loop, as the loop in `BPart` takes it. */
  lemma DiscoverStep(d: Gatt.Services, m: map<string, string>, lines: seq<string>, i: nat)
    requires i < |lines|
    ensures ServiceLine(lines[i]).Err? ==> DiscoverFrom(d, m, lines[i..]) == (d, m, Fail(ServiceLine(lines[i]).error))
    ensures ServiceLine(lines[i]).Ok? ==> var (k, v) := ServiceLine(lines[i]).value;
      DiscoverFrom(d, m, lines[i..]) == DiscoverFrom(Gatt.Put(d, k, v), m[k := Describe(k)], lines[i + 1..])
  {
    assert lines[i..][0] == lines[i] && lines[i..][1..] == lines[i + 1..];
  }

  /** Discovery keeps every service described by its key. */
  lemma {:induction false} DiscoverDescribes(d: Gatt.Services, m: map<string, string>, lines: seq<string>)
    requires Described(d, m)
    ensures var (d2, m2, _) := DiscoverFrom(d, m, lines); Described(d2, m2)
    decreases |lines|
  {
    if lines != [] {
      var r := ServiceLine(lines[0]);
      if r.Ok? {
        var (k, v) := r.value;
        var m1 := m[k := Describe(k)];
        assert Gatt.Keys(Gatt.Put(d, k, v)) == m1.Keys;
        DiscoverDescribes(Gatt.Put(d, k, v), m1, lines[1..]);
      }
    }
  }

  /** `discoverServices`: `discoveredAllServices` is set only when every
      line was stored. */
  function DiscoverSpec(s: AState, primary: string): (AState, Outcome) {
    var (d, m, o) := DiscoverFrom(s.services, s.descriptions, Gatt.Lines(primary));
    (s.(services := d, descriptions := m, discovered := s.discovered || o.Pass?), o)
  }

  /** `getServices`: discovery runs only until it has once succeeded. */
  function GetServicesSpec(s: AState, primary: string): (AState, Outcome) {
    if s.discovered then (s, Pass) else DiscoverSpec(s, primary)
  }

  /** `service.getCharacteristics()` on the service stored at `i`: its
      cache filled from the gatttool run for its handle range, or the
      error of that run. */
  function FetchOne(d: Gatt.Services, i: nat, chars: (string, string) -> string): (r: (Gatt.Services, Outcome))
    requires i < |d|
    ensures r.1.Fail? ==> !r.1.error.Transport()
    ensures |r.0| == |d| && forall j | 0 <= j < |d| :: r.0[j].0 == d[j].0
    ensures forall j | 0 <= j < |d| && j != i :: r.0[j] == d[j]
  {
    var (svc, res) := Gatt.ServiceChars(d[i].1, chars(d[i].1.hndStart, d[i].1.hndEnd), None);
    (d[i := (d[i].0, svc)], if res.Err? then Fail(res.error) else Pass)
  }

  /** The `for service in services: service.getCharacteristics()` loop of
      `run`, from entry `i` on, stopping at the first failure. */
  function FetchFrom(d: Gatt.Services, i: nat, chars: (string, string) -> string): (r: (Gatt.Services, Outcome))
    ensures r.1.Fail? ==> !r.1.error.Transport()
    ensures Gatt.Keys(r.0) == Gatt.Keys(d)
    decreases |d| - i
  {
    if i >= |d| then (d, Pass)
    else
      var (d1, o) := FetchOne(d, i, chars);
      assert Gatt.Keys(d1) == Gatt.Keys(d);
      if o.Fail? then (d1, o) else FetchFrom(d1, i + 1, chars)
  }

  // ---------------------------------------------------------------------
  // The `run` loop

  /** One pass of the connect loop's body: what the gatttool runs print and
      the helper's answer to "connect". */
  datatype Attempt = Attempt(primary: string, characteristics: (string, string) -> string, reply: Resp)

  /** The body of `while not self.connected`: services, their
      characteristics, then `connect`. */
  function AttemptSpec(s: AState, a: Attempt): (AState, Outcome) {
    var (s1, o1) := GetServicesSpec(s, a.primary);
    if o1.Fail? then (s1, o1)
    else
      var (d, o2) := FetchFrom(s1.services, 0, a.characteristics);
      var s2 := s1.(services := d);
      if o2.Fail? then (s2, o2) else ConnectSpec(s2, a.reply)
  }

  /** Where `run` is: the top of the main loop, the connect loop, the
      activation loop, or the notification wait that ends a round. */
  datatype Phase = Top | ConnectLoop | ActivationLoop | Listen

  function Rank(pc: Phase): nat {
    match pc
    case ConnectLoop => 3
    case ActivationLoop => 2
    case Listen => 1
    case Top => 0
  }

  /** `run` from phase `pc`, for at most `rounds` more passes of the main
      loop, given the connect attempts, the answers of each
      `activateNotifications` call and the notification waits still to come. */
  function RunFrom(s: AState, pc: Phase, rounds: nat, attempts: seq<Attempt>, activations: seq<nat -> Resp>, waits: seq<Resp>): (r: (AState, Btle.RunEnd))
    decreases rounds, |attempts| + |activations| + |waits|, Rank(pc)
  {
    match pc
    case Top =>
      if !s.running then (s, Btle.Stopped)
      else if rounds == 0 then (s, Btle.OutOfInput)
      else RunFrom(s, ConnectLoop, rounds - 1, attempts, activations, waits)
    case ConnectLoop =>
      if s.connected then RunFrom(s, ActivationLoop, rounds, attempts, activations, waits)
      else if attempts == [] then (s, Btle.OutOfInput)
      else
        var (s1, o) := AttemptSpec(s, attempts[0]);
        if o.Pass? || o.error.Btle? then RunFrom(s1, ConnectLoop, rounds, attempts[1..], activations, waits)
        else if o.error == PexpectEof then (s1, Btle.Returned)
        else (s1, Btle.Raised(o.error))
    case ActivationLoop =>
      if s.status != Activating then RunFrom(s, Listen, rounds, attempts, activations, waits)
      else if activations == [] then (s, Btle.OutOfInput)
      else
        var (s1, o) := ActivateSpec(s, activations[0]);
        if o.Pass? then RunFrom(s1, ActivationLoop, rounds, attempts, activations[1..], waits)
        else if o.error == PexpectEof then (s1, Btle.Returned)
        else (s1, Btle.Raised(o.error))
    case Listen =>
      if s.status != Active then RunFrom(s, Top, rounds, attempts, activations, waits)
      else if waits == [] then (s, Btle.OutOfInput)
      else
        match waits[0]
        case Matched(t) =>
          var (s1, o) := NotificationSpec(s, t);
          if o.Fail? then (s1, Btle.Raised(o.error)) else RunFrom(s1, Top, rounds, attempts, activations, waits[1..])
        case Timeout => RunFrom(s.(connected := false, status := Activating), Top, rounds, attempts, activations, waits[1..])
        case Eof => (s, Btle.Returned)
  }

  /** With the status INACTIVE (as `__init__` leaves it) and the link up,
      `run` never activates notifications and never listens: every pass of
      the main loop does nothing, until the passes run out. */
  lemma {:induction false} InactiveRunIdles(s: AState, rounds: nat, attempts: seq<Attempt>, activations: seq<nat -> Resp>, waits: seq<Resp>)
    requires s.running && s.connected && s.status == Inactive
    ensures RunFrom(s, Top, rounds, attempts, activations, waits) == (s, Btle.OutOfInput)
    decreases rounds
  {
    if rounds > 0 {
      calc {
        RunFrom(s, Top, rounds, attempts, activations, waits);
        RunFrom(s, ConnectLoop, rounds - 1, attempts, activations, waits);
        RunFrom(s, ActivationLoop, rounds - 1, attempts, activations, waits);
        RunFrom(s, Listen, rounds - 1, attempts, activations, waits);
        RunFrom(s, Top, rounds - 1, attempts, activations, waits);
      }
      InactiveRunIdles(s, rounds - 1, attempts, activations, waits);
    }
  }

  /** A notification wait that times out marks the link down and
      activation pending, and the next pass reconnects first. */
  lemma ListenTimeout(s: AState, rounds: nat, attempts: seq<Attempt>, activations: seq<nat -> Resp>, waits: seq<Resp>)
    requires s.status == Active
    ensures RunFrom(s, Listen, rounds, attempts, activations, [Timeout] + waits)
         == RunFrom(s.(connected := false, status := Activating), Top, rounds, attempts, activations, waits)
  {
    assert ([Timeout] + waits)[1..] == waits;
  }

  /** A connect attempt from a state with the link down leaves the link
      up only with a helper. */
  lemma AttemptKeepsLinked(s: AState, a: Attempt)
    requires !s.connected
    ensures Linked(AttemptSpec(s, a).0)
  {
    var (s1, o1) := GetServicesSpec(s, a.primary);
    var (d, o2) := FetchFrom(s1.services, 0, a.characteristics);
    if o1.Pass? && o2.Pass? {
      ConnectEffects(s1.(services := d), a.reply);
    }
  }

  /** Activation keeps the link and the helper as they were. */
  lemma ActivationKeepsLinked(s: AState, replies: nat -> Resp)
    requires Linked(s)
    ensures var r := ActivateSpec(s, replies).0; r.connected == s.connected && r.helper == s.helper
  {
    if s.connected {
      var _ := ExchangeSends(s, ActivateCommands, 0, replies);
    }
  }

  /** `run` keeps the link flag honest: whenever it is up, a helper runs. */
  lemma {:induction false} RunKeepsLinked(s: AState, pc: Phase, rounds: nat, attempts: seq<Attempt>, activations: seq<nat -> Resp>, waits: seq<Resp>)
    requires Linked(s)
    ensures Linked(RunFrom(s, pc, rounds, attempts, activations, waits).0)
    decreases rounds, |attempts| + |activations| + |waits|, Rank(pc)
  {
    match pc
    case Top =>
      if s.running && rounds > 0 {
        RunKeepsLinked(s, ConnectLoop, rounds - 1, attempts, activations, waits);
      }
    case ConnectLoop =>
      if s.connected {
        RunKeepsLinked(s, ActivationLoop, rounds, attempts, activations, waits);
      } else if attempts != [] {
        AttemptKeepsLinked(s, attempts[0]);
        var (r, o) := AttemptSpec(s, attempts[0]);
        if o.Pass? || o.error.Btle? {
          RunKeepsLinked(r, ConnectLoop, rounds, attempts[1..], activations, waits);
        }
      }
    case ActivationLoop =>
      if s.status != Activating {
        RunKeepsLinked(s, Listen, rounds, attempts, activations, waits);
      } else if activations != [] {
        ActivationKeepsLinked(s, activations[0]);
        var (r, o) := ActivateSpec(s, activations[0]);
        if o.Pass? {
          RunKeepsLinked(r, ActivationLoop, rounds, attempts, activations[1..], waits);
        }
      }
    case Listen =>
      if s.status != Active {
        RunKeepsLinked(s, Top, rounds, attempts, activations, waits);
      } else if waits != [] {
        match waits[0]
        case Matched(t) =>
          var (r, o) := NotificationSpec(s, t);
          if o.Pass? {
            RunKeepsLinked(r, Top, rounds, attempts, activations, waits[1..]);
          }
        case Timeout =>
          RunKeepsLinked(s.(connected := false, status := Activating), Top, rounds, attempts, activations, waits[1..]);
        case Eof =>
      }
  }

  /** Because the link is only up with a helper, activation inside `run`
      never meets the missing-helper error: it passes or ends in EOF. */
  lemma ActivationInRun(s: AState, replies: nat -> Resp)
    requires Linked(s)
    ensures var o := ActivateSpec(s, replies).1; o.Fail? ==> o.error == PexpectEof
  {
    if s.connected {
      var _ := ExchangeSends(s, ActivateCommands, 0, replies);
    }
  }

  // ---------------------------------------------------------------------
  // The class

  class BPart {
    var helper: bool
    var services: Gatt.Services
    var descriptions: map<string, string>
    var discoveredAllServices: bool
    var running: bool
    var notificationStatus: NotifyStatus
    var connected: bool
    var deviceAddr: string
    /** `config.CUMULUS_URL`. */
    const collector: string
    var light: Option<int>
    var humidity: Option<int>
    var temperature: Option<int>
    var acceleration: Option<Codec.Triple>
    var sent: seq<string>
    var uploads: seq<Upload>

    function State(): AState
      reads this
    {
      AState(helper, services, descriptions, discoveredAllServices, running, notificationStatus, connected,
             deviceAddr, collector, Slots(light, humidity, temperature, acceleration), sent, uploads)
    }

    /** The field assignments of `__init__`, once the address passed. */
    constructor Create(addr: string, collector: string)
      ensures State() == Initial(addr, collector)
    {
      helper := false;
      services := [];
      descriptions := map[];
      discoveredAllServices := false;
      running := true;
      notificationStatus := Inactive;
      connected := false;
      deviceAddr := addr;
      this.collector := collector;
      light, humidity, temperature, acceleration := None, None, None, None;
      sent := [];
      uploads := [];
    }

    /** `BPart(addr)`: the same address check as btle.py, with the same
        undefined name in its message. */
    static method Open(addr: string, collector: string) returns (r: Result<BPart>)
      ensures r.Err? <==> Btle.AddressCheck(addr).Fail?
      ensures r.Err? ==> r.error == Btle.AddressCheck(addr).error
      ensures r.Ok? ==> fresh(r.value) && r.value.State() == Initial(addr, collector)
    {
      var o := Btle.AddressCheck(addr);
      if o.Fail? {
        return Err(o.error);
      }
      var b := new BPart.Create(addr, collector);
      return Ok(b);
    }

    method StartHelper()
      modifies this
      ensures State() == StartHelperSpec(old(State()))
    {
      if !helper {
        helper := true;
      }
    }

    method StopHelper()
      modifies this
      ensures State() == StopHelperSpec(old(State()))
    {
      if helper {
        sent := sent + ["exit"];
        helper := false;
      }
    }

    /** `_writeCmd`: only with a helper. */
    method WriteCmd(cmd: string) returns (o: Outcome)
      modifies this
      ensures !old(helper) ==> o == Fail(Btle(InternalError)) && State() == old(State())
      ensures old(helper) ==> o == Pass && State() == old(State()).(sent := old(sent) + [cmd])
    {
      if !helper {
        return Fail(Btle(InternalError));
      }
      sent := sent + [cmd];
      return Pass;
    }

    method Connect(reply: Resp) returns (o: Outcome)
      modifies this
      ensures (State(), o) == ConnectSpec(old(State()), reply)
    {
      StartHelper();
      // The helper was just started, so this write cannot fail.
      var w := WriteCmd(Btle.ConnectCommand(deviceAddr));
      match reply
      case Matched(_) =>
        connected := true;
        o := Pass;
      case Timeout =>
        StopHelper();
        o := Fail(Btle(Disconnected));
      case Eof =>
        o := Fail(PexpectEof);
    }

    method Disconnect()
      modifies this
      ensures State() == DisconnectSpec(old(State()))
    {
      running := false;
      connected := false;
      if !helper {
        return;
      }
      var w := WriteCmd("disconnect");
      StopHelper();
    }

    method Stop()
      modifies this
      ensures State() == old(State()).(running := false)
    {
      running := false;
    }

    /** One `_writeCmd(cmds[i])` / `_getResp` pair: `None` when the answer
        came and the next pair follows. */
    method Exchange(cmds: seq<string>, i: nat, replies: nat -> Resp) returns (x: Option<Exchange>)
      requires i < |cmds|
      modifies this
      ensures x.None? ==> ExchangeFrom(State(), cmds, i + 1, replies) == ExchangeFrom(old(State()), cmds, i, replies)
      ensures x.Some? ==> (State(), x.value) == ExchangeFrom(old(State()), cmds, i, replies)
    {
      var o := WriteCmd(cmds[i]);
      if o.Fail? {
        return Some(Broke(o.error));
      }
      match replies(i)
      case Matched(_) => x := None;
      case Timeout => x := Some(TimedOut);
      case Eof => x := Some(Broke(PexpectEof));
    }

    /** The four write / answer pairs of (de)activation. */
    method ExchangeAll(cmds: seq<string>, replies: nat -> Resp) returns (x: Exchange)
      requires |cmds| == 4
      modifies this
      ensures (State(), x) == ExchangeFrom(old(State()), cmds, 0, replies)
    {
      var step := Exchange(cmds, 0, replies);
      if step.Some? {
        return step.value;
      }
      step := Exchange(cmds, 1, replies);
      if step.Some? {
        return step.value;
      }
      step := Exchange(cmds, 2, replies);
      if step.Some? {
        return step.value;
      }
      step := Exchange(cmds, 3, replies);
      if step.Some? {
        return step.value;
      }
      return Acked;
    }

    method ActivateNotifications(replies: nat -> Resp) returns (o: Outcome)
      modifies this
      ensures (State(), o) == ActivateSpec(old(State()), replies)
    {
      if connected {
        var x := ExchangeAll(ActivateCommands, replies);
        match x
        case Acked =>
          notificationStatus := Active;
          o := Pass;
        case TimedOut =>
          notificationStatus := Activating;
          o := Pass;
        case Broke(e) =>
          o := Fail(e);
      } else {
        notificationStatus := Activating;
        o := Pass;
      }
    }

    method DeactivateNotifications(replies: nat -> Resp) returns (o: Outcome)
      modifies this
      ensures (State(), o) == DeactivateSpec(old(State()), replies)
    {
      var x := ExchangeAll(DeactivateCommands, replies);
      match x
      case Acked =>
        notificationStatus := Inactive;
        o := Pass;
      case TimedOut =>
        o := Pass;
      case Broke(e) =>
        o := Fail(e);
    }

    /** `_handleNotification`. */
    method HandleNotification(notification: string) returns (o: Outcome)
      modifies this
      ensures (State(), o) == NotificationSpec(old(State()), notification)
    {
      NotificationFlushes(State(), notification);
      o := StoreReading(notification);
      if o.Pass? {
        Flush();
      }
    }

    /** The upload test at the end of `_handleNotification`. */
    method Flush()
      modifies this
      ensures State() == Flushed(old(State()))
    {
      if Truthy(light) && Truthy(humidity) && Truthy(temperature) && acceleration.Some? {
        var readings := Cumulus.Readings(temperature.value, humidity.value, light.value, acceleration.value);
        uploads := uploads + [UploadTo(collector, deviceAddr, readings)];
        SetSlots(Empty);
      }
    }

    /** The assignments to `_light`, `_humidity`, `_temperature` and
        `_acceleration`. */
    method SetSlots(slots: Slots)
      modifies this
      ensures State() == old(State()).(slots := slots)
    {
      light, humidity, temperature, acceleration := slots.light, slots.humidity, slots.temperature, slots.acceleration;
    }

    /** The if/elif chain of `_handleNotification`, before the upload test. */
    method StoreReading(notification: string) returns (o: Outcome)
      modifies this
      ensures match StoreNotification(old(State()).slots, notification)
        case Err(e) => o == Fail(e) && State() == old(State())
        case Ok(s1) => o == Pass && State() == old(State()).(slots := s1)
    {
      var t := Text.Split(notification, ' ');
      if |t| < 4 {
        return Fail(IndexError);
      }
      var route := HandleRoute(t[3]);
      if route.Some? {
        var stored := Store(Slots(light, humidity, temperature, acceleration), route.value, t);
        assert StoreNotification(old(State()).slots, notification) == stored;
        if stored.Err? {
          return Fail(stored.error);
        }
        SetSlots(stored.value);
      }
      return Pass;
    }

    method DiscoverServices(primary: string) returns (o: Outcome)
      modifies this
      ensures (State(), o) == DiscoverSpec(old(State()), primary)
    {
      var lines := Gatt.Lines(primary);
      var d, m := services, descriptions;
      var i := 0;
      while i < |lines|
        invariant 0 <= i <= |lines|
        invariant DiscoverFrom(d, m, lines[i..]) == DiscoverFrom(old(services), old(descriptions), lines)
        invariant State() == old(State())
      {
        var p := ServiceLine(lines[i]);
        DiscoverStep(d, m, lines, i);
        if p.Err? {
          services, descriptions := d, m;
          return Fail(p.error);
        }
        var (key, svc) := p.value;
        d, m := Gatt.Put(d, key, svc), m[key := Describe(key)];
        i := i + 1;
      }
      assert lines[i..] == [];
      services, descriptions := d, m;
      discoveredAllServices := true;
      return Pass;
    }

    method GetServices(primary: string) returns (r: Result<seq<Gatt.Service>>)
      modifies this
      ensures State() == GetServicesSpec(old(State()), primary).0
      ensures GetServicesSpec(old(State()), primary).1.Fail? ==> r == Err(GetServicesSpec(old(State()), primary).1.error)
      ensures GetServicesSpec(old(State()), primary).1.Pass? ==> r == Ok(Btle.Values(services))
    {
      if !discoveredAllServices {
        var o := DiscoverServices(primary);
        if o.Fail? {
          return Err(o.error);
        }
      }
      return Ok(Btle.Values(services));
    }

    /** `service.getCharacteristics()` on the service stored at `i`. */
    method ServiceCharacteristics(i: nat, chars: (string, string) -> string) returns (o: Outcome)
      requires i < |services|
      modifies this
      ensures (services, o) == FetchOne(old(services), i, chars)
      ensures State() == old(State()).(services := services)
    {
      var svc := services[i].1;
      if Gatt.NeedsFetch(svc) {
        var fetched := Gatt.ParseCharacteristics(chars(svc.hndStart, svc.hndEnd));
        if fetched.Err? {
          services := services[i := (services[i].0, svc)];
          return Fail(fetched.error);
        }
        svc := svc.(chars := Some(fetched.value));
      }
      services := services[i := (services[i].0, svc)];
      return Pass;
    }

    /** The body of `while not self.connected`. */
    method Try(a: Attempt) returns (o: Outcome)
      modifies this
      ensures (State(), o) == AttemptSpec(old(State()), a)
    {
      var svcs := GetServices(a.primary);
      if svcs.Err? {
        return Fail(svcs.error);
      }
      ghost var s1 := State();
      var i := 0;
      while i < |services|
        invariant 0 <= i <= |services| == |s1.services|
        invariant State() == s1.(services := services)
        invariant FetchFrom(services, i, a.characteristics) == FetchFrom(s1.services, 0, a.characteristics)
      {
        ghost var before := services;
        o := ServiceCharacteristics(i, a.characteristics);
        assert FetchFrom(before, i, a.characteristics) == if o.Fail? then (services, o) else FetchFrom(services, i + 1, a.characteristics);
        if o.Fail? {
          return;
        }
        i := i + 1;
      }
      o := Connect(a.reply);
    }

    /** `run`, observed for at most `rounds` passes of its main loop. */
    method Run(rounds: nat, attempts: seq<Attempt>, activations: seq<nat -> Resp>, waits: seq<Resp>) returns (e: Btle.RunEnd)
      modifies this
      ensures (State(), e) == RunFrom(old(State()), Top, rounds, attempts, activations, waits)
    {
      ghost var goal := RunFrom(old(State()), Top, rounds, attempts, activations, waits);
      var k: nat, a: nat, n: nat, w: nat := rounds, 0, 0, 0;
      while running
        invariant k <= rounds && a <= |attempts| && n <= |activations| && w <= |waits|
        invariant RunFrom(State(), Top, k, attempts[a..], activations[n..], waits[w..]) == goal
        decreases k
      {
        if k == 0 {
          return Btle.OutOfInput;
        }
        assert RunFrom(State(), Top, k, attempts[a..], activations[n..], waits[w..])
            == RunFrom(State(), ConnectLoop, k - 1, attempts[a..], activations[n..], waits[w..]);
        k := k - 1;
        var end: Option<Btle.RunEnd>;
        a, end := ConnectLoopOf(k, attempts, a, activations[n..], waits[w..]);
        if end.Some? {
          return end.value;
        }
        n, end := ActivationLoopOf(k, attempts[a..], activations, n, waits[w..]);
        if end.Some? {
          return end.value;
        }
        w, end := ListenOnce(k, attempts[a..], activations[n..], waits, w);
        if end.Some? {
          return end.value;
        }
      }
      return Btle.Stopped;
    }

    /** `while not self.connected: ...` of `run`, from attempt `a0`. */
    method ConnectLoopOf(k: nat, attempts: seq<Attempt>, a0: nat, activations: seq<nat -> Resp>, waits: seq<Resp>) returns (a: nat, end: Option<Btle.RunEnd>)
      requires a0 <= |attempts|
      modifies this
      ensures a0 <= a <= |attempts|
      ensures end.Some? ==> (State(), end.value) == RunFrom(old(State()), ConnectLoop, k, attempts[a0..], activations, waits)
      ensures end.None? ==> RunFrom(State(), ActivationLoop, k, attempts[a..], activations, waits)
                            == RunFrom(old(State()), ConnectLoop, k, attempts[a0..], activations, waits)
    {
      ghost var goal := RunFrom(old(State()), ConnectLoop, k, attempts[a0..], activations, waits);
      a := a0;
      while !connected
        invariant a0 <= a <= |attempts|
        invariant RunFrom(State(), ConnectLoop, k, attempts[a..], activations, waits) == goal
        decreases |attempts| - a
      {
        if a == |attempts| {
          return a, Some(Btle.OutOfInput);
        }
        assert attempts[a..][1..] == attempts[a + 1..];
        var o := Try(attempts[a]);
        a := a + 1;
        if o.Fail? && !o.error.Btle? {
          if o.error == PexpectEof {
            return a, Some(Btle.Returned);
          }
          return a, Some(Btle.Raised(o.error));
        }
      }
      return a, None;
    }

    /** `while self.notificationStatus == NOTIFICATION_ACTIVATING: ...` of
        `run`, from activation `n0`. */
    method ActivationLoopOf(k: nat, attempts: seq<Attempt>, activations: seq<nat -> Resp>, n0: nat, waits: seq<Resp>) returns (n: nat, end: Option<Btle.RunEnd>)
      requires n0 <= |activations|
      modifies this
      ensures n0 <= n <= |activations|
      ensures end.Some? ==> (State(), end.value) == RunFrom(old(State()), ActivationLoop, k, attempts, activations[n0..], waits)
      ensures end.None? ==> RunFrom(State(), Listen, k, attempts, activations[n..], waits)
                            == RunFrom(old(State()), ActivationLoop, k, attempts, activations[n0..], waits)
    {
      ghost var goal := RunFrom(old(State()), ActivationLoop, k, attempts, activations[n0..], waits);
      n := n0;
      while notificationStatus == Activating
        invariant n0 <= n <= |activations|
        invariant RunFrom(State(), ActivationLoop, k, attempts, activations[n..], waits) == goal
        decreases |activations| - n
      {
        if n == |activations| {
          return n, Some(Btle.OutOfInput);
        }
        assert activations[n..][1..] == activations[n + 1..];
        var o := ActivateNotifications(activations[n]);
        n := n + 1;
        if o.Fail? {
          if o.error == PexpectEof {
            return n, Some(Btle.Returned);
          }
          return n, Some(Btle.Raised(o.error));
        }
      }
      return n, None;
    }

    /** The notification wait that ends a pass of `run`'s main loop. */
    method ListenOnce(k: nat, attempts: seq<Attempt>, activations: seq<nat -> Resp>, waits: seq<Resp>, w0: nat) returns (w: nat, end: Option<Btle.RunEnd>)
      requires w0 <= |waits|
      modifies this
      ensures w0 <= w <= |waits|
      ensures end.Some? ==> (State(), end.value) == RunFrom(old(State()), Listen, k, attempts, activations, waits[w0..])
      ensures end.None? ==> RunFrom(State(), Top, k, attempts, activations, waits[w..])
                            == RunFrom(old(State()), Listen, k, attempts, activations, waits[w0..])
    {
      if notificationStatus != Active {
        return w0, None;
      }
      if w0 == |waits| {
        return w0, Some(Btle.OutOfInput);
      }
      assert waits[w0..][1..] == waits[w0 + 1..];
      w := w0 + 1;
      match waits[w0]
      case Matched(t) =>
        var o := HandleNotification(t);
        end := if o.Fail? then Some(Btle.Raised(o.error)) else None;
      case Timeout =>
        connected := false;
        notificationStatus := Activating;
        end := None;
      case Eof =>
        end := Some(Btle.Returned);
    }
  }
}
