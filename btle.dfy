/** `Peripheral` in btle.py: one BLE device driven through gatttool.
    The one-shot gatttool runs are given as the text they print
    (`ToolOutput`). Each wait for an answer of the interactive helper is
    given as its outcome (`Resp`). Commands written to the helper are kept
    in `sent`; notifications handed to the subclass hook are kept in
    `inbox`. Every method is specified by a function from the old field
    values (`PState`) to the new ones. */
module Btle {
  import opened Outcomes
  import opened Hex
  import Text
  import Uuid
  import Gatt

  datatype Status = Initializing | Initialized

  /** What the one-shot gatttool runs print for this device: `--primary`,
      `--characteristics -s start -e end` for a handle range, and
      `--char-read --uuid=0x2902`. */
  datatype ToolOutput = ToolOutput(primary: string, characteristics: (string, string) -> string, notifyHandles: string)

  /** The fields of a `Peripheral`. */
  datatype PState = PState(
    helper: bool,            // `_helper` holds a gatttool process
    services: Gatt.Services,
    discovered: bool,        // `discoveredAllServices`
    running: bool,
    status: Status,          // `initializingStatus`
    connected: bool,
    addr: string,            // `deviceAddr`
    handles: seq<string>,    // `notificationHandles`
    sent: seq<string>,       // commands written to the helper, oldest first
    inbox: seq<string>)      // notifications handed to `_handleNotification`

  // ---------------------------------------------------------------------
  // Construction

  /** The fields `__init__` sets. */
  function Initial(addr: string): PState {
    PState(false, [], false, true, Initializing, false, addr, [], [], [])
  }

  /** The only check `__init__` makes: six colon-separated pieces. */
  predicate MacShaped(addr: string) {
    |Text.Split(addr, ':')| == 6
  }

  /** The address check as written: the error message names an undefined
      variable, so the ValueError is never built and NameError escapes. */
  function AddressCheck(addr: string): (o: Outcome)
    ensures o.Pass? <==> MacShaped(addr)
    ensures o.Fail? ==> o.error == NameError
  {
    if !MacShaped(addr) then Fail(NameError) else Pass
  }

  /** The address check as its message intends: ValueError. */
  function AddressCheckIntended(addr: string): (o: Outcome)
    ensures o.Pass? <==> MacShaped(addr)
    ensures o.Fail? ==> o.error == ValueError
  {
    if !MacShaped(addr) then Fail(ValueError) else Pass
  }

  /** An address with too few pieces raises NameError, not ValueError. */
  lemma ShortAddressNameError()
    ensures AddressCheck("00:07:80") == Fail(NameError)
    ensures AddressCheckIntended("00:07:80") == Fail(ValueError)
  {
    Text.SplitCount("00:07:80", ':');
    assert Text.Count("00:07:80", ':') == 2;
  }

  // ---------------------------------------------------------------------
  // The helper process

  function StartHelperSpec(s: PState): PState {
    s.(helper := true)
  }

  function StopHelperSpec(s: PState): PState {
    if s.helper then s.(helper := false, sent := s.sent + ["exit"]) else s
  }

  /** `_writeCmd`: a BTLE internal error when no helper runs. */
  function WriteCmdSpec(s: PState, cmd: string): (PState, Outcome) {
    if !s.helper then (s, Fail(Btle(InternalError))) else (s.(sent := s.sent + [cmd]), Pass)
  }

  function DisconnectSpec(s: PState): PState {
    var s1 := s.(running := false, connected := false);
    if !s1.helper then s1 else StopHelperSpec(s1.(sent := s1.sent + ["disconnect"]))
  }

  /** `disconnect` stops the thread and the link, says "disconnect" and
      "exit" to a running helper, and leaves a missing helper alone. */
  lemma DisconnectEffects(s: PState)
    ensures var d := DisconnectSpec(s);
      && !d.running && !d.connected && !d.helper
      && d.sent == s.sent + (if s.helper then ["disconnect", "exit"] else [])
      && d.services == s.services && d.handles == s.handles && d.status == s.status
    ensures DisconnectSpec(DisconnectSpec(s)) == DisconnectSpec(s)
  {
    if s.helper {
      assert s.sent + ["disconnect"] + ["exit"] == s.sent + ["disconnect", "exit"];
    }
  }

  // ---------------------------------------------------------------------
  // Discovery

  /** The `discoverServices` loop: each line is parsed and stored in turn;
      the first bad line stops it, keeping what was stored before. */
  function DiscoverFrom(d: Gatt.Services, lines: seq<string>): (r: (Gatt.Services, Outcome))
    ensures r.1.Fail? ==> !r.1.error.Transport()
    ensures Gatt.UuidsValid(d) ==> Gatt.UuidsValid(r.0)
    decreases |lines|
  {
    if lines == [] then (d, Pass)
    else
      match Gatt.ParseServiceLine(lines[0])
      case Err(e) => (d, Fail(e))
      case Ok(kv) => DiscoverFrom(Gatt.Put(d, kv.0, kv.1), lines[1..])
  }

  function DiscoverSpec(s: PState, primary: string): (PState, Outcome) {
    var (d, o) := DiscoverFrom(s.services, Gatt.Lines(primary));
    (s.(services := d, discovered := s.discovered || o.Pass?), o)
  }

  /** The key each line of a listing stores its service under. */
  function LineKeys(lines: seq<string>): set<string> {
    set i | 0 <= i < |lines| && Gatt.ParseServiceLine(lines[i]).Ok? :: Gatt.ParseServiceLine(lines[i]).value.0
  }

  lemma LineKeysCons(lines: seq<string>)
    requires lines != []
    ensures LineKeys(lines) == LineKeys(lines[1..]) +
      (if Gatt.ParseServiceLine(lines[0]).Ok? then {Gatt.ParseServiceLine(lines[0]).value.0} else {})
  {
    var rest := lines[1..];
    forall x | x in LineKeys(lines)
      ensures x in LineKeys(rest) || (Gatt.ParseServiceLine(lines[0]).Ok? && x == Gatt.ParseServiceLine(lines[0]).value.0)
    {
      var i :| 0 <= i < |lines| && Gatt.ParseServiceLine(lines[i]).Ok? && Gatt.ParseServiceLine(lines[i]).value.0 == x;
      if i > 0 {
        assert rest[i - 1] == lines[i];
      }
    }
    forall x | x in LineKeys(rest) ensures x in LineKeys(lines) {
      var i :| 0 <= i < |rest| && Gatt.ParseServiceLine(rest[i]).Ok? && Gatt.ParseServiceLine(rest[i]).value.0 == x;
      assert lines[i + 1] == rest[i];
    }
  }

  /** Discovery keeps keys unique and, when it succeeds, adds the keys of
      all lines and no others. */
  lemma {:induction false} DiscoverKeys(d: Gatt.Services, lines: seq<string>)
    requires Gatt.KeysUnique(d)
    ensures Gatt.KeysUnique(DiscoverFrom(d, lines).0)
    ensures DiscoverFrom(d, lines).1.Pass? ==> Gatt.Keys(DiscoverFrom(d, lines).0) == Gatt.Keys(d) + LineKeys(lines)
    decreases |lines|
  {
    if lines != [] {
      var p := Gatt.ParseServiceLine(lines[0]);
      if p.Ok? {
        DiscoverKeys(Gatt.Put(d, p.value.0, p.value.1), lines[1..]);
        LineKeysCons(lines);
      }
    }
  }

  /** Discovery succeeds exactly when every line parses. */
  lemma {:induction false} DiscoverPasses(d: Gatt.Services, lines: seq<string>)
    ensures DiscoverFrom(d, lines).1.Pass? <==> forall i | 0 <= i < |lines| :: Gatt.ParseServiceLine(lines[i]).Ok?
    decreases |lines|
  {
    if lines != [] && Gatt.ParseServiceLine(lines[0]).Ok? {
      var p := Gatt.ParseServiceLine(lines[0]);
      var rest := lines[1..];
      var d1 := Gatt.Put(d, p.value.0, p.value.1);
      DiscoverPasses(d1, rest);
      if DiscoverFrom(d1, rest).1.Pass? {
        forall i | 0 <= i < |lines| ensures Gatt.ParseServiceLine(lines[i]).Ok? {
          if i > 0 {
            assert lines[i] == rest[i - 1];
          }
        }
      } else {
        var i :| 0 <= i < |rest| && !Gatt.ParseServiceLine(rest[i]).Ok?;
        assert lines[i + 1] == rest[i];
      }
    }
  }

  /** A failed discovery reports the error of the first bad line (fewer
      than nine tokens: BTLE INTERNAL_ERROR). */
  lemma {:induction false} DiscoverFails(d: Gatt.Services, lines: seq<string>)
    ensures var o := DiscoverFrom(d, lines).1;
      o.Fail? ==> exists i | 0 <= i < |lines| :: Gatt.ParseServiceLine(lines[i]) == Err(o.error)
                                               && forall j | 0 <= j < i :: Gatt.ParseServiceLine(lines[j]).Ok?
    decreases |lines|
  {
    if lines != [] && Gatt.ParseServiceLine(lines[0]).Ok? {
      var p := Gatt.ParseServiceLine(lines[0]);
      var rest := lines[1..];
      var d1 := Gatt.Put(d, p.value.0, p.value.1);
      DiscoverFails(d1, rest);
      var o := DiscoverFrom(d, lines).1;
      assert o == DiscoverFrom(d1, rest).1;
      if o.Fail? {
        var i :| 0 <= i < |rest| && Gatt.ParseServiceLine(rest[i]) == Err(o.error)
                 && forall j | 0 <= j < i :: Gatt.ParseServiceLine(rest[j]).Ok?;
        assert lines[i + 1] == rest[i];
        forall j | 0 <= j < i + 1 ensures Gatt.ParseServiceLine(lines[j]).Ok? {
          if j > 0 {
            assert lines[j] == rest[j - 1];
          }
        }
      }
    }
  }

  /** `getServices`: discovery runs only the first time it succeeds. */
  function GetServicesSpec(s: PState, primary: string): (PState, Outcome) {
    if s.discovered then (s, Pass) else DiscoverSpec(s, primary)
  }

  /** Once services were discovered, asking again changes nothing and
      reads no listing. */
  lemma GetServicesOnce(s: PState, primary: string, later: string)
    requires GetServicesSpec(s, primary).1.Pass?
    ensures var s1 := GetServicesSpec(s, primary).0;
      s1.discovered && GetServicesSpec(s1, later) == (s1, Pass)
  {
  }

  /** The services in dictionary order (`services.values()`). */
  function Values(d: Gatt.Services): (vs: seq<Gatt.Service>)
    ensures |vs| == |d| && forall i | 0 <= i < |d| :: vs[i] == d[i].1
  {
    seq(|d|, i requires 0 <= i < |d| => d[i].1)
  }

  /** `getServiceByUUID`: the lookup key is the UUID object, which hashes
      and compares as its printed form, so it finds the entry whose key is
      that exact text and raises KeyError otherwise. */
  function ServiceIndex(d: Gatt.Services, v: Uuid.Value): (r: Result<nat>)
    ensures r.Ok? ==> r.value < |d|
    ensures r.Ok? <==> Uuid.Parse(v).Ok? && Uuid.ToString(Uuid.Parse(v).value) in Gatt.Keys(d)
    ensures Uuid.Parse(v).Ok? && r.Err? ==> r.error == KeyError
    ensures Uuid.Parse(v).Err? ==> r == Err(Uuid.Parse(v).error)
  {
    var u :- Uuid.Parse(v);
    match Gatt.Find(d, Uuid.ToString(u))
    case Some(i) => Ok(i)
    case None => Err(KeyError)
  }

  /** A service discovered under its canonical printed UUID is found by
      that UUID in any of its accepted spellings. */
  lemma ServiceIndexFinds(d: Gatt.Services, key: string, v: Uuid.Value)
    requires key in Gatt.Keys(d)
    requires Uuid.Parse(Uuid.Str(key)).Ok? && key == Uuid.ToString(Uuid.Parse(Uuid.Str(key)).value)
    requires Uuid.Parse(v) == Uuid.Parse(Uuid.Str(key))
    ensures ServiceIndex(d, v).Ok? && d[ServiceIndex(d, v).value].0 == key
  {
  }

  /** A key printed with any upper-case hex digit is never found. */
  lemma UpperKeyMissed(d: Gatt.Services, key: string, v: Uuid.Value)
    requires Gatt.Keys(d) == {key}
    requires exists i | 0 <= i < |key| :: 'A' <= key[i] <= 'F'
    ensures ServiceIndex(d, v).Err?
  {
    if Uuid.Parse(v).Ok? {
      var u := Uuid.Parse(v).value;
      HexlifyLower(u.bin);
      var t := Uuid.ToString(u);
      forall i | 0 <= i < |t| ensures !('A' <= t[i] <= 'F') {
        if i != 8 && i != 13 && i != 18 && i != 23 {
          assert IsLowerHexDigit(t[i]);
        }
      }
    }
  }

  // ---------------------------------------------------------------------
  // ConnectLoop

  /** `connect`'s loop over the services: fetch the characteristics of each
      (from entry `i` on), stopping at the first failure. */
  function FetchFrom(s: PState, i: nat, tool: ToolOutput): (r: (PState, Outcome))
    ensures r.1.Fail? ==> !r.1.error.Transport()
    decreases |s.services| - i
  {
    if i >= |s.services| then (s, Pass)
    else
      var e := s.services[i];
      var (svc, res) := Gatt.ServiceChars(e.1, tool.characteristics(e.1.hndStart, e.1.hndEnd), None);
      var s1 := s.(services := s.services[i := (e.0, svc)]);
      if res.Err? then (s1, Fail(res.error)) else FetchFrom(s1, i + 1, tool)
  }

  /** `_getNotificationHandles`' loop: token 1 of every line is appended;
      a line without a space stops it with IndexError. */
  function HandlesFrom(h: seq<string>, lines: seq<string>): (r: (seq<string>, Outcome))
    ensures r.1.Fail? ==> r.1.error == IndexError
    decreases |lines|
  {
    if lines == [] then (h, Pass)
    else
      var pieces := Text.Split(lines[0], ' ');
      if |pieces| < 2 then (h, Fail(IndexError)) else HandlesFrom(h + [pieces[1]], lines[1..])
  }

  /** The handles a listing yields on its own. */
  function HandlesOf(text: string): seq<string> {
    HandlesFrom([], Text.SplitLines(text)).0
  }

  /** The handle list only ever grows: whatever was there stays in front. */
  lemma {:induction false} HandlesAppend(h: seq<string>, lines: seq<string>)
    ensures HandlesFrom(h, lines).0 == h + HandlesFrom([], lines).0
    ensures HandlesFrom(h, lines).1 == HandlesFrom([], lines).1
    decreases |lines|
  {
    if lines != [] {
      var pieces := Text.Split(lines[0], ' ');
      if |pieces| >= 2 {
        assert HandlesFrom(h, lines) == HandlesFrom(h + [pieces[1]], lines[1..]);
        assert HandlesFrom([], lines) == HandlesFrom([] + [pieces[1]], lines[1..]);
        assert [] + [pieces[1]] == [pieces[1]];
        HandlesAppend(h + [pieces[1]], lines[1..]);
        HandlesAppend([pieces[1]], lines[1..]);
        assert h + [pieces[1]] + HandlesFrom([], lines[1..]).0 == h + ([pieces[1]] + HandlesFrom([], lines[1..]).0);
      }
    }
  }

  /** The steps of `connect` before the helper is started: services,
      their characteristics, then the notification handles. */
  function PrepareSpec(s: PState, tool: ToolOutput): (r: (PState, Outcome))
    ensures r.1.Fail? ==> !r.1.error.Transport()
  {
    var (s1, o1) := GetServicesSpec(s, tool.primary);
    if o1.Fail? then (s1, o1)
    else
      var (s2, o2) := FetchFrom(s1, 0, tool);
      if o2.Fail? then (s2, o2)
      else
        var (h, o3) := HandlesFrom(s2.handles, Text.SplitLines(tool.notifyHandles));
        (s2.(handles := h), o3)
  }

  /** Preparing reads and caches, and touches nothing of the session. */
  lemma PrepareKeeps(s: PState, tool: ToolOutput)
    ensures var p := PrepareSpec(s, tool).0;
      && p.addr == s.addr && p.connected == s.connected && p.helper == s.helper && p.sent == s.sent
      && p.running == s.running && p.status == s.status && p.inbox == s.inbox
  {
    FetchKeepsHandles(GetServicesSpec(s, tool.primary).0, 0, tool);
  }

  /** The connect command written to the helper. */
  function ConnectCommand(addr: string): string {
    "connect " + addr + "\n"
  }

  function ConnectSpec(s: PState, tool: ToolOutput, reply: Resp): (PState, Outcome) {
    var (s1, o1) := PrepareSpec(s, tool);
    if o1.Fail? then (s1, o1)
    else
      var s2 := StartHelperSpec(s1);
      var s3 := WriteCmdSpec(s2, ConnectCommand(s2.addr)).0;
      match reply
      case Matched(_) => (s3.(connected := true), Pass)
      case Timeout => (StopHelperSpec(s3), Fail(Btle(Disconnected)))
      case Eof => (s3, Fail(PexpectEof))
  }

  /** Once preparation succeeds, the helper is asked to connect; success
      marks the link up, a timeout shuts the helper down again and reports
      DISCONNECTED, and EOF escapes. */
  lemma ConnectOutcome(s: PState, tool: ToolOutput, reply: Resp)
    requires PrepareSpec(s, tool).1.Pass?
    ensures var p := PrepareSpec(s, tool).0;
      var (c, o) := ConnectSpec(s, tool, reply);
      && c.services == p.services && c.handles == p.handles
      && (reply.Matched? ==> o.Pass? && c.connected && c.helper && c.sent == p.sent + [ConnectCommand(s.addr)])
      && (reply.Timeout? ==> o == Fail(Btle(Disconnected)) && c.connected == s.connected && !c.helper
                             && c.sent == p.sent + [ConnectCommand(s.addr), "exit"])
      && (reply.Eof? ==> o == Fail(PexpectEof) && c.helper)
  {
    var p := PrepareSpec(s, tool).0;
    PrepareKeeps(s, tool);
    if reply.Timeout? {
      assert p.sent + [ConnectCommand(s.addr)] + ["exit"] == p.sent + [ConnectCommand(s.addr), "exit"];
    }
  }

  /** Every connect attempt that gets as far as the handle listing appends
      that listing's handles, whatever the helper answers afterwards. */
  lemma ConnectAppendsHandles(s: PState, tool: ToolOutput, reply: Resp)
    requires GetServicesSpec(s, tool.primary).1.Pass?
    requires FetchFrom(GetServicesSpec(s, tool.primary).0, 0, tool).1.Pass?
    ensures ConnectSpec(s, tool, reply).0.handles == s.handles + HandlesOf(tool.notifyHandles)
  {
    var s1 := GetServicesSpec(s, tool.primary).0;
    FetchKeepsHandles(s1, 0, tool);
    HandlesAppend(s.handles, Text.SplitLines(tool.notifyHandles));
  }

  lemma {:induction false} FetchKeepsHandles(s: PState, i: nat, tool: ToolOutput)
    ensures var r := FetchFrom(s, i, tool).0;
      r.handles == s.handles && r.discovered == s.discovered && r.addr == s.addr
      && r.helper == s.helper && r.connected == s.connected && r.sent == s.sent
      && r.running == s.running && r.status == s.status && r.inbox == s.inbox
      && |r.services| == |s.services|
    decreases |s.services| - i
  {
    if i < |s.services| {
      var e := s.services[i];
      var (svc, res) := Gatt.ServiceChars(e.1, tool.characteristics(e.1.hndStart, e.1.hndEnd), None);
      if res.Ok? {
        FetchKeepsHandles(s.(services := s.services[i := (e.0, svc)]), i + 1, tool);
      }
    }
  }

  /** The handle list is never cleared: after a failed attempt and a
      second one on the same device, every handle is listed twice. */
  lemma ReconnectDuplicates(s: PState, tool: ToolOutput, r1: Resp, r2: Resp)
    requires s.discovered
    requires FetchFrom(s, 0, tool).1.Pass?
    requires FetchFrom(ConnectSpec(s, tool, r1).0, 0, tool).1.Pass?
    ensures var s2 := ConnectSpec(ConnectSpec(s, tool, r1).0, tool, r2).0;
      s2.handles == s.handles + HandlesOf(tool.notifyHandles) + HandlesOf(tool.notifyHandles)
  {
    ConnectAppendsHandles(s, tool, r1);
    var s1 := ConnectSpec(s, tool, r1).0;
    assert s1.discovered by {
      FetchKeepsHandles(s, 0, tool);
    }
    ConnectAppendsHandles(s1, tool, r2);
  }

  // ---------------------------------------------------------------------
  // Writes and reads

  /** The command that writes `value` to a handle (notifications). */
  function WriteReq(handle: string, value: string): string {
    "char-write-req " + handle + " " + value
  }

  /** `activateNotifications` / `deactivateNotifications` from handle `i`
      on: write `value` to each, then wait for the acknowledgement `replies(i)`;
      a missing helper, a timeout or EOF stops the loop and escapes. */
  function NotifyFrom(s: PState, i: nat, value: string, replies: nat -> Resp): (r: (PState, Outcome))
    ensures r.0.handles == s.handles && r.0.connected == s.connected && r.0.helper == s.helper
    decreases |s.handles| - i
  {
    if i >= |s.handles| then (s, Pass)
    else
      var (s1, o1) := WriteCmdSpec(s, WriteReq(s.handles[i], value));
      if o1.Fail? then (s1, o1)
      else
        match replies(i)
        case Matched(_) => NotifyFrom(s1, i + 1, value, replies)
        case Timeout => (s1, Fail(PexpectTimeout))
        case Eof => (s1, Fail(PexpectEof))
  }

  /** The write commands for handles `lo` up to `hi`. */
  function WriteReqs(handles: seq<string>, lo: nat, hi: nat, value: string): (cmds: seq<string>)
    requires lo <= hi <= |handles|
    ensures |cmds| == hi - lo && forall k | 0 <= k < hi - lo :: cmds[k] == WriteReq(handles[lo + k], value)
    decreases hi - lo
  {
    if lo == hi then [] else [WriteReq(handles[lo], value)] + WriteReqs(handles, lo + 1, hi, value)
  }

  /** The notification loop writes `value` to the handles in list order
      and stops after the first unacknowledged one: what it sent is the
      writes for the first `k` handles, all of them when it passes;
      without a helper it stops at once with BTLE INTERNAL_ERROR. */
  lemma {:induction false} NotifyCommands(s: PState, i: nat, value: string, replies: nat -> Resp) returns (k: nat)
    requires i <= |s.handles|
    ensures var (r, o) := NotifyFrom(s, i, value, replies);
      && (!s.helper && i < |s.handles| ==> r == s && o == Fail(Btle(InternalError)))
      && i <= k <= |s.handles| && r.sent == s.sent + WriteReqs(s.handles, i, k, value)
      && (o.Pass? ==> k == |s.handles|)
    decreases |s.handles| - i
  {
    if i == |s.handles| || !s.helper {
      k := i;
      assert s.sent + WriteReqs(s.handles, i, i, value) == s.sent;
    } else {
      var s1 := WriteCmdSpec(s, WriteReq(s.handles[i], value)).0;
      if replies(i).Matched? {
        k := NotifyCommands(s1, i + 1, value, replies);
        assert s1.sent + WriteReqs(s.handles, i + 1, k, value) == s.sent + WriteReqs(s.handles, i, k, value);
      } else {
        k := i + 1;
        assert s1.sent == s.sent + WriteReqs(s.handles, i, i + 1, value);
      }
    }
  }

  /** With a helper and every write from `i` on acknowledged, the loop
      passes and writes every handle from `i` on, in list order. */
  lemma {:induction false} NotifyAcked(s: PState, i: nat, value: string, replies: nat -> Resp)
    requires i <= |s.handles| && s.helper && forall j | i <= j < |s.handles| :: replies(j).Matched?
    ensures var (r, o) := NotifyFrom(s, i, value, replies);
      o.Pass? && r.sent == s.sent + WriteReqs(s.handles, i, |s.handles|, value)
    decreases |s.handles| - i
  {
    if i < |s.handles| {
      var s1 := WriteCmdSpec(s, WriteReq(s.handles[i], value)).0;
      NotifyAcked(s1, i + 1, value, replies);
      assert s1.sent + WriteReqs(s.handles, i + 1, |s.handles|, value) == s.sent + WriteReqs(s.handles, i, |s.handles|, value);
    }
  }

  /** Deactivation as written repeats activation: with every write
      acknowledged, each handle is sent "0100" again and notifications
      stay on. Writing "0000" instead sends the switch-off value to each
      handle, in the same order. */
  lemma DeactivationRewritesOn(s: PState, replies: nat -> Resp)
    requires s.helper && forall j | 0 <= j < |s.handles| :: replies(j).Matched?
    ensures NotifyFrom(s, 0, "0100", replies).1.Pass?
    ensures NotifyFrom(s, 0, "0100", replies).0.sent == s.sent + WriteReqs(s.handles, 0, |s.handles|, "0100")
    ensures NotifyFrom(s, 0, "0000", replies).1.Pass?
    ensures NotifyFrom(s, 0, "0000", replies).0.sent == s.sent + WriteReqs(s.handles, 0, |s.handles|, "0000")
  {
    NotifyAcked(s, 0, "0100", replies);
    NotifyAcked(s, 0, "0000", replies);
  }

  /** `writeCharacteristic`: the handle text is read as hex (ValueError
      otherwise) and re-printed as at least four lower-case digits; a
      timeout only marks the link down and EOF is swallowed. */
  function WriteCharSpec(s: PState, handle: string, val: string, reply: Resp): (PState, Outcome) {
    match ParseHexInt(handle)
    case Err(e) => (s, Fail(e))
    case Ok(n) =>
      var (s1, o1) := WriteCmdSpec(s, WriteReq(FormatLower(n, 4), val));
      if o1.Fail? then (s1, o1)
      else if reply.Timeout? then (s1.(connected := false), Pass)
      else (s1, Pass)
  }

  /** The command names the same handle number, written with at least four
      lower-case hex digits and no prefix, and nothing escapes but a bad
      handle or a missing helper. */
  lemma WriteCharCommand(s: PState, handle: string, val: string, reply: Resp)
    requires ParseHexInt(handle).Ok? && s.helper
    ensures var (r, o) := WriteCharSpec(s, handle, val, reply);
      && o.Pass?
      && |r.sent| == |s.sent| + 1 && r.sent[..|s.sent|] == s.sent
      && (exists h :: r.sent[|s.sent|] == WriteReq(h, val) && |h| >= 4 && AllLowerHex(h)
                      && ParseHexInt(h) == ParseHexInt(handle))
      && r.connected == (s.connected && !reply.Timeout?)
  {
    var n := ParseHexInt(handle).value;
    var h := FormatLower(n, 4);
    ParseFormattedLower(n, 4);
    var r := WriteCharSpec(s, handle, val, reply).0;
    assert r.sent == s.sent + [WriteReq(h, val)];
    assert r.sent[..|s.sent|] == s.sent;
  }

  /** The value part of a `char-read-uuid` answer: the space-separated
      pieces from index 4 up to, not including, the last, joined again. */
  function ValueText(answer: string): string {
    var parts := Text.SliceToLast(Text.Split(answer, ' '), 4);
    if parts == [] then "" else Text.Join(parts, ' ')
  }

  /** For gatttool's answer shape "handle: H \t value: b1 .. bn \r", four
      header tokens, the byte tokens and a closing token, the value part is
      exactly the byte tokens. */
  lemma ValueTextOfAnswer(head: seq<string>, bytes: seq<string>, last: string)
    requires |head| == 4 && |bytes| >= 1
    requires forall i | 0 <= i < 4 :: ' ' !in head[i]
    requires forall i | 0 <= i < |bytes| :: ' ' !in bytes[i]
    requires ' ' !in last
    ensures ValueText(Text.Join(head + bytes + [last], ' ')) == Text.Join(bytes, ' ')
  {
    var parts := head + bytes + [last];
    forall i | 0 <= i < |parts| ensures ' ' !in parts[i] {
      if i < 4 {
        assert parts[i] == head[i];
      } else if i < 4 + |bytes| {
        assert parts[i] == bytes[i - 4];
      }
    }
    Text.SplitJoin(parts, ' ');
    assert parts[4..|parts| - 1] == bytes;
  }

  /** `readCharacteristicByUUID`: a bad UUID escapes before anything is
      written; a timeout marks the link down and, like EOF, yields None. */
  function ReadByUuidSpec(s: PState, v: Uuid.Value, reply: Resp): (PState, Result<Option<string>>) {
    match Uuid.Parse(v)
    case Err(e) => (s, Err(e))
    case Ok(u) =>
      var (s1, o1) := WriteCmdSpec(s, "char-read-uuid " + Uuid.ToString(u));
      if o1.Fail? then (s1, Err(o1.error))
      else
        match reply
        case Matched(t) => (s1, Ok(Some(ValueText(t))))
        case Timeout => (s1.(connected := false), Ok(None))
        case Eof => (s1, Ok(None))
  }

  /** The read command names the UUID in its canonical printed form, so
      every accepted spelling of one UUID sends the same command. */
  lemma ReadByUuidCommand(s: PState, v: Uuid.Value, w: Uuid.Value, reply: Resp)
    requires s.helper && Uuid.Parse(v).Ok? && Uuid.Parse(v) == Uuid.Parse(w)
    ensures ReadByUuidSpec(s, v, reply) == ReadByUuidSpec(s, w, reply)
    ensures ReadByUuidSpec(s, v, reply).0.sent == s.sent + ["char-read-uuid " + Uuid.ToString(Uuid.Parse(v).value)]
    ensures ReadByUuidSpec(s, v, reply).1.Ok?
  {
  }

  /** Writing `val` to the first characteristic `chr` of service `svc`: the
      common body of the sensor switches in the device classes. */
  function SensorWriteSpec(s: PState, svc: Uuid.Value, chr: Uuid.Value, val: string, tool: ToolOutput, reply: Resp): (PState, Outcome) {
    match ServiceIndex(s.services, svc)
    case Err(e) => (s, Fail(e))
    case Ok(i) =>
      var e := s.services[i];
      var (svc2, res) := Gatt.ServiceChars(e.1, tool.characteristics(e.1.hndStart, e.1.hndEnd), Some(chr));
      var s1 := s.(services := s.services[i := (e.0, svc2)]);
      if res.Err? then (s1, Fail(res.error))
      else if |res.value| == 0 then (s1, Fail(IndexError))
      else WriteCharSpec(s1, res.value[0].valHandle, val, reply)
  }

  /** The handle a sensor write goes to when the service is stored under
      its canonical UUID and its characteristics are cached already: the
      value handle of the first characteristic `chr`, printed as by
      `writeCharacteristic`. */
  function CachedHandle(d: Gatt.Services, svc: Uuid.Value, chr: Uuid.Value): Option<string> {
    match ServiceIndex(d, svc)
    case Err(_) => None
    case Ok(i) =>
      var e := d[i].1;
      if Gatt.NeedsFetch(e) || Uuid.Parse(chr).Err? then None
      else
        var m := Gatt.Matching(e.chars.value, Uuid.Parse(chr).value);
        if m == [] || ParseHexInt(m[0].valHandle).Err? then None
        else Some(FormatLower(ParseHexInt(m[0].valHandle).value, 4))
  }

  /** With the characteristics cached, a sensor write fetches nothing and
      sends exactly one write request, to the cached value handle. */
  lemma SensorWriteCached(s: PState, svc: Uuid.Value, chr: Uuid.Value, val: string, tool: ToolOutput, reply: Resp)
    requires s.helper && CachedHandle(s.services, svc, chr).Some?
    ensures SensorWriteSpec(s, svc, chr, val, tool, reply)
         == (s.(sent := s.sent + [WriteReq(CachedHandle(s.services, svc, chr).value, val)],
                connected := s.connected && !reply.Timeout?), Pass)
  {
    var i := ServiceIndex(s.services, svc).value;
    assert s.services[i := (s.services[i].0, s.services[i].1)] == s.services;
  }

  // ---------------------------------------------------------------------
  // The `run` loop

  /** Where `run` is: the top of the main loop, the connect loop, or the
      initialize loop (whose exit is followed by one notification wait). */
  datatype Phase = Top | ConnectLoop | InitLoop

  /** How `run` ended: `running` was false, an EOF made it return, another
      exception escaped, or the given inputs ran out. */
  datatype RunEnd = Stopped | Returned | Raised(error: Error) | OutOfInput

  /** One connect attempt: what the gatttool runs print and the helper's
      answer to "connect". */
  datatype Attempt = Attempt(tool: ToolOutput, reply: Resp)

  function Rank(pc: Phase): nat {
    match pc
    case Top => 2
    case ConnectLoop => 1
    case InitLoop => 0
  }

  /** `run` from phase `pc`, given the connect attempts, the outcomes of
      the subclass's `initialize`, the notification waits still to come and
      the outcomes of the subclass's `_handleNotification`, one for each
      notification received. The `try` around the wait and the handler
      catches only pexpect's TIMEOUT and EOF, so any other error of the
      handler escapes `run`. */
  function RunFrom(s: PState, pc: Phase, attempts: seq<Attempt>, inits: seq<Outcome>, waits: seq<Resp>, handled: seq<Outcome>): (r: (PState, RunEnd))
    decreases |attempts| + |inits| + |waits|, Rank(pc)
  {
    match pc
    case Top =>
      if !s.running then (s, Stopped) else RunFrom(s, ConnectLoop, attempts, inits, waits, handled)
    case ConnectLoop =>
      if s.connected then RunFrom(s, InitLoop, attempts, inits, waits, handled)
      else if attempts == [] then (s, OutOfInput)
      else
        var (s1, o) := ConnectSpec(s, attempts[0].tool, attempts[0].reply);
        if o.Pass? then RunFrom(s1, ConnectLoop, attempts[1..], inits, waits, handled)
        else if o.error == PexpectEof then (s1, Returned)
        else if o.error.Btle? then RunFrom(s1.(connected := false), ConnectLoop, attempts[1..], inits, waits, handled)
        else (s1, Raised(o.error))
    case InitLoop =>
      if s.status == Initializing then
        if inits == [] then (s, OutOfInput)
        else
          match inits[0]
          case Pass => RunFrom(s.(status := Initialized), InitLoop, attempts, inits[1..], waits, handled)
          case Fail(e) =>
            if e == PexpectEof then (s, Returned)
            else if e == PexpectTimeout then RunFrom(s.(connected := false), InitLoop, attempts, inits[1..], waits, handled)
            else (s, Raised(e))
      else if waits == [] then (s, OutOfInput)
      else
        match waits[0]
        case Timeout => RunFrom(Dropped(s), Top, attempts, inits, waits[1..], handled)
        case Eof => (s, Returned)
        case Matched(t) =>
          if handled == [] then (s, OutOfInput)
          else
            var s1 := s.(inbox := s.inbox + [t]);
            match handled[0]
            case Pass => RunFrom(s1, Top, attempts, inits, waits[1..], handled[1..])
            case Fail(e) =>
              if e == PexpectTimeout then RunFrom(Dropped(s1), Top, attempts, inits, waits[1..], handled[1..])
              else if e == PexpectEof then (s1, Returned)
              else (s1, Raised(e))
  }

  /** The state after a TIMEOUT in the notification wait or the handler:
      the link is down and the device has to be initialized again. */
  function Dropped(s: PState): PState {
    s.(connected := false, status := Initializing)
  }

  /** `k` initialize timeouts in a row. */
  function Timeouts(k: nat): (r: seq<Outcome>)
    ensures |r| == k && forall i | 0 <= i < k :: r[i] == Fail(PexpectTimeout)
  {
    if k == 0 then [] else [Fail(PexpectTimeout)] + Timeouts(k - 1)
  }

  /** An initialize timeout only marks the link down and tries initialize
      again: after any number of timeouts and then a success, the device
      counts as initialized while `connected` is false, and no connect
      attempt was used. */
  lemma {:induction false} InitTimeoutsKeepInitializing(s: PState, attempts: seq<Attempt>, k: nat, rest: seq<Outcome>, waits: seq<Resp>, handled: seq<Outcome>)
    requires s.status == Initializing && k >= 1
    ensures RunFrom(s, InitLoop, attempts, Timeouts(k) + [Pass] + rest, waits, handled)
         == RunFrom(s.(connected := false, status := Initialized), InitLoop, attempts, rest, waits, handled)
    decreases k
  {
    var inits := Timeouts(k) + [Pass] + rest;
    assert inits[0] == Fail(PexpectTimeout);
    if k == 1 {
      assert inits[1..] == [Pass] + rest;
    } else {
      assert inits[1..] == Timeouts(k - 1) + [Pass] + rest;
      InitTimeoutsKeepInitializing(s.(connected := false), attempts, k - 1, rest, waits, handled);
    }
  }

  /** A notification timeout drops the link and the initialized status, so
      the next round connects again and then initializes again. A TIMEOUT
      raised by the handler is caught by the same clause. */
  lemma ListenTimeoutReconnects(s: PState, attempts: seq<Attempt>, inits: seq<Outcome>, t: string, waits: seq<Resp>, handled: seq<Outcome>)
    requires s.status == Initialized && s.running
    ensures RunFrom(s, InitLoop, attempts, inits, [Timeout] + waits, handled)
         == RunFrom(s.(connected := false, status := Initializing), ConnectLoop, attempts, inits, waits, handled)
    ensures RunFrom(s, InitLoop, attempts, inits, [Matched(t)] + waits, [Fail(PexpectTimeout)] + handled)
         == RunFrom(s.(inbox := s.inbox + [t], connected := false, status := Initializing), ConnectLoop, attempts, inits, waits, handled)
  {
    assert ([Timeout] + waits)[1..] == waits;
    assert ([Matched(t)] + waits)[1..] == waits;
    assert ([Fail(PexpectTimeout)] + handled)[1..] == handled;
  }

  /** A handler error other than pexpect's TIMEOUT and EOF ends `run` with
      that error, right after the notification was handed over. */
  lemma HandlerErrorEndsRun(s: PState, attempts: seq<Attempt>, inits: seq<Outcome>, t: string, waits: seq<Resp>, e: Error, handled: seq<Outcome>)
    requires s.status == Initialized && !e.Transport()
    ensures RunFrom(s, InitLoop, attempts, inits, [Matched(t)] + waits, [Fail(e)] + handled)
         == (s.(inbox := s.inbox + [t]), Raised(e))
  {
  }

  /** The texts of the notifications among `waits`, in order. */
  function Texts(waits: seq<Resp>): (ts: seq<string>)
    ensures |ts| <= |waits|
  {
    if waits == [] then []
    else if waits[0].Matched? then [waits[0].text] + Texts(waits[1..])
    else Texts(waits[1..])
  }

  lemma {:induction false} TextsAppend(a: seq<Resp>, b: seq<Resp>)
    ensures Texts(a + b) == Texts(a) + Texts(b)
    decreases |a|
  {
    if a == [] {
      assert a + b == b;
    } else {
      assert (a + b)[1..] == a[1..] + b;
      TextsAppend(a[1..], b);
    }
  }

  lemma {:induction false} ConnectKeeps(s: PState, tool: ToolOutput, reply: Resp)
    ensures var c := ConnectSpec(s, tool, reply).0;
      c.inbox == s.inbox && c.running == s.running && c.status == s.status && c.addr == s.addr
    ensures ConnectSpec(s, tool, reply).1 == Fail(PexpectEof) ==> reply == Eof
    ensures ConnectSpec(s, tool, reply).1 != Fail(PexpectTimeout)
  {
    PrepareKeeps(s, tool);
  }

  /** `run` hands the notifications to the subclass in the order they
      arrive, each once and each with one handler call, and invents none:
      the inbox grows by the texts of a prefix of the waits. `running` and
      the address stay as they were. */
  lemma {:induction false} RunDelivers(s: PState, pc: Phase, attempts: seq<Attempt>, inits: seq<Outcome>, waits: seq<Resp>, handled: seq<Outcome>)
    ensures Delivered(s, RunFrom(s, pc, attempts, inits, waits, handled).0, waits, handled)
    decreases |attempts| + |inits| + |waits|, Rank(pc) + 1
  {
    assert s.inbox + Texts(waits[..0]) == s.inbox;
    match pc
    case Top =>
      if s.running { RunDelivers(s, ConnectLoop, attempts, inits, waits, handled); }
    case ConnectLoop =>
      if s.connected {
        RunDelivers(s, InitLoop, attempts, inits, waits, handled);
      } else if attempts != [] {
        var (s1, o) := ConnectSpec(s, attempts[0].tool, attempts[0].reply);
        ConnectKeeps(s, attempts[0].tool, attempts[0].reply);
        if o.Pass? {
          RunDelivers(s1, ConnectLoop, attempts[1..], inits, waits, handled);
        } else if o.error != PexpectEof && o.error.Btle? {
          RunDelivers(s1.(connected := false), ConnectLoop, attempts[1..], inits, waits, handled);
        }
      }
    case InitLoop =>
      if s.status == Initializing {
        if inits != [] {
          if inits[0].Pass? {
            RunDelivers(s.(status := Initialized), InitLoop, attempts, inits[1..], waits, handled);
          } else if inits[0].error == PexpectTimeout {
            RunDelivers(s.(connected := false), InitLoop, attempts, inits[1..], waits, handled);
          }
        }
      } else if waits != [] {
        DeliversListen(s, attempts, inits, waits, handled);
      }
  }

  /** What `RunDelivers` promises of a run from `s` ending in `r`: the
      inbox gained the texts of the first `k` waits, and each of them used
      up one handler outcome. */
  predicate Delivered(s: PState, r: PState, waits: seq<Resp>, handled: seq<Outcome>) {
    && r.running == s.running && r.addr == s.addr
    && exists k | 0 <= k <= |waits| ::
         r.inbox == s.inbox + Texts(waits[..k]) && |Texts(waits[..k])| <= |handled|
  }

  /** The notification wait at the end of a round, and the handler call
      on what it matched. */
  lemma {:induction false} DeliversListen(s: PState, attempts: seq<Attempt>, inits: seq<Outcome>, waits: seq<Resp>, handled: seq<Outcome>)
    requires s.status == Initialized && waits != []
    ensures Delivered(s, RunFrom(s, InitLoop, attempts, inits, waits, handled).0, waits, handled)
    decreases |attempts| + |inits| + |waits|, 0
  {
    var w := waits[0];
    assert s.inbox + Texts(waits[..0]) == s.inbox;
    assert waits[..1] == [w] && [w][1..] == [];
    if w.Timeout? {
      assert Texts([w]) == [];
      RunDelivers(Dropped(s), Top, attempts, inits, waits[1..], handled);
      DeliveredStep(s, Dropped(s), RunFrom(Dropped(s), Top, attempts, inits, waits[1..], handled).0, waits, handled, handled);
    } else if w.Matched? && handled != [] {
      var s1 := s.(inbox := s.inbox + [w.text]);
      assert Texts([w]) == [w.text];
      var e := handled[0];
      if e.Pass? || e == Fail(PexpectTimeout) {
        var s2 := if e.Pass? then s1 else Dropped(s1);
        RunDelivers(s2, Top, attempts, inits, waits[1..], handled[1..]);
        DeliveredStep(s, s2, RunFrom(s2, Top, attempts, inits, waits[1..], handled[1..]).0, waits, handled, handled[1..]);
      } else {
        assert s1.inbox == s.inbox + Texts(waits[..1]) && |Texts(waits[..1])| <= |handled|;
      }
    }
  }

  /** Delivery across one wait: what that wait delivered, then what the
      rest of the run delivered. */
  lemma {:induction false} DeliveredStep(s: PState, s2: PState, r: PState, waits: seq<Resp>, handled: seq<Outcome>, h1: seq<Outcome>)
    requires waits != [] && s2.running == s.running && s2.addr == s.addr
    requires s2.inbox == s.inbox + Texts([waits[0]]) && |h1| + |Texts([waits[0]])| <= |handled|
    requires Delivered(s2, r, waits[1..], h1)
    ensures Delivered(s, r, waits, handled)
  {
    var w := waits[0];
    var k :| 0 <= k <= |waits[1..]| && r.inbox == s2.inbox + Texts(waits[1..][..k]) && |Texts(waits[1..][..k])| <= |h1|;
    assert waits[..k + 1] == [w] + waits[1..][..k];
    TextsAppend([w], waits[1..][..k]);
    assert r.inbox == s.inbox + Texts(waits[..k + 1]);
  }

  /** `run` returns only on an EOF: from a connect attempt, from
      initialize, from a notification wait or from the handler. */
  lemma {:induction false} RunReturnsOnEof(s: PState, pc: Phase, attempts: seq<Attempt>, inits: seq<Outcome>, waits: seq<Resp>, handled: seq<Outcome>)
    requires RunFrom(s, pc, attempts, inits, waits, handled).1 == Returned
    ensures (exists i | 0 <= i < |attempts| :: attempts[i].reply == Eof)
         || Fail(PexpectEof) in inits || Eof in waits || Fail(PexpectEof) in handled
    decreases |attempts| + |inits| + |waits|, Rank(pc)
  {
    match pc
    case Top =>
      RunReturnsOnEof(s, ConnectLoop, attempts, inits, waits, handled);
    case ConnectLoop =>
      if s.connected {
        RunReturnsOnEof(s, InitLoop, attempts, inits, waits, handled);
      } else {
        var (s1, o) := ConnectSpec(s, attempts[0].tool, attempts[0].reply);
        ConnectKeeps(s, attempts[0].tool, attempts[0].reply);
        if o.Pass? {
          RunReturnsOnEof(s1, ConnectLoop, attempts[1..], inits, waits, handled);
          if exists i | 0 <= i < |attempts[1..]| :: attempts[1..][i].reply == Eof {
            var i :| 0 <= i < |attempts[1..]| && attempts[1..][i].reply == Eof;
            assert attempts[i + 1].reply == Eof;
          }
        } else if o.error == PexpectEof {
          assert attempts[0].reply == Eof;
        } else {
          RunReturnsOnEof(s1.(connected := false), ConnectLoop, attempts[1..], inits, waits, handled);
          if exists i | 0 <= i < |attempts[1..]| :: attempts[1..][i].reply == Eof {
            var i :| 0 <= i < |attempts[1..]| && attempts[1..][i].reply == Eof;
            assert attempts[i + 1].reply == Eof;
          }
        }
      }
    case InitLoop =>
      if s.status == Initializing {
        if inits[0].Pass? {
          RunReturnsOnEof(s.(status := Initialized), InitLoop, attempts, inits[1..], waits, handled);
          assert forall x | x in inits[1..] :: x in inits;
        } else if inits[0].error == PexpectTimeout {
          RunReturnsOnEof(s.(connected := false), InitLoop, attempts, inits[1..], waits, handled);
          assert forall x | x in inits[1..] :: x in inits;
        } else {
          assert inits[0] == Fail(PexpectEof);
        }
      } else if waits[0].Timeout? {
        RunReturnsOnEof(Dropped(s), Top, attempts, inits, waits[1..], handled);
        assert forall x | x in waits[1..] :: x in waits;
      } else if waits[0].Matched? {
        var s1 := s.(inbox := s.inbox + [waits[0].text]);
        assert forall x | x in waits[1..] :: x in waits;
        assert forall x | x in handled[1..] :: x in handled;
        if handled[0].Pass? {
          RunReturnsOnEof(s1, Top, attempts, inits, waits[1..], handled[1..]);
        } else if handled[0].error == PexpectTimeout {
          RunReturnsOnEof(Dropped(s1), Top, attempts, inits, waits[1..], handled[1..]);
        } else {
          assert handled[0] == Fail(PexpectEof);
        }
      }
  }

  /** What escapes `run` as an exception is never pexpect's TIMEOUT or
      EOF, and a BTLEException escapes only from `initialize` or from the
      handler: the connect loop catches it. */
  lemma {:induction false} RunRaises(s: PState, pc: Phase, attempts: seq<Attempt>, inits: seq<Outcome>, waits: seq<Resp>, handled: seq<Outcome>, e: Error)
    requires RunFrom(s, pc, attempts, inits, waits, handled).1 == Raised(e)
    ensures !e.Transport()
    ensures e.Btle? ==> Fail(e) in inits || Fail(e) in handled
    decreases |attempts| + |inits| + |waits|, Rank(pc)
  {
    match pc
    case Top =>
      RunRaises(s, ConnectLoop, attempts, inits, waits, handled, e);
    case ConnectLoop =>
      if s.connected {
        RunRaises(s, InitLoop, attempts, inits, waits, handled, e);
      } else {
        var (s1, o) := ConnectSpec(s, attempts[0].tool, attempts[0].reply);
        ConnectKeeps(s, attempts[0].tool, attempts[0].reply);
        if o.Pass? {
          RunRaises(s1, ConnectLoop, attempts[1..], inits, waits, handled, e);
        } else if o.error != PexpectEof && o.error.Btle? {
          RunRaises(s1.(connected := false), ConnectLoop, attempts[1..], inits, waits, handled, e);
        }
      }
    case InitLoop =>
      if s.status == Initializing {
        assert forall x | x in inits[1..] :: x in inits;
        if inits[0].Pass? {
          RunRaises(s.(status := Initialized), InitLoop, attempts, inits[1..], waits, handled, e);
        } else if inits[0].error == PexpectTimeout {
          RunRaises(s.(connected := false), InitLoop, attempts, inits[1..], waits, handled, e);
        }
      } else if waits[0].Timeout? {
        RunRaises(Dropped(s), Top, attempts, inits, waits[1..], handled, e);
      } else if waits[0].Matched? {
        var s1 := s.(inbox := s.inbox + [waits[0].text]);
        assert forall x | x in handled[1..] :: x in handled;
        if handled[0].Pass? {
          RunRaises(s1, Top, attempts, inits, waits[1..], handled[1..], e);
        } else if handled[0].error == PexpectTimeout {
          RunRaises(Dropped(s1), Top, attempts, inits, waits[1..], handled[1..], e);
        }
      }
  }

  // ---------------------------------------------------------------------
  // The class

  class Peripheral {
    var helper: bool
    var services: Gatt.Services
    var discoveredAllServices: bool
    var running: bool
    var initializingStatus: Status
    var connected: bool
    var deviceAddr: string
    var notificationHandles: seq<string>
    var sent: seq<string>
    var inbox: seq<string>

    function State(): PState
      reads this
    {
      PState(helper, services, discoveredAllServices, running, initializingStatus,
             connected, deviceAddr, notificationHandles, sent, inbox)
    }

    /** The field assignments of `__init__`, once the address passed. */
    constructor Create(addr: string)
      ensures State() == Initial(addr)
    {
      helper := false;
      services := [];
      discoveredAllServices := false;
      running := true;
      initializingStatus := Initializing;
      connected := false;
      deviceAddr := addr;
      notificationHandles := [];
      sent := [];
      inbox := [];
    }

    /** `Peripheral(addr)` as written: NameError for a malformed address. */
    static method Open(addr: string) returns (r: Result<Peripheral>)
      ensures r.Err? <==> AddressCheck(addr).Fail?
      ensures r.Err? ==> r.error == AddressCheck(addr).error
      ensures r.Ok? ==> fresh(r.value) && r.value.State() == Initial(addr)
    {
      var o := AddressCheck(addr);
      if o.Fail? { return Err(o.error); }
      var p := new Peripheral.Create(addr);
      return Ok(p);
    }

    /** `Peripheral(addr)` raising the ValueError its message intends. */
    static method OpenIntended(addr: string) returns (r: Result<Peripheral>)
      ensures r.Err? <==> AddressCheckIntended(addr).Fail?
      ensures r.Err? ==> r.error == ValueError
      ensures r.Ok? ==> fresh(r.value) && r.value.State() == Initial(addr)
    {
      var o := AddressCheckIntended(addr);
      if o.Fail? { return Err(o.error); }
      var p := new Peripheral.Create(addr);
      return Ok(p);
    }

    method StartHelper()
      modifies this
      ensures State() == StartHelperSpec(old(State()))
    {
      if !helper {
        helper := true;
      }
    }

    method StopHelper()
      modifies this
      ensures State() == StopHelperSpec(old(State()))
    {
      if helper {
        sent := sent + ["exit"];
        helper := false;
      }
    }

    method WriteCmd(cmd: string) returns (o: Outcome)
      modifies this
      ensures (State(), o) == WriteCmdSpec(old(State()), cmd)
    {
      if !helper {
        return Fail(Btle(InternalError));
      }
      sent := sent + [cmd];
      return Pass;
    }

    method Disconnect()
      modifies this
      ensures State() == DisconnectSpec(old(State()))
    {
      running := false;
      connected := false;
      if !helper {
        return;
      }
      sent := sent + ["disconnect"];
      StopHelper();
    }

    method DiscoverServices(primary: string) returns (o: Outcome)
      modifies this
      ensures (State(), o) == DiscoverSpec(old(State()), primary)
    {
      var lines := Gatt.Lines(primary);
      var i := 0;
      while i < |lines|
        invariant 0 <= i <= |lines|
        invariant DiscoverFrom(services, lines[i..]) == DiscoverFrom(old(services), lines)
        invariant State() == old(State()).(services := services)
      {
        assert lines[i..][1..] == lines[i + 1..];
        var p := Gatt.ParseServiceLine(lines[i]);
        if p.Err? {
          return Fail(p.error);
        }
        services := Gatt.Put(services, p.value.0, p.value.1);
        i := i + 1;
      }
      discoveredAllServices := true;
      return Pass;
    }

    method GetServices(primary: string) returns (r: Result<seq<Gatt.Service>>)
      modifies this
      ensures State() == GetServicesSpec(old(State()), primary).0
      ensures GetServicesSpec(old(State()), primary).1.Fail? ==> r == Err(GetServicesSpec(old(State()), primary).1.error)
      ensures GetServicesSpec(old(State()), primary).1.Pass? ==> r == Ok(Values(services))
    {
      if !discoveredAllServices {
        var o := DiscoverServices(primary);
        if o.Fail? {
          return Err(o.error);
        }
      }
      return Ok(Values(services));
    }

    /** `getServiceByUUID`. */
    function GetServiceByUuid(v: Uuid.Value): (r: Result<Gatt.Service>)
      reads this
      ensures r.Ok? <==> ServiceIndex(services, v).Ok?
      ensures r.Ok? ==> r.value == services[ServiceIndex(services, v).value].1
    {
      var i :- ServiceIndex(services, v);
      Ok(services[i].1)
    }

    /** `getCharacteristics(start, end)`, given what the gatttool run printed. */
    method GetCharacteristics(text: string) returns (r: Result<seq<Gatt.Characteristic>>)
      ensures r == Gatt.ParseCharacteristics(text)
    {
      if Text.Contains(text, Gatt.DiscoveryFailed) {
        return Err(Btle(Disconnected));
      }
      var lines := Gatt.Lines(text);
      var chars: seq<Gatt.Characteristic> := [];
      var i := 0;
      while i < |lines|
        invariant 0 <= i <= |lines| && |chars| == i
        invariant forall j | 0 <= j < i :: Gatt.ParseCharLine(lines[j]).Ok? && chars[j] == Gatt.ParseCharLine(lines[j]).value
      {
        var c := Gatt.ParseCharLine(lines[i]);
        if c.Err? {
          return Err(c.error);
        }
        chars := chars + [c.value];
        i := i + 1;
      }
      var whole := Gatt.ParseCharsFrom(lines);
      assert whole.Ok?;
      assert whole.value == chars;
      return Ok(chars);
    }

    /** `Service.getCharacteristics(forUUID)` on the service stored at `i`. */
    method ServiceCharacteristics(i: nat, tool: ToolOutput, forUuid: Option<Uuid.Value>) returns (r: Result<seq<Gatt.Characteristic>>)
      requires i < |services|
      modifies this
      ensures var e := old(services)[i];
        var (svc, res) := Gatt.ServiceChars(e.1, tool.characteristics(e.1.hndStart, e.1.hndEnd), forUuid);
        r == res && State() == old(State()).(services := old(services)[i := (e.0, svc)])
    {
      var svc := services[i].1;
      if Gatt.NeedsFetch(svc) {
        var fetched := GetCharacteristics(tool.characteristics(svc.hndStart, svc.hndEnd));
        if fetched.Err? {
          return fetched;
        }
        svc := svc.(chars := Some(fetched.value));
        services := services[i := (services[i].0, svc)];
      }
      if forUuid.None? {
        return Ok(svc.chars.value);
      }
      var u := Uuid.Parse(forUuid.value);
      if u.Err? {
        return Err(u.error);
      }
      return Ok(Gatt.Matching(svc.chars.value, u.value));
    }

    method GetNotificationHandles(text: string) returns (o: Outcome)
      modifies this
      ensures var (h, o2) := HandlesFrom(old(notificationHandles), Text.SplitLines(text));
        o == o2 && State() == old(State()).(handles := h)
    {
      var lines := Text.SplitLines(text);
      var i := 0;
      while i < |lines|
        invariant 0 <= i <= |lines|
        invariant HandlesFrom(notificationHandles, lines[i..]) == HandlesFrom(old(notificationHandles), lines)
        invariant State() == old(State()).(handles := notificationHandles)
      {
        assert lines[i..][1..] == lines[i + 1..];
        var pieces := Text.Split(lines[i], ' ');
        if |pieces| < 2 {
          return Fail(IndexError);
        }
        notificationHandles := notificationHandles + [pieces[1]];
        i := i + 1;
      }
      return Pass;
    }

    method Connect(tool: ToolOutput, reply: Resp) returns (o: Outcome)
      modifies this
      ensures (State(), o) == ConnectSpec(old(State()), tool, reply)
    {
      o := Prepare(tool);
      if o.Fail? {
        return;
      }
      StartHelper();
      // The helper was just started, so this write cannot fail.
      var w := WriteCmd(ConnectCommand(deviceAddr));
      match reply
      case Matched(_) =>
        connected := true;
        o := Pass;
      case Timeout =>
        StopHelper();
        o := Fail(Btle(Disconnected));
      case Eof =>
        o := Fail(PexpectEof);
    }

    /** The first half of `connect`: services, every service's
        characteristics, then the notification handles. */
    method Prepare(tool: ToolOutput) returns (o: Outcome)
      modifies this
      ensures (State(), o) == PrepareSpec(old(State()), tool)
    {
      var svcs := GetServices(tool.primary);
      if svcs.Err? {
        return Fail(svcs.error);
      }
      ghost var s1 := State();
      var i := 0;
      while i < |services|
        invariant 0 <= i <= |services| == |s1.services|
        invariant FetchFrom(State(), i, tool) == FetchFrom(s1, 0, tool)
      {
        var r := ServiceCharacteristics(i, tool, None);
        if r.Err? {
          return Fail(r.error);
        }
        i := i + 1;
      }
      o := GetNotificationHandles(tool.notifyHandles);
    }

    /** The loop shared by `activateNotifications` and
        `deactivateNotifications`. */
    method WriteNotificationHandles(value: string, replies: nat -> Resp) returns (o: Outcome)
      modifies this
      ensures (State(), o) == NotifyFrom(old(State()), 0, value, replies)
    {
      var handles := notificationHandles;
      var i := 0;
      while i < |handles|
        invariant 0 <= i <= |handles| && notificationHandles == handles
        invariant NotifyFrom(State(), i, value, replies) == NotifyFrom(old(State()), 0, value, replies)
      {
        o := WriteCmd(WriteReq(handles[i], value));
        if o.Fail? {
          return;
        }
        match replies(i) {
          case Matched(_) =>
          case Timeout =>
            return Fail(PexpectTimeout);
          case Eof =>
            return Fail(PexpectEof);
        }
        i := i + 1;
      }
      return Pass;
    }

    /** `activateNotifications`: "0100" to every notification handle. */
    method ActivateNotifications(replies: nat -> Resp) returns (o: Outcome)
      modifies this
      ensures (State(), o) == NotifyFrom(old(State()), 0, "0100", replies)
    {
      o := WriteNotificationHandles("0100", replies);
    }

    /** `deactivateNotifications` as written: it writes "0100" as well, which
        switches notifications on again. */
    method DeactivateNotifications(replies: nat -> Resp) returns (o: Outcome)
      modifies this
      ensures (State(), o) == NotifyFrom(old(State()), 0, "0100", replies)
    {
      o := WriteNotificationHandles("0100", replies);
    }

    /** `deactivateNotifications` writing "0000", which switches them off. */
    method DeactivateNotificationsIntended(replies: nat -> Resp) returns (o: Outcome)
      modifies this
      ensures (State(), o) == NotifyFrom(old(State()), 0, "0000", replies)
    {
      o := WriteNotificationHandles("0000", replies);
    }

    method WriteCharacteristic(handle: string, val: string, reply: Resp) returns (o: Outcome)
      modifies this
      ensures (State(), o) == WriteCharSpec(old(State()), handle, val, reply)
    {
      var n := ParseHexInt(handle);
      if n.Err? {
        return Fail(n.error);
      }
      o := WriteCmd(WriteReq(FormatLower(n.value, 4), val));
      if o.Fail? {
        return;
      }
      if reply.Timeout? {
        connected := false;
      }
      return Pass;
    }

    method ReadCharacteristicByUuid(v: Uuid.Value, reply: Resp) returns (r: Result<Option<string>>)
      modifies this
      ensures (State(), r) == ReadByUuidSpec(old(State()), v, reply)
    {
      var u := Uuid.Parse(v);
      if u.Err? {
        return Err(u.error);
      }
      var o := WriteCmd("char-read-uuid " + Uuid.ToString(u.value));
      if o.Fail? {
        return Err(o.error);
      }
      match reply
      case Matched(t) =>
        r := Ok(Some(ValueText(t)));
      case Timeout =>
        connected := false;
        r := Ok(None);
      case Eof =>
        r := Ok(None);
    }

    /** `getServiceByUUID(svc).getCharacteristics(chr)[0].write(val)`. */
    method SensorWrite(svc: Uuid.Value, chr: Uuid.Value, val: string, tool: ToolOutput, reply: Resp) returns (o: Outcome)
      modifies this
      ensures (State(), o) == SensorWriteSpec(old(State()), svc, chr, val, tool, reply)
    {
      var i := ServiceIndex(services, svc);
      if i.Err? {
        return Fail(i.error);
      }
      var chars := ServiceCharacteristics(i.value, tool, Some(chr));
      if chars.Err? {
        return Fail(chars.error);
      }
      if |chars.value| == 0 {
        return Fail(IndexError);
      }
      o := WriteCharacteristic(chars.value[0].valHandle, val, reply);
    }

    /** `run`, over the given connect attempts, initialize outcomes,
        notification waits and handler outcomes. */
    method Run(attempts: seq<Attempt>, inits: seq<Outcome>, waits: seq<Resp>, handled: seq<Outcome>) returns (e: RunEnd)
      modifies this
      ensures (State(), e) == RunFrom(old(State()), Top, attempts, inits, waits, handled)
    {
      ghost var goal := RunFrom(old(State()), Top, attempts, inits, waits, handled);
      var a, n, w, h := 0, 0, 0, 0;
      while running
        invariant 0 <= a <= |attempts| && 0 <= n <= |inits| && 0 <= w <= |waits| && 0 <= h <= |handled|
        invariant RunFrom(State(), Top, attempts[a..], inits[n..], waits[w..], handled[h..]) == goal
        decreases |attempts| - a + |inits| - n + |waits| - w
      {
        var end: Option<RunEnd>;
        a, end := ConnectLoopOf(attempts, a, inits[n..], waits[w..], handled[h..]);
        if end.Some? {
          return end.value;
        }
        n, end := InitLoopOf(attempts[a..], inits, n, waits[w..], handled[h..]);
        if end.Some? {
          return end.value;
        }
        w, h, end := Listen(attempts[a..], inits[n..], waits, w, handled, h);
        if end.Some? {
          return end.value;
        }
      }
      return Stopped;
    }

    /** `while not self.connected: ...` of `run`, from attempt `a0`. */
    method ConnectLoopOf(attempts: seq<Attempt>, a0: nat, inits: seq<Outcome>, waits: seq<Resp>, handled: seq<Outcome>) returns (a: nat, end: Option<RunEnd>)
      requires a0 <= |attempts|
      modifies this
      ensures a0 <= a <= |attempts|
      ensures end.Some? ==> (State(), end.value) == RunFrom(old(State()), ConnectLoop, attempts[a0..], inits, waits, handled)
      ensures end.None? ==> connected && RunFrom(State(), InitLoop, attempts[a..], inits, waits, handled)
                                        == RunFrom(old(State()), ConnectLoop, attempts[a0..], inits, waits, handled)
    {
      ghost var goal := RunFrom(old(State()), ConnectLoop, attempts[a0..], inits, waits, handled);
      a := a0;
      while !connected
        invariant a0 <= a <= |attempts|
        invariant RunFrom(State(), ConnectLoop, attempts[a..], inits, waits, handled) == goal
        decreases |attempts| - a
      {
        if a == |attempts| {
          return a, Some(OutOfInput);
        }
        assert attempts[a..][1..] == attempts[a + 1..];
        var o := Connect(attempts[a].tool, attempts[a].reply);
        a := a + 1;
        if o.Fail? {
          if o.error == PexpectEof {
            return a, Some(Returned);
          }
          if !o.error.Btle? {
            return a, Some(Raised(o.error));
          }
          connected := false;
        }
      }
      return a, None;
    }

    /** `while self.initializingStatus == INITIALIZING: ...` of `run`, from
        initialize outcome `n0`. */
    method InitLoopOf(attempts: seq<Attempt>, inits: seq<Outcome>, n0: nat, waits: seq<Resp>, handled: seq<Outcome>) returns (n: nat, end: Option<RunEnd>)
      requires n0 <= |inits|
      modifies this
      ensures n0 <= n <= |inits|
      ensures end.Some? ==> (State(), end.value) == RunFrom(old(State()), InitLoop, attempts, inits[n0..], waits, handled)
      ensures end.None? ==> initializingStatus == Initialized && running == old(running)
                            && RunFrom(State(), InitLoop, attempts, inits[n..], waits, handled)
                               == RunFrom(old(State()), InitLoop, attempts, inits[n0..], waits, handled)
    {
      ghost var goal := RunFrom(old(State()), InitLoop, attempts, inits[n0..], waits, handled);
      n := n0;
      while initializingStatus == Initializing
        invariant n0 <= n <= |inits| && running == old(running)
        invariant RunFrom(State(), InitLoop, attempts, inits[n..], waits, handled) == goal
        decreases |inits| - n
      {
        if n == |inits| {
          return n, Some(OutOfInput);
        }
        assert inits[n..][1..] == inits[n + 1..];
        var o := inits[n];
        n := n + 1;
        if o.Pass? {
          initializingStatus := Initialized;
        } else if o.error == PexpectEof {
          return n, Some(Returned);
        } else if o.error == PexpectTimeout {
          connected := false;
        } else {
          return n, Some(Raised(o.error));
        }
      }
      return n, None;
    }

    /** The notification wait that ends a round of `run`, and the call of
        the subclass's handler on what it matched (the status is always
        INITIALIZED here, so the source's test of it always holds). */
    method Listen(attempts: seq<Attempt>, inits: seq<Outcome>, waits: seq<Resp>, w0: nat, handled: seq<Outcome>, h0: nat) returns (w: nat, h: nat, end: Option<RunEnd>)
      requires w0 <= |waits| && h0 <= |handled| && initializingStatus == Initialized
      modifies this
      ensures w0 <= w <= |waits| && h0 <= h <= |handled|
      ensures end.Some? ==> (State(), end.value) == RunFrom(old(State()), InitLoop, attempts, inits, waits[w0..], handled[h0..])
      ensures end.None? ==> w == w0 + 1 && RunFrom(State(), Top, attempts, inits, waits[w..], handled[h..])
                                           == RunFrom(old(State()), InitLoop, attempts, inits, waits[w0..], handled[h0..])
    {
      if w0 == |waits| {
        return w0, h0, Some(OutOfInput);
      }
      assert waits[w0..][1..] == waits[w0 + 1..];
      w, h := w0 + 1, h0;
      match waits[w0]
      case Timeout =>
        connected := false;
        initializingStatus := Initializing;
        end := None;
      case Eof =>
        end := Some(Returned);
      case Matched(t) =>
        if h0 == |handled| {
          return w0, h0, Some(OutOfInput);
        }
        assert handled[h0..][1..] == handled[h0 + 1..];
        inbox := inbox + [t];
        h := h0 + 1;
        match handled[h0]
        case Pass =>
          end := None;
        case Fail(e) =>
          if e == PexpectTimeout {
            connected := false;
            initializingStatus := Initializing;
            end := None;
          } else if e == PexpectEof {
            end := Some(Returned);
          } else {
            end := Some(Raised(e));
          }
    }
  }
}
