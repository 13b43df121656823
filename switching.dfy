/** The sensor switches of the device classes: each one is
    `getServiceByUUID(service).getCharacteristics(sensor)[0].write(val)`,
    and `initialize` runs several of them in a row, the first exception
    ending the sequence. */
module Switching {
  import opened Outcomes
  import Uuid
  import Gatt
  import Btle

  /** One sensor switch: the service, its switch characteristic and the
      value written to it. */
  datatype Switch = Switch(service: Uuid.Value, sensor: Uuid.Value, val: string)

  function SwitchSpec(s: Btle.PState, sw: Switch, tool: Btle.ToolOutput, reply: Resp): (Btle.PState, Outcome) {
    Btle.SensorWriteSpec(s, sw.service, sw.sensor, sw.val, tool, reply)
  }

  /** One write of a switch sequence, from the state before it, to the
      switch at the given position. */
  type SwitchWrite = (Btle.PState, Switch, nat) -> (Btle.PState, Outcome)

  /** The switch at position `k` answered by `replies(k)`. */
  function Writing(tool: Btle.ToolOutput, replies: nat -> Resp): SwitchWrite {
    (s: Btle.PState, sw: Switch, k: nat) => SwitchSpec(s, sw, tool, replies(k))
  }

  /** Switching `sws[k..]` in turn; the first exception stops the sequence. */
  function SwitchFrom(s: Btle.PState, sws: seq<Switch>, k: nat, write: SwitchWrite): (r: (Btle.PState, Outcome))
    decreases |sws| - k
  {
    if k >= |sws| then (s, Pass)
    else
      var (s1, o1) := write(s, sws[k], k);
      if o1.Fail? then (s1, o1) else SwitchFrom(s1, sws, k + 1, write)
  }

  /** One step of `SwitchFrom`, whichever way the write went. */
  lemma SwitchFromStep(s: Btle.PState, sws: seq<Switch>, k: nat, write: SwitchWrite)
    requires k < |sws|
    ensures var (s1, o1) := write(s, sws[k], k);
      SwitchFrom(s, sws, k, write) == if o1.Fail? then (s1, o1) else SwitchFrom(s1, sws, k + 1, write)
  {
  }

  /** The switch's characteristic is cached in `d`. */
  predicate Cached(d: Gatt.Services, sw: Switch) {
    Btle.CachedHandle(d, sw.service, sw.sensor).Some?
  }

  predicate AllCached(d: Gatt.Services, sws: seq<Switch>) {
    forall k | 0 <= k < |sws| :: Cached(d, sws[k])
  }

  /** The write request of a cached switch. */
  function Request(d: Gatt.Services, sw: Switch): string
    requires Cached(d, sw)
  {
    Btle.WriteReq(Btle.CachedHandle(d, sw.service, sw.sensor).value, sw.val)
  }

  /** The write requests of `sws`, in order. */
  function Requests(d: Gatt.Services, sws: seq<Switch>): (reqs: seq<string>)
    requires AllCached(d, sws)
    ensures |reqs| == |sws|
  {
    seq(|sws|, k requires 0 <= k < |sws| => Request(d, sws[k]))
  }

  /** One cached switch: it passes and sends its one request; a timeout
      only marks the link down. */
  lemma SwitchStep(s: Btle.PState, sw: Switch, tool: Btle.ToolOutput, reply: Resp) returns (s1: Btle.PState)
    requires s.helper && Cached(s.services, sw)
    ensures SwitchSpec(s, sw, tool, reply) == (s1, Pass)
    ensures s1 == s.(sent := s.sent + [Request(s.services, sw)], connected := s.connected && !reply.Timeout?)
  {
    Btle.SensorWriteCached(s, sw.service, sw.sensor, sw.val, tool, reply);
    s1 := s.(sent := s.sent + [Request(s.services, sw)], connected := s.connected && !reply.Timeout?);
  }

  /** From any state with the helper running and services `d`, `write`
      passes on every switch of `sws`, keeps the helper, the services and
      the notification handles, and sends exactly the request `reqs[j]`
      for switch `j`. */
  ghost predicate Sends(write: SwitchWrite, sws: seq<Switch>, d: Gatt.Services, reqs: seq<string>) {
    |reqs| == |sws| &&
    forall st: Btle.PState, j: nat {:trigger write(st, sws[j], j)} | j < |sws| && st.helper && st.services == d ::
      && write(st, sws[j], j).1.Pass?
      && write(st, sws[j], j).0.helper
      && write(st, sws[j], j).0.services == d
      && write(st, sws[j], j).0.handles == st.handles
      && write(st, sws[j], j).0.sent == st.sent + [reqs[j]]
  }

  /** Cached switches send their requests. */
  lemma WritingSends(sws: seq<Switch>, d: Gatt.Services, tool: Btle.ToolOutput, replies: nat -> Resp)
    requires AllCached(d, sws)
    ensures Sends(Writing(tool, replies), sws, d, Requests(d, sws))
  {
    var write, reqs := Writing(tool, replies), Requests(d, sws);
    assert forall j | 0 <= j < |sws| :: reqs[j] == Request(d, sws[j]);
    forall st: Btle.PState, j: nat | j < |sws| && st.helper && st.services == d
      ensures && write(st, sws[j], j).1.Pass?
              && write(st, sws[j], j).0.helper
              && write(st, sws[j], j).0.services == d
              && write(st, sws[j], j).0.handles == st.handles
              && write(st, sws[j], j).0.sent == st.sent + [reqs[j]]
    {
      var _ := SwitchStep(st, sws[j], tool, replies(j));
    }
  }

  /** A sequence whose writes all pass sends their requests in order, and
      passes. */
  lemma {:induction false} SwitchAllSent(s: Btle.PState, sws: seq<Switch>, k: nat, write: SwitchWrite, d: Gatt.Services, reqs: seq<string>)
    requires s.helper && s.services == d && k <= |sws| && Sends(write, sws, d, reqs)
    ensures SwitchFrom(s, sws, k, write).1.Pass?
    ensures var r := SwitchFrom(s, sws, k, write).0;
      r.helper && r.services == d && r.handles == s.handles && r.sent == s.sent + reqs[k..]
    decreases |sws| - k
  {
    if k < |sws| {
      var s1 := write(s, sws[k], k).0;
      SwitchAllSent(s1, sws, k + 1, write, d, reqs);
      assert reqs[k..] == [reqs[k]] + reqs[k + 1..];
    }
  }

  /** With the helper running and every switch cached, a switch sequence
      passes whatever the replies, and sends one write request per switch,
      in the order of the sequence. */
  lemma AllSwitched(s: Btle.PState, sws: seq<Switch>, tool: Btle.ToolOutput, replies: nat -> Resp)
    requires s.helper && AllCached(s.services, sws)
    ensures var (r, o) := SwitchFrom(s, sws, 0, Writing(tool, replies));
      && o.Pass? && r.helper && r.services == s.services && r.handles == s.handles
      && r.sent == s.sent + Requests(s.services, sws)
  {
    WritingSends(sws, s.services, tool, replies);
    SwitchAllSent(s, sws, 0, Writing(tool, replies), s.services, Requests(s.services, sws));
    assert Requests(s.services, sws)[0..] == Requests(s.services, sws);
  }
}
