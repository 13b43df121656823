/** `_serviceToHandle`, which the BPart and SensorTag classes share word for
    word: the service a notification handle belongs to, found by the
    handle ranges of the discovered services. */
module ServiceLookup {
  import opened Outcomes
  import opened Hex
  import Uuid
  import Gatt

  /** A service's printed handle range, read as numbers, holds `h` (both
      ends inclusive). */
  predicate Covers(svc: Gatt.Service, h: nat) {
    && ParseHexInt(svc.hndStart).Ok? && ParseHexInt(svc.hndEnd).Ok?
    && ParseHexInt(svc.hndStart).value <= h <= ParseHexInt(svc.hndEnd).value
  }

  predicate RangeReadable(svc: Gatt.Service) {
    ParseHexInt(svc.hndStart).Ok? && ParseHexInt(svc.hndEnd).Ok?
  }

  /** `str(service.uuid)` needs a 16-byte UUID. */
  predicate AllValid(vs: seq<Gatt.Service>) {
    forall i | 0 <= i < |vs| :: Uuid.Valid(vs[i].uuid)
  }

  /** `_serviceToHandle(hnd)` over the services in dictionary order: the
      printed UUID of the first service whose range holds the handle, or
      nothing. `int(hnd, 16)` is only evaluated once there is a service to
      compare with, and a range end is only read when the start is not
      already above the handle. */
  function ServiceOf(vs: seq<Gatt.Service>, hnd: string): (r: Result<Option<string>>)
    requires AllValid(vs)
    ensures r.Err? ==> r.error == ValueError
    ensures vs == [] ==> r == Ok(None)
    ensures vs != [] && ParseHexInt(hnd).Err? ==> r == Err(ValueError)
    decreases |vs|
  {
    if vs == [] then Ok(None)
    else
      var h :- ParseHexInt(hnd);
      var lo :- ParseHexInt(vs[0].hndStart);
      if h < lo then ServiceOf(vs[1..], hnd)
      else
        var hi :- ParseHexInt(vs[0].hndEnd);
        if h <= hi then Ok(Some(Uuid.ToString(vs[0].uuid))) else ServiceOf(vs[1..], hnd)
  }

  /** The first service whose range holds the handle is the answer. */
  lemma {:induction false} ServiceOfFirst(vs: seq<Gatt.Service>, hnd: string, i: nat)
    requires AllValid(vs) && ParseHexInt(hnd).Ok?
    requires i < |vs| && Covers(vs[i], ParseHexInt(hnd).value)
    requires forall j | 0 <= j < i :: RangeReadable(vs[j]) && !Covers(vs[j], ParseHexInt(hnd).value)
    ensures ServiceOf(vs, hnd) == Ok(Some(Uuid.ToString(vs[i].uuid)))
    decreases i
  {
    if i > 0 {
      ServiceOfFirst(vs[1..], hnd, i - 1);
    }
  }

  /** No range holds the handle: the answer is None. */
  lemma {:induction false} ServiceOfNone(vs: seq<Gatt.Service>, hnd: string)
    requires AllValid(vs) && ParseHexInt(hnd).Ok?
    requires forall j | 0 <= j < |vs| :: RangeReadable(vs[j]) && !Covers(vs[j], ParseHexInt(hnd).value)
    ensures ServiceOf(vs, hnd) == Ok(None)
    decreases |vs|
  {
    if vs != [] {
      ServiceOfNone(vs[1..], hnd);
    }
  }

  /** A found UUID always comes from a service whose range holds the
      handle, and none before it holds it. */
  lemma {:induction false} ServiceOfFound(vs: seq<Gatt.Service>, hnd: string)
    requires AllValid(vs) && ServiceOf(vs, hnd).Ok? && ServiceOf(vs, hnd).value.Some?
    ensures ParseHexInt(hnd).Ok?
    ensures exists i | 0 <= i < |vs| :: Covers(vs[i], ParseHexInt(hnd).value)
                                        && ServiceOf(vs, hnd).value.value == Uuid.ToString(vs[i].uuid)
                                        && forall j | 0 <= j < i :: !Covers(vs[j], ParseHexInt(hnd).value)
    decreases |vs|
  {
    var h := ParseHexInt(hnd).value;
    if Covers(vs[0], h) {
      assert Covers(vs[0], h) && ServiceOf(vs, hnd).value.value == Uuid.ToString(vs[0].uuid);
    } else {
      assert ServiceOf(vs, hnd) == ServiceOf(vs[1..], hnd);
      ServiceOfFound(vs[1..], hnd);
      var i :| 0 <= i < |vs[1..]| && Covers(vs[1..][i], h)
               && ServiceOf(vs[1..], hnd).value.value == Uuid.ToString(vs[1..][i].uuid)
               && forall j | 0 <= j < i :: !Covers(vs[1..][j], h);
      assert forall j | 0 <= j < i + 1 :: !Covers(vs[j], h) by {
        forall j | 0 < j < i + 1 ensures !Covers(vs[j], h) {
          assert vs[j] == vs[1..][j - 1];
        }
      }
      assert Covers(vs[i + 1], h);
    }
  }

  /** The loop of `_serviceToHandle` over `services.values()`, returning
      from inside the loop as soon as a range holds the handle. */
  method ServiceToHandle(vs: seq<Gatt.Service>, hnd: string) returns (r: Result<Option<string>>)
    requires AllValid(vs)
    ensures r == ServiceOf(vs, hnd)
  {
    assert vs[0..] == vs;
    var i := 0;
    while i < |vs|
      invariant 0 <= i <= |vs|
      invariant ServiceOf(vs[i..], hnd) == ServiceOf(vs, hnd)
    {
      assert vs[i..][1..] == vs[i + 1..];
      var h := ParseHexInt(hnd);
      if h.Err? {
        return Err(h.error);
      }
      var lo := ParseHexInt(vs[i].hndStart);
      if lo.Err? {
        return Err(lo.error);
      }
      if h.value >= lo.value {
        var hi := ParseHexInt(vs[i].hndEnd);
        if hi.Err? {
          return Err(hi.error);
        }
        if h.value <= hi.value {
          return Ok(Some(Uuid.ToString(vs[i].uuid)));
        }
      }
      i := i + 1;
    }
    return Ok(None);
  }
}
