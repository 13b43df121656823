/** The records btle.py builds from gatttool's text: services keyed by the
    UUID text gatttool printed, characteristics, and the lines they come
    from. A Python dict becomes an association list in insertion order. */
module Gatt {
  import opened Outcomes
  import Text
  import Uuid

  datatype Characteristic = Characteristic(uuid: Uuid.Uuid, handle: string, properties: string, valHandle: string)

  /** A primary service: its UUID, its handle range as printed, and the
      characteristic cache (`None` until first fetched). */
  datatype Service = Service(uuid: Uuid.Uuid, hndStart: string, hndEnd: string, chars: Option<seq<Characteristic>>)

  // ---------------------------------------------------------------------
  // Lines and tokens

  /** `text.replace(',', '').splitlines()`. */
  function Lines(text: string): (lines: seq<string>)
    ensures forall i | 0 <= i < |lines| :: ',' !in lines[i]
  {
    var lines := Text.SplitLines(Text.Remove(text, ','));
    LinesWithout(Text.Remove(text, ','), ',');
    lines
  }

  lemma LinesWithout(s: string, c: char)
    requires c !in s
    ensures forall i | 0 <= i < |Text.SplitLines(s)| :: c !in Text.SplitLines(s)[i]
  {
    LinesFromWithout(s, "", c);
  }

  lemma {:induction false} LinesFromWithout(s: string, line: string, c: char)
    requires c !in s && c !in line && Text.NoLineBreak(line)
    ensures forall i | 0 <= i < |Text.LinesFrom(s, line)| :: c !in Text.LinesFrom(s, line)[i]
    decreases |s|
  {
    if s == [] {
    } else if s[0] == '\n' {
      LinesFromWithout(s[1..], "", c);
    } else if s[0] == '\r' {
      if |s| > 1 && s[1] == '\n' {
        LinesFromWithout(s[2..], "", c);
      } else {
        LinesFromWithout(s[1..], "", c);
      }
    } else {
      LinesFromWithout(s[1..], line + [s[0]], c);
    }
  }

  /** One line of `gatttool --primary`: fewer than nine tokens is a BTLE
      internal error; otherwise the service is keyed by the last token, with
      tokens 3 and 8 as its handle range and no characteristics yet. */
  function ParseServiceLine(line: string): (r: Result<(string, Service)>)
    ensures r.Err? ==> !r.error.Transport()
    ensures var t := Text.Fields(line);
      && (|t| < 9 ==> r == Err(Btle(InternalError)))
      && (|t| >= 9 ==> (r.Ok? <==> Uuid.Parse(Uuid.Str(t[|t| - 1])).Ok?))
      && (r.Ok? ==> |t| >= 9 && r.value.0 == t[|t| - 1] && r.value.1.chars == None
                    && Uuid.Parse(Uuid.Str(r.value.0)) == Ok(r.value.1.uuid)
                    && r.value.1.hndStart == t[3] && r.value.1.hndEnd == t[8])
  {
    var t := Text.Fields(line);
    if |t| < 9 then Err(Btle(InternalError))
    else
      var u :- Uuid.Parse(Uuid.Str(t[|t| - 1]));
      Ok((t[|t| - 1], Service(u, t[3], t[8], None)))
  }

  /** What gatttool prints for a primary service (after the comma is gone)
      parses to the key, range and UUID it names. */
  lemma ServiceLineFormat(start: string, end: string, uuid: string)
    requires |start| > 0 && Text.NoSpace(start)
    requires |end| > 0 && Text.NoSpace(end)
    requires |uuid| > 0 && Text.NoSpace(uuid)
    requires Uuid.Parse(Uuid.Str(uuid)).Ok?
    ensures ParseServiceLine(Text.Join(["attr", "handle", "=", start, "end", "grp", "handle", "=", end, "uuid:", uuid], ' '))
         == Ok((uuid, Service(Uuid.Parse(Uuid.Str(uuid)).value, start, end, None)))
  {
    Text.FieldsOfJoin(["attr", "handle", "=", start, "end", "grp", "handle", "=", end, "uuid:", uuid]);
  }

  /** One line of `gatttool --characteristics`: all four tokens are read
      (last, 2, 6 and 11, so fewer than twelve is an IndexError) before the
      UUID is parsed. */
  function ParseCharLine(line: string): (r: Result<Characteristic>)
    ensures r.Err? ==> !r.error.Transport()
    ensures var t := Text.Fields(line);
      && (|t| < 12 ==> r == Err(IndexError))
      && (|t| >= 12 ==> (r.Ok? <==> Uuid.Parse(Uuid.Str(t[|t| - 1])).Ok?))
      && (r.Ok? ==> |t| >= 12 && Uuid.Parse(Uuid.Str(t[|t| - 1])) == Ok(r.value.uuid)
                    && r.value.handle == t[2] && r.value.properties == t[6] && r.value.valHandle == t[11])
  {
    var t := Text.Fields(line);
    if |t| < 12 then Err(IndexError)
    else
      var u :- Uuid.Parse(Uuid.Str(t[|t| - 1]));
      Ok(Characteristic(u, t[2], t[6], t[11]))
  }

  /** What gatttool prints for a characteristic (after the commas are gone)
      parses to its declaration handle, properties, value handle and UUID. */
  lemma CharLineFormat(handle: string, props: string, value: string, uuid: string)
    requires |handle| > 0 && Text.NoSpace(handle)
    requires |props| > 0 && Text.NoSpace(props)
    requires |value| > 0 && Text.NoSpace(value)
    requires |uuid| > 0 && Text.NoSpace(uuid)
    requires Uuid.Parse(Uuid.Str(uuid)).Ok?
    ensures ParseCharLine(Text.Join(["handle", "=", handle, "char", "properties", "=", props,
                                     "char", "value", "handle", "=", value, "uuid", "=", uuid], ' '))
         == Ok(Characteristic(Uuid.Parse(Uuid.Str(uuid)).value, handle, props, value))
  {
    Text.FieldsOfJoin(["handle", "=", handle, "char", "properties", "=", props,
                       "char", "value", "handle", "=", value, "uuid", "=", uuid]);
  }

  /** The marker gatttool prints when characteristic discovery fails. */
  const DiscoveryFailed: string := "Discover all characteristics failed:"

  /** The characteristics listed in `text`, all or nothing; the first line
      that does not parse decides the error. */
  function ParseCharsFrom(lines: seq<string>): (r: Result<seq<Characteristic>>)
    ensures r.Err? ==> !r.error.Transport()
    ensures r.Ok? <==> forall i | 0 <= i < |lines| :: ParseCharLine(lines[i]).Ok?
    ensures r.Ok? ==> |r.value| == |lines| && forall i | 0 <= i < |lines| :: r.value[i] == ParseCharLine(lines[i]).value
    ensures r.Err? ==> exists i | 0 <= i < |lines| :: ParseCharLine(lines[i]) == Err(r.error)
                                                 && forall j | 0 <= j < i :: ParseCharLine(lines[j]).Ok?
  {
    if lines == [] then Ok([])
    else
      var c := ParseCharLine(lines[0]);
      if c.Err? then Err(c.error)
      else
        var rest := ParseCharsFrom(lines[1..]);
        if rest.Err? then
          assert forall i | 1 <= i < |lines| :: lines[i] == lines[1..][i - 1];
          Err(rest.error)
        else
          Ok([c.value] + rest.value)
  }

  /** `Peripheral.getCharacteristics`: the failure marker anywhere in the
      text means the device is gone (BTLE DISCONNECTED); otherwise every
      comma-stripped line is one characteristic. */
  function ParseCharacteristics(text: string): (r: Result<seq<Characteristic>>)
    ensures r.Err? ==> !r.error.Transport()
    ensures Text.Contains(text, DiscoveryFailed) ==> r == Err(Btle(Disconnected))
    ensures !Text.Contains(text, DiscoveryFailed) ==> r == ParseCharsFrom(Lines(text))
  {
    if Text.Contains(text, DiscoveryFailed) then Err(Btle(Disconnected)) else ParseCharsFrom(Lines(text))
  }

  // ---------------------------------------------------------------------
  // Characteristics of one service

  /** The cached characteristics whose UUID equals `u`, in cached order.
      The source compares printed forms; for parsed UUIDs that is plain
      equality (`Uuid.SameIsEquality`). */
  function Matching(chars: seq<Characteristic>, u: Uuid.Uuid): (r: seq<Characteristic>)
    ensures |r| <= |chars|
    ensures forall i | 0 <= i < |r| :: r[i] in chars && r[i].uuid == u
    ensures forall i | 0 <= i < |chars| :: chars[i].uuid == u ==> chars[i] in r
  {
    if chars == [] then []
    else if chars[0].uuid == u then [chars[0]] + Matching(chars[1..], u)
    else Matching(chars[1..], u)
  }

  /** Filtering keeps the cached order. */
  lemma {:induction false} MatchingAppend(a: seq<Characteristic>, b: seq<Characteristic>, u: Uuid.Uuid)
    ensures Matching(a + b, u) == Matching(a, u) + Matching(b, u)
    decreases |a|
  {
    if a == [] {
      assert a + b == b;
    } else {
      assert (a + b)[1..] == a[1..] + b;
      MatchingAppend(a[1..], b, u);
    }
  }

  /** No characteristic of the UUID: the filter is empty. */
  lemma {:induction false} MatchingNone(chars: seq<Characteristic>, u: Uuid.Uuid)
    requires forall c | c in chars :: c.uuid != u
    ensures Matching(chars, u) == []
    decreases |chars|
  {
    if chars != [] {
      assert chars[0] in chars;
      MatchingNone(chars[1..], u);
    }
  }

  /** A cache is refetched when it is unset or empty (`not self.chars`). */
  predicate NeedsFetch(svc: Service) {
    svc.chars == None || svc.chars == Some([])
  }

  /** `Service.getCharacteristics(forUUID)`, given the text a fetch would
      return: the cache after the call and the answer. The cache is stored
      before `forUUID` is parsed, so a bad `forUUID` still leaves it filled. */
  function ServiceChars(svc: Service, text: string, forUuid: Option<Uuid.Value>): (r: (Service, Result<seq<Characteristic>>))
    ensures r.0.uuid == svc.uuid && r.0.hndStart == svc.hndStart && r.0.hndEnd == svc.hndEnd
    ensures r.1.Err? ==> !r.1.error.Transport()
    ensures !NeedsFetch(svc) ==> r.0 == svc
    ensures NeedsFetch(svc) && ParseCharacteristics(text).Err? ==> r == (svc, Err(ParseCharacteristics(text).error))
    ensures NeedsFetch(svc) && ParseCharacteristics(text).Ok? ==> r.0.chars == Some(ParseCharacteristics(text).value)
    ensures FetchSucceeds(svc, text) ==> r.0.chars.Some?
    ensures FetchSucceeds(svc, text) && forUuid.None? ==> r.1 == Ok(r.0.chars.value)
    ensures FetchSucceeds(svc, text) && forUuid.Some? ==>
              match Uuid.Parse(forUuid.value)
              case Err(e) => r.1 == Err(e)
              case Ok(u) => r.1 == Ok(Matching(r.0.chars.value, u))
  {
    var cached :=
      if NeedsFetch(svc) then
        match ParseCharacteristics(text)
        case Err(e) => (svc, Err(e))
        case Ok(cs) => (svc.(chars := Some(cs)), Ok(cs))
      else (svc, Ok(svc.chars.value));
    if cached.1.Err? || forUuid.None? then cached
    else
      match Uuid.Parse(forUuid.value)
      case Err(e) => (cached.0, Err(e))
      case Ok(u) => (cached.0, Ok(Matching(cached.1.value, u)))
  }

  /** The cache is usable: already filled, or the fetch parses. */
  predicate FetchSucceeds(svc: Service, text: string) {
    !NeedsFetch(svc) || ParseCharacteristics(text).Ok?
  }

  // ---------------------------------------------------------------------
  // `Peripheral.services`, keyed by the UUID text of the discovery line

  type Services = seq<(string, Service)>

  function Keys(d: Services): set<string> {
    set i | 0 <= i < |d| :: d[i].0
  }

  /** Every stored service carries a well-formed UUID, as discovery only
      stores parsed ones. */
  predicate UuidsValid(d: Services) {
    forall i | 0 <= i < |d| :: Uuid.Valid(d[i].1.uuid)
  }

  predicate KeysUnique(d: Services) {
    forall i, j | 0 <= i < j < |d| :: d[i].0 != d[j].0
  }

  /** The position of key `k`, searching from `i`. */
  function FindFrom(d: Services, k: string, i: nat): (r: Option<nat>)
    requires i <= |d|
    ensures r.Some? ==> i <= r.value < |d| && d[r.value].0 == k
                        && forall j | i <= j < r.value :: d[j].0 != k
    ensures r.None? <==> forall j | i <= j < |d| :: d[j].0 != k
    decreases |d| - i
  {
    if i == |d| then None
    else if d[i].0 == k then Some(i)
    else FindFrom(d, k, i + 1)
  }

  function Find(d: Services, k: string): (r: Option<nat>)
    ensures r.Some? ==> r.value < |d| && d[r.value].0 == k
    ensures r.None? <==> k !in Keys(d)
  {
    var r := FindFrom(d, k, 0);
    assert r.None? <==> k !in Keys(d) by {
      if r.Some? { assert d[r.value].0 in Keys(d); }
    }
    r
  }

  /** `d[k]`, or nothing when `k` is not a key. */
  function Get(d: Services, k: string): (r: Option<Service>)
    ensures r.Some? <==> k in Keys(d)
  {
    match Find(d, k)
    case Some(i) => Some(d[i].1)
    case None => None
  }

  /** `d[k] = v`: replaces the entry of `k` in place, or appends one. */
  function Put(d: Services, k: string, v: Service): (d2: Services)
    ensures |d2| == if k in Keys(d) then |d| else |d| + 1
    ensures Keys(d2) == Keys(d) + {k}
    ensures KeysUnique(d) ==> KeysUnique(d2)
    ensures UuidsValid(d) && Uuid.Valid(v.uuid) ==> UuidsValid(d2)
    ensures forall i | 0 <= i < |d| && d[i].0 != k :: d2[i] == d[i]
  {
    match Find(d, k)
    case Some(i) =>
      var d2 := d[i := (k, v)];
      assert Keys(d2) == Keys(d) by {
        forall x | x in Keys(d) ensures x in Keys(d2) {
          var j :| 0 <= j < |d| && d[j].0 == x;
          assert d2[j].0 == x;
        }
      }
      d2
    case None =>
      var d2 := d + [(k, v)];
      assert Keys(d2) == Keys(d) + {k} by {
        assert d2[|d|].0 == k;
        forall x | x in Keys(d) ensures x in Keys(d2) {
          var j :| 0 <= j < |d| && d[j].0 == x;
          assert d2[j].0 == x;
        }
      }
      d2
  }

  /** Dictionary semantics: after `d[k] = v`, `k` maps to `v` and every
      other key to what it mapped to before. */
  lemma PutGet(d: Services, k: string, v: Service, k2: string)
    requires KeysUnique(d)
    ensures Get(Put(d, k, v), k2) == if k2 == k then Some(v) else Get(d, k2)
  {
    var d2 := Put(d, k, v);
    if k2 != k && k2 in Keys(d) {
      var i := Find(d, k2).value;
      var i2 := Find(d2, k2).value;
      assert d2[i] == d[i];
      assert i2 == i;
    }
  }
}
