/**
 * Discovery of CCUs on the local network.  A probe is broadcast over UDP;
 * every reply that starts with the five-byte discovery header is decoded
 * into the device's type, serial and version, and each replying address is
 * kept once, together with the outcome of a TCP check of every requested
 * port.  The sockets, the time-out and the checks themselves are outside
 * the model: a reply arrives as its bytes and its sender's address, and the
 * check outcomes are given with it.
 */
module Discover {
  import opened Js
  import opened Utils

  type Byte = b: int | 0 <= b < 256

  /** The first five bytes of every discovery probe and reply. */
  const HEADER: seq<Byte> := [0x02, 0x8F, 0x91, 0xC0, 0x01]

  const NUL: Byte := 0

  const DEFAULT_TIMEOUT := 1200

  /** The interfaces checked on every discovered address unless told otherwise. */
  const DEFAULT_REQUESTS: seq<(string, int)> :=
    [("ReGaHSS", 1999), ("BidCos-Wired", 2000), ("BidCos-RF", 2001), ("HmIP-RF", 2010),
     ("VirtualDevices", 9292), ("CUxD", 8701), ("Jack-VEAP", 2121), ("Jack-secure-VEAP", 2122),
     ("Jack-MQTT", 1883), ("Jack-secure-MQTT", 8883)]

  /** Request pairs as `{id, port}` objects. */
  function RequestObjects(rs: seq<(string, int)>): (r: seq<Value>)
    ensures |r| == |rs|
    ensures forall i :: 0 <= i < |rs| ==> r[i] == Obj([Prop("id", Str(rs[i].0)), Prop("port", Num(rs[i].1))])
  {
    if rs == [] then [] else [Obj([Prop("id", Str(rs[0].0)), Prop("port", Num(rs[0].1))])] + RequestObjects(rs[1..])
  }

  /** The default request list as the array of `{id, port}` objects the code holds. */
  function DefaultRequests(): (r: Value)
    ensures r.Arr? && |r.elems| == 10
  {
    Arr(RequestObjects(DEFAULT_REQUESTS))
  }

  datatype Settings = Settings(timeout: Value, requests: Value)

  /**
   * The options of a discovery: anything but an object is read as `{}`; a
   * falsy time-out or request list takes the default.  Reading the options of
   * `null` (whose type is also "object") throws; arrays and regular
   * expressions have neither property.
   */
  function SettingsOf(options: Value): (r: Result<Settings>)
    ensures options.Null? <==> r.Err?
    ensures r.Ok? ==> Truthy(r.value.timeout) && Truthy(r.value.requests)
  {
    if options.Null? then Err(TypeError)
    else
      var o := if options.Obj? then options.props else [];
      Ok(Settings(Or(GetProp(o, "timeout"), Num(DEFAULT_TIMEOUT)), Or(GetProp(o, "requests"), DefaultRequests())))
  }

  /** Options that are not an object give the default time-out and request list. */
  lemma SettingsDefaults(options: Value)
    requires !IsObjectType(options)
    ensures SettingsOf(options) == Ok(Settings(Num(DEFAULT_TIMEOUT), DefaultRequests()))
  {
  }

  /** A truthy time-out or request list of an options object is used as given. */
  lemma SettingsGiven(options: seq<Prop>)
    ensures var r := SettingsOf(Obj(options));
      && (Truthy(GetProp(options, "timeout")) ==> r.value.timeout == GetProp(options, "timeout"))
      && (!Truthy(GetProp(options, "timeout")) ==> r.value.timeout == Num(DEFAULT_TIMEOUT))
      && (Truthy(GetProp(options, "requests")) ==> r.value.requests == GetProp(options, "requests"))
      && (!Truthy(GetProp(options, "requests")) ==> r.value.requests == DefaultRequests())
  {
  }

  /** `buf.indexOf(0, from)`: the first NUL at or after `from`, or -1. */
  function IndexOfNul(bytes: seq<Byte>, from: nat): (r: int)
    ensures r == -1 || (from <= r < |bytes| && bytes[r] == NUL)
    ensures r == -1 ==> forall k :: from <= k < |bytes| ==> bytes[k] != NUL
    ensures r != -1 ==> forall k :: from <= k < r ==> bytes[k] != NUL
    decreases |bytes| - from
  {
    if from >= |bytes| then -1
    else if bytes[from] == NUL then from
    else IndexOfNul(bytes, from + 1)
  }

  /**
   * `buf.toString(encoding, start, end)` before decoding: a start at or below
   * zero reads from the first byte, an end past the buffer stops at its end,
   * and an empty or inverted range gives nothing.
   */
  function Slice(bytes: seq<Byte>, start: int, end: int): (r: seq<Byte>)
    ensures 0 <= start <= end <= |bytes| ==> r == bytes[start..end]
    ensures end <= start || start >= |bytes| ==> r == []
  {
    var s := if start <= 0 then 0 else start;
    var e := if end > |bytes| then |bytes| else end;
    if s >= |bytes| || e <= s then [] else bytes[s..e]
  }

  /** The fields of a reply, as the bytes the code decodes as UTF-8. */
  datatype Fields = Fields(kind: seq<Byte>, serial: seq<Byte>, version: seq<Byte>)

  predicate HasHeader(response: seq<Byte>) {
    |response| >= 5 && response[..5] == HEADER
  }

  /**
   * A reply: after the header comes the type up to the first NUL, then the
   * serial up to the next; the version starts three bytes past that second
   * NUL and runs to the one after it.
   */
  function Decode(response: seq<Byte>): (r: Option<Fields>)
    ensures r.Some? <==> HasHeader(response)
  {
    if !HasHeader(response) then None
    else
      var indexType := IndexOfNul(response, 5);
      var indexSerial := IndexOfNul(response, indexType + 1);
      var indexVersion := IndexOfNul(response, indexSerial + 1 + 3);
      Some(Fields(Slice(response, 5, indexType),
                  Slice(response, indexType + 1, indexSerial),
                  Slice(response, indexSerial + 1 + 3, indexVersion)))
  }

  predicate NoNul(bytes: seq<Byte>) {
    forall k :: 0 <= k < |bytes| ==> bytes[k] != NUL
  }

  lemma IndexOfNulAt(bytes: seq<Byte>, from: nat, at: nat)
    requires from <= at < |bytes| && bytes[at] == NUL
    requires forall k :: from <= k < at ==> bytes[k] != NUL
    ensures IndexOfNul(bytes, from) == at
  {
  }

  /** The first NUL at or after `from` is the one at `at` when the bytes between hold none. */
  lemma IndexOfNulSlice(bytes: seq<Byte>, from: nat, at: nat)
    requires from <= at < |bytes| && bytes[at] == NUL && NoNul(bytes[from..at])
    ensures IndexOfNul(bytes, from) == at
  {
    forall k | from <= k < at ensures bytes[k] != NUL {
      assert bytes[k] == bytes[from..at][k - from];
    }
    IndexOfNulAt(bytes, from, at);
  }

  /**
   * A reply with the header whose type ends at the NUL at `t`, whose serial
   * ends at the NUL at `s`, and whose version (three bytes later) ends at
   * the NUL at `v` decodes to exactly those fields.
   */
  lemma DecodeFields(r: seq<Byte>, t: nat, s: nat, v: nat)
    requires HasHeader(r) && 5 <= t && t + 1 <= s && s + 4 <= v < |r|
    requires r[t] == NUL && r[s] == NUL && r[v] == NUL
    requires NoNul(r[5..t]) && NoNul(r[t + 1..s]) && NoNul(r[s + 4..v])
    ensures Decode(r) == Some(Fields(r[5..t], r[t + 1..s], r[s + 4..v]))
  {
    IndexOfNulSlice(r, 5, t);
    IndexOfNulSlice(r, t + 1, s);
    IndexOfNulSlice(r, s + 4, v);
  }

  /** A reply laid out as header, type, NUL, serial, NUL, three bytes, version, NUL decodes to its fields. */
  lemma DecodeLayout(kind: seq<Byte>, serial: seq<Byte>, gap: seq<Byte>, version: seq<Byte>, tail: seq<Byte>)
    requires NoNul(kind) && NoNul(serial) && NoNul(version) && |gap| == 3
    ensures Decode(HEADER + kind + [NUL] + serial + [NUL] + gap + version + [NUL] + tail)
         == Some(Fields(kind, serial, version))
  {
    var p := HEADER + kind + [NUL];
    var q := p + serial + [NUL] + gap;
    var w := q + version + [NUL];
    var r := w + tail;
    var t := |p| - 1;
    var s := t + 1 + |serial|;
    var v := |w| - 1;
    assert r[..|w|] == w && w[..|q|] == q && q[..|p|] == p;
    assert r[..5] == HEADER by { assert r[..5] == w[..|q|][..|p|][..5]; }
    assert r[5..t] == kind by { assert r[5..t] == p[5..t]; }
    assert r[t + 1..s] == serial by { assert r[t + 1..s] == q[t + 1..s]; }
    assert r[s + 4..v] == version by { assert r[s + 4..v] == w[s + 4..v]; }
    assert r[t] == p[t] && r[s] == q[s] && r[v] == w[v];
    DecodeFields(r, t, s, v);
  }

  /** A reply that ends right after the serial's NUL, as a CCU's can, has an empty version. */
  lemma DecodeWithoutVersion(kind: seq<Byte>, serial: seq<Byte>)
    requires NoNul(kind) && NoNul(serial)
    ensures Decode(HEADER + kind + [NUL] + serial + [NUL]) == Some(Fields(kind, serial, []))
  {
    var r := HEADER + kind + [NUL] + serial + [NUL];
    var t := 5 + |kind|;
    var s := t + 1 + |serial|;
    assert r[..5] == HEADER;
    assert r[5..t] == kind;
    assert r[t + 1..s] == serial;
    IndexOfNulAt(r, 5, t);
    IndexOfNulAt(r, t + 1, s);
  }

  /** The outcome of checking one requested port on a discovered address. */
  datatype Check = Check(id: string, port: Value, active: bool)

  function InterfaceOf(c: Check): Value {
    Obj([Prop("port", c.port), Prop("active", Bool(c.active))])
  }

  /** `device.interfaces` after the loop over the check outcomes: one entry per id, the last outcome winning. */
  function Interfaces(checks: seq<Check>): seq<Prop>
    decreases |checks|
  {
    if checks == [] then []
    else
      var last := checks[|checks| - 1];
      SetProp(Interfaces(checks[..|checks| - 1]), last.id, InterfaceOf(last))
  }

  lemma {:induction false} InterfacesSpec(checks: seq<Check>, i: nat)
    requires i < |checks|
    requires forall j :: i < j < |checks| ==> checks[j].id != checks[i].id
    ensures Lookup(Interfaces(checks), checks[i].id) == Some(InterfaceOf(checks[i]))
    decreases |checks|
  {
    var front := checks[..|checks| - 1];
    var last := checks[|checks| - 1];
    SetPropGet(Interfaces(front), last.id, InterfaceOf(last), checks[i].id);
    if i < |checks| - 1 {
      InterfacesSpec(front, i);
    }
  }

  lemma {:induction false} InterfacesKeys(checks: seq<Check>, id: string)
    ensures HasKey(Interfaces(checks), id) <==> exists i :: 0 <= i < |checks| && checks[i].id == id
    decreases |checks|
  {
    if checks != [] {
      var front := checks[..|checks| - 1];
      var last := checks[|checks| - 1];
      SetPropGet(Interfaces(front), last.id, InterfaceOf(last), id);
      InterfacesKeys(front, id);
      if exists i :: 0 <= i < |front| && front[i].id == id {
        var i :| 0 <= i < |front| && front[i].id == id;
        assert checks[i].id == id;
      }
      if exists i :: 0 <= i < |checks| && checks[i].id == id {
        var i :| 0 <= i < |checks| && checks[i].id == id;
        if i < |front| {
          assert front[i].id == id;
        }
      }
    }
  }

  /** The loop that fills `device.interfaces`. */
  method BuildInterfaces(checks: seq<Check>) returns (interfaces: seq<Prop>)
    ensures interfaces == Interfaces(checks)
    ensures forall id :: HasKey(interfaces, id) <==> exists i :: 0 <= i < |checks| && checks[i].id == id
  {
    interfaces := [];
    for i := 0 to |checks|
      invariant interfaces == Interfaces(checks[..i])
    {
      assert checks[..i + 1][..i] == checks[..i];
      interfaces := SetProp(interfaces, checks[i].id, InterfaceOf(checks[i]));
    }
    assert checks[..|checks|] == checks;
    forall id ensures HasKey(interfaces, id) <==> exists i :: 0 <= i < |checks| && checks[i].id == id {
      InterfacesKeys(checks, id);
    }
  }

  datatype Device = Device(fields: Fields, address: string, interfaces: seq<Prop>)

  /** The devices a discovery has found so far, and the addresses they replied from. */
  class Discovery {
    var found: seq<Device>
    var foundAddresses: seq<string>

    /** One device per address, in the order the addresses first replied. */
    ghost predicate Valid()
      reads this
    {
      && Distinct(foundAddresses)
      && |found| == |foundAddresses|
      && forall i :: 0 <= i < |found| ==> found[i].address == foundAddresses[i]
    }

    constructor()
      ensures Valid() && found == [] && foundAddresses == []
    {
      found := [];
      foundAddresses := [];
    }

    /**
     * A reply from `address`: a reply without the header, or from an address
     * already seen, is ignored; otherwise the device is recorded with the
     * outcome of every check.
     */
    method OnReply(response: seq<Byte>, address: string, checks: seq<Check>)
      requires Valid()
      modifies this
      ensures Valid()
      ensures !HasHeader(response) || address in old(foundAddresses) ==>
        found == old(found) && foundAddresses == old(foundAddresses)
      ensures HasHeader(response) && address !in old(foundAddresses) ==>
        && foundAddresses == old(foundAddresses) + [address]
        && found == old(found) + [Device(Decode(response).value, address, Interfaces(checks))]
    {
      if |response| < 5 || response[..5] != HEADER {
        return;
      }
      var fields := Decode(response).value;
      if address !in foundAddresses {
        foundAddresses := foundAddresses + [address];
        var interfaces := BuildInterfaces(checks);
        found := found + [Device(fields, address, interfaces)];
      }
    }
  }

  /** Each address is found at most once. */
  lemma FoundOnce(d: Discovery)
    requires d.Valid()
    ensures forall i, j :: 0 <= i < j < |d.found| ==> d.found[i].address != d.found[j].address
  {
  }
}
