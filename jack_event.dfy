/**
 * The event node: it builds a filter from its configuration and asks its
 * configuration node for the events that pass it.  The node calls
 * `register` and `subscribe` with two arguments, so its callback lands in
 * the event-type parameter: `register` files the node under an id made
 * of the callback's source text, and `subscribe` sees no callback and
 * refuses.  The model keeps that behaviour: the node never holds the
 * status or the event subscription id, so it receives nothing.
 */
module JackEvent {
  import opened Js
  import opened Utils
  import opened Constants
  import opened ConfigEvents
  import ConfigReply
  import JackConfig

  /** The configuration attributes that can add a filter property, in the order they are read. */
  const ATTRIBUTES: seq<string> := [
    "room", "function", "rooms", "functions", "device", "deviceName", "deviceType",
    "channel", "channelName", "channelType", "channelIndex", "datapoint",
    "program", "programName", "sysvar", "sysvarName"
  ]

  /** The filter property an attribute is stored under: `room` and `function` take a plural. */
  function Renamed(a: string): string {
    if a == "room" then "rooms" else if a == "function" then "functions" else a
  }

  /** `s.replaceAll(',', '|')` */
  function Commas(s: string): (r: string)
    ensures |r| == |s|
    ensures forall i :: 0 <= i < |s| ==> r[i] == if s[i] == ',' then '|' else s[i]
  {
    if s == [] then [] else [if s[0] == ',' then '|' else s[0]] + Commas(s[1..])
  }

  /** A `strs` attribute whose value is not a string has no `replaceAll`. */
  predicate Throws(config: seq<Prop>, a: string) {
    GetProp(config, a + "T") == Str("strs") && !GetProp(config, a).Str?
  }

  /**
   * The filter value of attribute `a`: a comma list (type `strs`) becomes the
   * pattern of its alternatives, type `re` the pattern of the raw text, and
   * anything else stays the configured value.
   */
  function AttributeFilter(config: seq<Prop>, a: string): (r: Result<Value>)
    ensures r.Err? <==> Throws(config, a)
    ensures GetProp(config, a + "T") == Str("strs") && GetProp(config, a).Str? ==>
      r == Ok(Pattern(Commas(GetProp(config, a).s)))
    ensures GetProp(config, a + "T") == Str("re") ==> r == Ok(Pattern(ToStr(GetProp(config, a))))
    ensures GetProp(config, a + "T") != Str("strs") && GetProp(config, a + "T") != Str("re") ==>
      r == Ok(GetProp(config, a))
  {
    var kind := GetProp(config, a + "T");
    var v := GetProp(config, a);
    if kind == Str("strs") then (if v.Str? then Ok(Pattern(Commas(v.s))) else Err(TypeError))
    else if kind == Str("re") then Ok(Pattern(ToStr(v)))
    else Ok(v)
  }

  /** The three properties every event filter starts with. */
  function Fixed(config: seq<Prop>): seq<Prop> {
    [Prop("domain", GetProp(config, "domain")), Prop("change", GetProp(config, "change")),
     Prop("cache", GetProp(config, "cache"))]
  }

  predicate IsFixed(k: string) {
    k == "domain" || k == "change" || k == "cache"
  }

  /** The filter after the loop has read `attrs`: falsy attributes are skipped. */
  function Build(config: seq<Prop>, attrs: seq<string>): Result<seq<Prop>>
    decreases |attrs|
  {
    if attrs == [] then Ok(Fixed(config))
    else
      match Build(config, attrs[..|attrs| - 1])
      case Err(e) => Err(e)
      case Ok(filter) =>
        var a := attrs[|attrs| - 1];
        if !Truthy(GetProp(config, a)) then Ok(filter)
        else
          match AttributeFilter(config, a)
          case Err(e) => Err(e)
          case Ok(v) => Ok(SetProp(filter, Renamed(a), v))
  }

  /** `this.filter` of an event node built from `config`. */
  function EventFilter(config: seq<Prop>): Result<seq<Prop>> {
    Build(config, ATTRIBUTES)
  }

  /** The construction of `this.filter`, a loop over the attributes. */
  method BuildFilter(config: seq<Prop>) returns (r: Result<seq<Prop>>)
    ensures r == EventFilter(config)
  {
    var filter := Fixed(config);
    for i := 0 to |ATTRIBUTES|
      invariant Build(config, ATTRIBUTES[..i]) == Ok(filter)
    {
      var a := ATTRIBUTES[i];
      assert ATTRIBUTES[..i + 1][..i] == ATTRIBUTES[..i];
      if Truthy(GetProp(config, a)) {
        var v := AttributeFilter(config, a);
        if v.Err? {
          BuildStopped(config, ATTRIBUTES, i + 1);
          return Err(v.error);
        }
        filter := SetProp(filter, Renamed(a), v.value);
      }
    }
    assert ATTRIBUTES[..|ATTRIBUTES|] == ATTRIBUTES;
    return Ok(filter);
  }

  /** Once an attribute throws, reading more attributes still throws. */
  lemma {:induction false} BuildStopped(config: seq<Prop>, attrs: seq<string>, n: nat)
    requires n <= |attrs| && Build(config, attrs[..n]).Err?
    ensures Build(config, attrs) == Build(config, attrs[..n])
    decreases |attrs|
  {
    if n < |attrs| {
      var front := attrs[..|attrs| - 1];
      assert front[..n] == attrs[..n];
      BuildStopped(config, front, n);
    } else {
      assert attrs[..n] == attrs;
    }
  }

  /** Attribute `a` is set and throws. */
  predicate Fails(config: seq<Prop>, a: string) {
    Truthy(GetProp(config, a)) && Throws(config, a)
  }

  /** Attribute `a` is set and stored under `k`. */
  predicate Adds(config: seq<Prop>, a: string, k: string) {
    Truthy(GetProp(config, a)) && Renamed(a) == k
  }

  predicate SomeFails(config: seq<Prop>, attrs: seq<string>) {
    exists i :: 0 <= i < |attrs| && Fails(config, attrs[i])
  }

  predicate SomeAdds(config: seq<Prop>, attrs: seq<string>, k: string) {
    exists i :: 0 <= i < |attrs| && Adds(config, attrs[i], k)
  }

  lemma FailsSnoc(config: seq<Prop>, attrs: seq<string>)
    requires attrs != []
    ensures SomeFails(config, attrs) <==> SomeFails(config, attrs[..|attrs| - 1]) || Fails(config, attrs[|attrs| - 1])
  {
    var front := attrs[..|attrs| - 1];
    if SomeFails(config, front) {
      var i :| 0 <= i < |front| && Fails(config, front[i]);
      assert attrs[i] == front[i];
    }
    if SomeFails(config, attrs) {
      var i :| 0 <= i < |attrs| && Fails(config, attrs[i]);
      if i < |front| {
        assert front[i] == attrs[i];
      }
    }
  }

  lemma AddsSnoc(config: seq<Prop>, attrs: seq<string>, k: string)
    requires attrs != []
    ensures SomeAdds(config, attrs, k) <==> SomeAdds(config, attrs[..|attrs| - 1], k) || Adds(config, attrs[|attrs| - 1], k)
  {
    var front := attrs[..|attrs| - 1];
    if SomeAdds(config, front, k) {
      var i :| 0 <= i < |front| && Adds(config, front[i], k);
      assert attrs[i] == front[i];
    }
    if SomeAdds(config, attrs, k) {
      var i :| 0 <= i < |attrs| && Adds(config, attrs[i], k);
      if i < |front| {
        assert front[i] == attrs[i];
      }
    }
  }

  /** Building throws exactly when some truthy attribute is a `strs` list that is not a string. */
  lemma {:induction false} BuildThrows(config: seq<Prop>, attrs: seq<string>)
    ensures Build(config, attrs).Err? <==> SomeFails(config, attrs)
    decreases |attrs|
  {
    if attrs != [] {
      BuildThrows(config, attrs[..|attrs| - 1]);
      FailsSnoc(config, attrs);
    }
  }

  /** The filter has the three fixed properties and the renamed truthy attributes, and nothing else. */
  lemma {:induction false} BuildKeys(config: seq<Prop>, attrs: seq<string>, k: string)
    requires Build(config, attrs).Ok?
    ensures HasKey(Build(config, attrs).value, k) <==> IsFixed(k) || SomeAdds(config, attrs, k)
    decreases |attrs|
  {
    if attrs == [] {
      var f := Fixed(config);
      assert HasKey(f, k) <==> f[0].key == k || f[1].key == k || f[2].key == k;
    } else {
      var front := attrs[..|attrs| - 1];
      var a := attrs[|attrs| - 1];
      BuildKeys(config, front, k);
      AddsSnoc(config, attrs, k);
      if Truthy(GetProp(config, a)) {
        SetPropGet(Build(config, front).value, Renamed(a), AttributeFilter(config, a).value, k);
      }
    }
  }

  /** The value of a truthy attribute that no later truthy attribute overrides is its filter value. */
  lemma {:induction false} BuildValue(config: seq<Prop>, attrs: seq<string>, i: nat)
    requires Build(config, attrs).Ok? && i < |attrs| && Truthy(GetProp(config, attrs[i]))
    requires forall j :: i < j < |attrs| && Truthy(GetProp(config, attrs[j])) ==> Renamed(attrs[j]) != Renamed(attrs[i])
    ensures AttributeFilter(config, attrs[i]).Ok?
    ensures Lookup(Build(config, attrs).value, Renamed(attrs[i])) == Some(AttributeFilter(config, attrs[i]).value)
    decreases |attrs|
  {
    var front := attrs[..|attrs| - 1];
    var a := attrs[|attrs| - 1];
    var filter := Build(config, front).value;
    if i < |attrs| - 1 {
      assert front[i] == attrs[i];
      BuildValue(config, front, i);
    }
    if Truthy(GetProp(config, a)) {
      SetPropGet(filter, Renamed(a), AttributeFilter(config, a).value, Renamed(attrs[i]));
    }
  }

  /** Attributes never overwrite the fixed properties. */
  lemma {:induction false} BuildFixed(config: seq<Prop>, attrs: seq<string>, k: string)
    requires Build(config, attrs).Ok? && IsFixed(k)
    requires forall i :: 0 <= i < |attrs| ==> Renamed(attrs[i]) != k
    ensures Lookup(Build(config, attrs).value, k) == Some(GetProp(config, k))
    decreases |attrs|
  {
    if attrs == [] {
      var f := Fixed(config);
      assert f[0].key == "domain" && f[1].key == "change" && f[2].key == "cache";
      if k == "domain" {
        assert Lookup(f, k) == Some(f[0].val);
      } else if k == "change" {
        assert Lookup(f[1..], k) == Some(f[1].val);
      } else {
        assert Lookup(f[2..], k) == Some(f[2].val);
      }
    } else {
      var front := attrs[..|attrs| - 1];
      var a := attrs[|attrs| - 1];
      BuildFixed(config, front, k);
      if Truthy(GetProp(config, a)) {
        SetPropGet(Build(config, front).value, Renamed(a), AttributeFilter(config, a).value, k);
      }
    }
  }

  lemma RenamedAt(i: nat)
    requires i < |ATTRIBUTES|
    ensures Renamed(ATTRIBUTES[i]) in FILTER_PROPERTIES
    ensures !IsFixed(Renamed(ATTRIBUTES[i]))
  {
  }

  /** `domain`, `change` and `cache` are always copied from the configuration. */
  lemma EventFilterFixed(config: seq<Prop>, k: string)
    requires EventFilter(config).Ok? && IsFixed(k)
    ensures Lookup(EventFilter(config).value, k) == Some(GetProp(config, k))
  {
    forall i | 0 <= i < |ATTRIBUTES| ensures Renamed(ATTRIBUTES[i]) != k {
      RenamedAt(i);
    }
    BuildFixed(config, ATTRIBUTES, k);
  }

  /** Every property an event filter can have passes the filter check of `subscribe`. */
  lemma EventFilterAllowed(config: seq<Prop>)
    requires EventFilter(config).Ok?
    ensures FilterAllowed(Obj(EventFilter(config).value))
  {
    var filter := EventFilter(config).value;
    forall k | k in Keys(filter) ensures k in FILTER_PROPERTIES {
      var n :| 0 <= n < |filter| && Keys(filter)[n] == k;
      assert filter[n].key == k;
      BuildKeys(config, ATTRIBUTES, k);
      if !IsFixed(k) {
        var i :| 0 <= i < |ATTRIBUTES| && Adds(config, ATTRIBUTES[i], k);
        RenamedAt(i);
      }
    }
    FilterAllowedSpec(Obj(filter));
  }

  /** When both `room` and `rooms` are set, the later `rooms` attribute wins. */
  lemma EventFilterRooms(config: seq<Prop>)
    requires EventFilter(config).Ok? && Truthy(GetProp(config, "rooms"))
    ensures AttributeFilter(config, "rooms").Ok?
    ensures Lookup(EventFilter(config).value, "rooms") == Some(AttributeFilter(config, "rooms").value)
  {
    assert ATTRIBUTES[2] == "rooms";
    forall j | 2 < j < |ATTRIBUTES| ensures Renamed(ATTRIBUTES[j]) != "rooms" {
      RenamedAt(j);
    }
    BuildValue(config, ATTRIBUTES, 2);
  }

  /**
   * The message a subscription callback sends: with the configured topic
   * `*` it keeps its own topic, otherwise the topic is the configured
   * template expanded against the message.
   */
  function Retitled(configTopic: Value, message: seq<Prop>): (r: Result<seq<Prop>>)
    ensures configTopic == Str("*") ==> r.Ok? && Lookup(r.value, "topic") == Some(GetProp(message, "topic"))
    ensures configTopic != Str("*") ==>
      (r.Ok? <==> ConfigReply.TopicReplace(configTopic, Obj(message)).Ok?)
    ensures configTopic != Str("*") && r.Ok? ==>
      Lookup(r.value, "topic") == Some(ConfigReply.TopicReplace(configTopic, Obj(message)).value)
    ensures r.Ok? ==> forall k :: k != "topic" ==> Lookup(r.value, k) == Lookup(message, k)
  {
    var topic := if configTopic == Str("*") then Ok(GetProp(message, "topic"))
                 else ConfigReply.TopicReplace(configTopic, Obj(message));
    match topic
    case Err(e) => Err(e)
    case Ok(t) =>
      SetPropKeys(message, "topic", t);
      forall k ensures Lookup(SetProp(message, "topic", t), k) == if k == "topic" then Some(t) else Lookup(message, k) {
        SetPropGet(message, "topic", t, k);
      }
      Ok(SetProp(message, "topic", t))
  }

  /** An event node. */
  class EventNode {
    const id: string
    const config: seq<Prop>
    var connected: bool
    var filter: seq<Prop>

    constructor(id: string, config: seq<Prop>)
      ensures this.id == id && this.config == config && !connected && filter == []
    {
      this.id := id;
      this.config := config;
      connected := false;
      filter := [];
    }

    /**
     * What the node does when it is created on configuration node `jack`:
     * `register(this, callback)` and, with the filter built, `subscribe(this,
     * callback)`.  `callbackText` is the callback's source text, the string
     * the event-type parameter turns it into.  The subscription always fails;
     * a filter that throws ends the creation before it.
     */
    method Start(jack: JackConfig.ConfigNode, callbackText: string) returns (ok: bool)
      requires jack.Valid()
      modifies this, jack
      ensures jack.Valid()
      ensures !ok
      ensures id in jack.consumers
      ensures jack.consumers[id] == Consumer({SubscriptionId(callbackText, jack.cfgId, id)}, Obj([]), {})
      ensures jack.consumers == old(jack.consumers)[id := jack.consumers[id]]
      ensures jack.listeners == AddListener(old(jack.listeners), SubscriptionId(callbackText, jack.cfgId, id))
      ensures jack.order == if id in old(jack.consumers) then old(jack.order) else old(jack.order) + [id]
      // `register` ends by sending the current status to every status holder.
      ensures jack.emitted == old(jack.emitted) + StatusEvents(jack.order, jack.consumers, jack.cfgId, StatusReport(jack.status, jack.rootDomains))
      ensures jack.status == old(jack.status) && jack.tree == old(jack.tree) && jack.values == old(jack.values)
      ensures jack.rootDomains == old(jack.rootDomains)
      ensures EventFilter(config).Ok? ==> filter == EventFilter(config).value
      ensures connected == old(connected)
    {
      var _ := jack.Register(Some(Child(id, Undefined)), callbackText);
      var built := BuildFilter(config);
      if built.Err? {
        return false;
      }
      filter := built.value;
      ok := jack.Subscribe(Some(Child(id, Obj(filter))), callbackText, false);
    }

    /** The `close` handler: the node leaves configuration node `jack`, every time the handler runs. */
    method Close(jack: JackConfig.ConfigNode)
      requires jack.Valid()
      modifies jack
      ensures jack.Valid()
      ensures id !in jack.consumers && id !in jack.order
      ensures JackConfig.RegistrationOf(jack) == Deregistered(old(JackConfig.RegistrationOf(jack)), id)
      ensures jack.status == old(jack.status) && jack.tree == old(jack.tree) && jack.values == old(jack.values)
      ensures jack.rootDomains == old(jack.rootDomains) && jack.emitted == old(jack.emitted)
    {
      var _ := jack.Deregister(id);
    }
  }

  /**
   * A consumer filed only under the callback's text holds neither the
   * status nor the event id (a function's source text is never "status"
   * or "event"), so it is sent neither.
   */
  lemma NothingReachesEventNode(consumers: map<string, Consumer>, cfgId: string, id: string, callbackText: string)
    requires id in consumers && consumers[id].subscriptions == {SubscriptionId(callbackText, cfgId, id)}
    requires callbackText != EVENT_STATUS && callbackText != EVENT_EVENT
    ensures !Subscribed(consumers, EVENT_STATUS, cfgId, id)
    ensures !Subscribed(consumers, EVENT_EVENT, cfgId, id)
  {
    SubscriptionIdInjective(EVENT_STATUS, callbackText, cfgId, id, id);
    SubscriptionIdInjective(EVENT_EVENT, callbackText, cfgId, id, id);
  }
}
