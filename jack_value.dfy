/**
 * The value node: it asks its configuration node for the cached value of
 * one datapoint for every message it is given, in the order the messages
 * arrive, and forwards the replies.  Messages wait in a queue until the
 * configuration node reports that it is connected.  With `cache` set in
 * its configuration the node also subscribes to the server's events,
 * through a filter built from its configuration, and forwards those that
 * come from the cache.
 */
module JackValue {
  import opened Js
  import opened Utils
  import opened Constants
  import opened ConfigEvents
  import ConfigStore
  import JackEvent
  import JackConfig

  /** The configuration attributes that can add a filter property, in the order they are read. */
  const ATTRIBUTES: seq<string> := ["device", "channelIndex", "datapoint"]

  /** The filter value of attribute `a`: type `re` gives the pattern of its text, anything else the value. */
  function AttributeFilter(config: seq<Prop>, a: string): Value {
    if GetProp(config, a + "T") == Str("re") then Pattern(ToStr(GetProp(config, a))) else GetProp(config, a)
  }

  /** The filter after the loop has read `attrs`: falsy attributes are skipped. */
  function Build(config: seq<Prop>, attrs: seq<string>): seq<Prop>
    decreases |attrs|
  {
    if attrs == [] then JackEvent.Fixed(config)
    else
      var filter := Build(config, attrs[..|attrs| - 1]);
      var a := attrs[|attrs| - 1];
      if Truthy(GetProp(config, a)) then SetProp(filter, a, AttributeFilter(config, a)) else filter
  }

  /** `this.filter` of a value node: only a node configured with `cache` has one. */
  function ValueFilter(config: seq<Prop>): Option<seq<Prop>> {
    if Truthy(GetProp(config, "cache")) then Some(Build(config, ATTRIBUTES)) else None
  }

  /** The construction of `this.filter`, a loop over the attributes. */
  method BuildFilter(config: seq<Prop>) returns (r: Option<seq<Prop>>)
    ensures r == ValueFilter(config)
  {
    if !Truthy(GetProp(config, "cache")) {
      return None;
    }
    var filter := JackEvent.Fixed(config);
    for i := 0 to |ATTRIBUTES|
      invariant filter == Build(config, ATTRIBUTES[..i])
    {
      var a := ATTRIBUTES[i];
      assert ATTRIBUTES[..i + 1][..i] == ATTRIBUTES[..i];
      if Truthy(GetProp(config, a)) {
        filter := SetProp(filter, a, AttributeFilter(config, a));
      }
    }
    assert ATTRIBUTES[..|ATTRIBUTES|] == ATTRIBUTES;
    return Some(filter);
  }

  /** The filter has the fixed properties and the truthy attributes among `attrs`, and nothing else. */
  lemma {:induction false} BuildKeys(config: seq<Prop>, attrs: seq<string>, k: string)
    ensures HasKey(Build(config, attrs), k) <==> JackEvent.IsFixed(k) || (k in attrs && Truthy(GetProp(config, k)))
    decreases |attrs|
  {
    if attrs == [] {
      var f := JackEvent.Fixed(config);
      assert HasKey(f, k) <==> f[0].key == k || f[1].key == k || f[2].key == k;
    } else {
      var front := attrs[..|attrs| - 1];
      var a := attrs[|attrs| - 1];
      BuildKeys(config, front, k);
      assert attrs == front + [a];
      if Truthy(GetProp(config, a)) {
        SetPropGet(Build(config, front), a, AttributeFilter(config, a), k);
      }
    }
  }

  /** A truthy attribute is stored with its filter value; every other key keeps the fixed value. */
  lemma {:induction false} BuildValues(config: seq<Prop>, attrs: seq<string>, k: string)
    requires forall a :: a in attrs ==> !JackEvent.IsFixed(a)
    ensures k in attrs && Truthy(GetProp(config, k)) ==> Lookup(Build(config, attrs), k) == Some(AttributeFilter(config, k))
    ensures JackEvent.IsFixed(k) ==> Lookup(Build(config, attrs), k) == Some(GetProp(config, k))
    decreases |attrs|
  {
    if attrs == [] {
      var f := JackEvent.Fixed(config);
      if k == "domain" {
        assert Lookup(f, k) == Some(f[0].val);
      } else if k == "change" {
        assert Lookup(f[1..], k) == Some(f[1].val);
      } else if k == "cache" {
        assert Lookup(f[2..], k) == Some(f[2].val);
      }
    } else {
      var front := attrs[..|attrs| - 1];
      var a := attrs[|attrs| - 1];
      BuildValues(config, front, k);
      assert attrs == front + [a];
      if Truthy(GetProp(config, a)) {
        SetPropGet(Build(config, front), a, AttributeFilter(config, a), k);
      }
    }
  }

  /**
   * A value node's filter has `domain`, `change` and `cache` from the
   * configuration, and `device`, `channelIndex` and `datapoint` exactly when
   * they are set, each with its filter value.
   */
  lemma ValueFilterSpec(config: seq<Prop>, k: string)
    requires Truthy(GetProp(config, "cache"))
    ensures var f := ValueFilter(config).value;
      && (HasKey(f, k) <==> JackEvent.IsFixed(k) || (k in ATTRIBUTES && Truthy(GetProp(config, k))))
      && (JackEvent.IsFixed(k) ==> Lookup(f, k) == Some(GetProp(config, k)))
      && (k in ATTRIBUTES && Truthy(GetProp(config, k)) ==> Lookup(f, k) == Some(AttributeFilter(config, k)))
  {
    BuildKeys(config, ATTRIBUTES, k);
    BuildValues(config, ATTRIBUTES, k);
  }

  /** A value node's filter passes the filter check of `subscribe`. */
  lemma ValueFilterAllowed(config: seq<Prop>)
    requires Truthy(GetProp(config, "cache"))
    ensures FilterAllowed(Obj(ValueFilter(config).value))
  {
    var filter := ValueFilter(config).value;
    forall k | k in Keys(filter) ensures k in FILTER_PROPERTIES {
      var n :| 0 <= n < |filter| && Keys(filter)[n] == k;
      assert filter[n].key == k;
      BuildKeys(config, ATTRIBUTES, k);
    }
    FilterAllowedSpec(Obj(filter));
  }

  /** The topic `onInput` is called with: a string topic as it is, anything else as none. */
  function TopicText(topic: Value): string {
    if topic.Str? then topic.s else ""
  }

  /** A destructuring default: it applies only where the message has nothing. */
  function Default(v: Value, d: Value): (r: Value)
    ensures v.Undefined? ==> r == d
    ensures !v.Undefined? ==> r == v
  {
    if v.Undefined? then d else v
  }

  /** The packet a queued message asks for: each part falls back to the configured one. */
  function PacketOf(config: seq<Prop>, message: seq<Prop>): seq<Prop> {
    [Prop("domain", Default(GetProp(message, "domain"), GetProp(config, "domain"))),
     Prop("device", Default(GetProp(message, "device"), GetProp(config, "device"))),
     Prop("channelIndex", Default(GetProp(message, "channelIndex"), GetProp(config, "channelIndex"))),
     Prop("datapoint", Default(GetProp(message, "datapoint"), GetProp(config, "datapoint")))]
  }

  /** Each part of the packet is the message's own when it has one and the configured one otherwise. */
  lemma PacketParts(config: seq<Prop>, message: seq<Prop>, k: string)
    requires k in ATTRIBUTES || k == "domain"
    ensures GetProp(PacketOf(config, message), k) == Default(GetProp(message, k), GetProp(config, k))
  {
    var p := PacketOf(config, message);
    var n := if k == "domain" then 0 else if k == "device" then 1 else if k == "channelIndex" then 2 else 3;
    assert p[n].key == k;
    forall j | 0 <= j < n ensures p[j].key != k {
      assert |p[j].key| != |k| || p[j].key[1] != k[1];
    }
    LookupFirst(p, k, n);
  }

  /** The lookup finds the first property with the key. */
  lemma {:induction false} LookupFirst(ps: seq<Prop>, k: string, n: nat)
    requires n < |ps| && ps[n].key == k
    requires forall j :: 0 <= j < n ==> ps[j].key != k
    ensures Lookup(ps, k) == Some(ps[n].val)
  {
    if n > 0 {
      LookupFirst(ps[1..], k, n - 1);
    }
  }

  /** One call of `onInput`: its topic, message and packet. */
  datatype Request = Request(topic: string, payload: Value, packet: Value)

  /** What a queued message asks for. */
  function RequestOf(config: seq<Prop>, message: seq<Prop>): Request {
    Request(TopicText(GetProp(message, "topic")), GetProp(message, "payload"), Obj(PacketOf(config, message)))
  }

  /** What `onInput` reads of the configuration node. */
  datatype View = View(consumers: map<string, Consumer>, cfgId: string, tree: seq<Prop>,
                       values: ConfigStore.Values, rootDomains: seq<Value>)

  /** The events the configuration node emits while answering `queue`, request by request. */
  function Answers(v: View, id: string, config: seq<Prop>, queue: seq<seq<Prop>>, now: int): seq<Event>
    decreases |queue|
  {
    if queue == [] then [] else AnswerTo(v, id, config, queue[0], now) + Answers(v, id, config, queue[1..], now)
  }

  /** The events of the `onInput` call for one queued message. */
  function AnswerTo(v: View, id: string, config: seq<Prop>, message: seq<Prop>, now: int): seq<Event> {
    var q := RequestOf(config, message);
    InputAnswer(v.consumers, v.cfgId, id, q.topic, q.payload,
                InputReply(v.tree, v.values, v.rootDomains, q.topic, q.payload, q.packet, now)).events
  }

  /**
   * Each queued message gets at most one answer, addressed to the node's
   * VALUE or ERROR subscription; a node subscribed to both gets exactly
   * one per message, and a node the configuration node does not know gets none.
   */
  lemma {:induction false} AnswersSpec(v: View, id: string, config: seq<Prop>, queue: seq<seq<Prop>>, now: int)
    ensures var a := Answers(v, id, config, queue, now);
      && |a| <= |queue|
      && (forall e | e in a :: e.id == SubscriptionId(EVENT_VALUE, v.cfgId, id) || e.id == SubscriptionId(EVENT_ERROR, v.cfgId, id))
      && (id !in v.consumers ==> a == [])
      && (Subscribed(v.consumers, EVENT_VALUE, v.cfgId, id) && Subscribed(v.consumers, EVENT_ERROR, v.cfgId, id) ==> |a| == |queue|)
    decreases |queue|
  {
    if queue != [] {
      var q := RequestOf(config, queue[0]);
      InputAnswerSpec(v.consumers, v.cfgId, id, q.topic, q.payload,
                      InputReply(v.tree, v.values, v.rootDomains, q.topic, q.payload, q.packet, now));
      AnswersSpec(v, id, config, queue[1..], now);
    }
  }

  /** Answering `a` and then `b` is answering `a + b`, in that order. */
  lemma {:induction false} AnswersAppend(v: View, id: string, config: seq<Prop>, a: seq<seq<Prop>>, b: seq<seq<Prop>>, now: int)
    ensures Answers(v, id, config, a + b, now) == Answers(v, id, config, a, now) + Answers(v, id, config, b, now)
    decreases |a|
  {
    if a == [] {
      assert a + b == b;
    } else {
      assert (a + b)[0] == a[0] && (a + b)[1..] == a[1..] + b;
      AnswersAppend(v, id, config, a[1..], b, now);
      Associative(AnswerTo(v, id, config, a[0], now), Answers(v, id, config, a[1..], now), Answers(v, id, config, b, now));
    }
  }

  /** The EVENT callback: the message is forwarded, retitled, only when it comes from the cache. */
  function OnEvent(configTopic: Value, message: seq<Prop>): (r: Option<seq<Prop>>)
    ensures r.Some? <==> JackEvent.Retitled(configTopic, message).Ok? && Truthy(GetProp(message, "cache"))
    ensures r.Some? ==> r.value == JackEvent.Retitled(configTopic, message).value
                        && Truthy(GetProp(r.value, "cache"))
  {
    match JackEvent.Retitled(configTopic, message)
    case Err(_) => None
    case Ok(m) =>
      assert Lookup(m, "cache") == Lookup(message, "cache");
      if Truthy(GetProp(m, "cache")) then Some(m) else None
  }

  /** The VALUE callback: every reply is forwarded, retitled. */
  function OnValue(configTopic: Value, message: seq<Prop>): (r: Option<seq<Prop>>)
    ensures r.Some? <==> JackEvent.Retitled(configTopic, message).Ok?
    ensures r.Some? ==> Lookup(r.value, "payload") == Lookup(message, "payload")
  {
    match JackEvent.Retitled(configTopic, message)
    case Err(_) => None
    case Ok(m) => Some(m)
  }

  function ViewOf(jack: JackConfig.ConfigNode): View
    reads jack
  {
    View(jack.consumers, jack.cfgId, jack.tree, jack.values, jack.rootDomains)
  }

  /** What `onInput` leaves alone besides its view: the status, the registry order and the listeners. */
  datatype Shape = Shape(status: int, order: seq<string>, listeners: map<string, nat>)

  function ShapeOf(jack: JackConfig.ConfigNode): Shape
    reads jack
  {
    Shape(jack.status, jack.order, jack.listeners)
  }

  /** The configuration node answers without changing anything `onInput` reads, nor its registry. */
  ghost predicate Steady(jack: JackConfig.ConfigNode, v: View, shape: Shape)
    reads jack
  {
    ViewOf(jack) == v && ShapeOf(jack) == shape
  }

  /** A subscription of a registered node, seen from that node's entry in the registry. */
  method SubscribeChild(jack: JackConfig.ConfigNode, child: Child, eventType: string)
    requires jack.Valid() && child.id in jack.consumers && FilterAllowed(FilterOf(child))
    modifies jack
    ensures jack.Valid() && child.id in jack.consumers
    ensures var c := old(jack.consumers[child.id]);
      jack.consumers[child.id] == if child.id == "" then c
        else c.(subscriptions := c.subscriptions + {SubscriptionId(eventType, jack.cfgId, child.id)}, filter := FilterOf(child))
    ensures jack.consumers == old(jack.consumers)[child.id := jack.consumers[child.id]]
    ensures jack.listeners == AddListener(old(jack.listeners), SubscriptionId(eventType, jack.cfgId, child.id))
    ensures jack.order == old(jack.order) && jack.emitted == old(jack.emitted)
    ensures jack.status == old(jack.status) && jack.tree == old(jack.tree) && jack.values == old(jack.values)
    ensures jack.rootDomains == old(jack.rootDomains)
  {
    var _ := jack.Subscribe(Some(child), eventType, true);
  }

  /**
   * The record a value node leaves in its configuration node: its status,
   * event (with a filter), value and error ids and its filter.  A node
   * without an id keeps only what `register` gave it.
   */
  function ValueRecord(cfgId: string, id: string, filter: Option<seq<Prop>>): (r: Consumer)
    ensures SubscriptionId(EVENT_STATUS, cfgId, id) in r.subscriptions && r.whitelisted == {}
    ensures id != "" ==> SubscriptionId(EVENT_VALUE, cfgId, id) in r.subscriptions
                         && SubscriptionId(EVENT_ERROR, cfgId, id) in r.subscriptions
                         && (filter.Some? ==> SubscriptionId(EVENT_EVENT, cfgId, id) in r.subscriptions)
  {
    var status := {SubscriptionId(EVENT_STATUS, cfgId, id)};
    var event := if filter.Some? then {SubscriptionId(EVENT_EVENT, cfgId, id)} else {};
    var value := {SubscriptionId(EVENT_VALUE, cfgId, id)};
    var error := {SubscriptionId(EVENT_ERROR, cfgId, id)};
    if id == "" then Consumer(status, Obj([]), {})
    else Consumer(status + event + value + error, if filter.Some? then Obj(filter.value) else Obj([]), {})
  }

  /** A second update of a key overrides the first. */
  lemma UpdateTwice<K, V>(m: map<K, V>, k: K, first: V, second: V)
    ensures m[k := first][k := second] == m[k := second]
  {
  }

  /** The subscriptions a value node makes after registering: the events (with a filter), the values and the errors. */
  method SubscribeAll(jack: JackConfig.ConfigNode, child: Child, withEvent: bool)
    requires jack.Valid() && child.id in jack.consumers && FilterAllowed(FilterOf(child))
    modifies jack
    ensures jack.Valid()
    ensures var c := old(jack.consumers[child.id]);
      var ids := (if withEvent then {SubscriptionId(EVENT_EVENT, jack.cfgId, child.id)} else {})
                 + {SubscriptionId(EVENT_VALUE, jack.cfgId, child.id)} + {SubscriptionId(EVENT_ERROR, jack.cfgId, child.id)};
      jack.consumers == old(jack.consumers)[child.id := if child.id == "" then c
        else c.(subscriptions := c.subscriptions + ids, filter := FilterOf(child))]
    ensures var subscribed := if withEvent then AddListener(old(jack.listeners), SubscriptionId(EVENT_EVENT, jack.cfgId, child.id))
                              else old(jack.listeners);
      jack.listeners == AddListener(AddListener(subscribed, SubscriptionId(EVENT_VALUE, jack.cfgId, child.id)),
                                    SubscriptionId(EVENT_ERROR, jack.cfgId, child.id))
    ensures jack.order == old(jack.order) && jack.emitted == old(jack.emitted)
    ensures jack.status == old(jack.status) && jack.tree == old(jack.tree) && jack.values == old(jack.values)
    ensures jack.rootDomains == old(jack.rootDomains)
  {
    ghost var before, c := jack.consumers, jack.consumers[child.id];
    ghost var first := if withEvent then {SubscriptionId(EVENT_EVENT, jack.cfgId, child.id)} else {};
    if withEvent {
      SubscribeChild(jack, child, EVENT_EVENT);
    }
    ghost var middle := jack.consumers;
    assert child.id != "" ==> middle[child.id].subscriptions == c.subscriptions + first;
    SubscribeValues(jack, child);
    UpdateTwice(before, child.id, middle[child.id], jack.consumers[child.id]);
    assert c.subscriptions + first + ({SubscriptionId(EVENT_VALUE, jack.cfgId, child.id)} + {SubscriptionId(EVENT_ERROR, jack.cfgId, child.id)})
        == c.subscriptions + (first + {SubscriptionId(EVENT_VALUE, jack.cfgId, child.id)} + {SubscriptionId(EVENT_ERROR, jack.cfgId, child.id)});
  }

  /** The value and error subscriptions, which also set the node's filter. */
  method SubscribeValues(jack: JackConfig.ConfigNode, child: Child)
    requires jack.Valid() && child.id in jack.consumers && FilterAllowed(FilterOf(child))
    modifies jack
    ensures jack.Valid() && child.id in jack.consumers
    ensures var c := old(jack.consumers[child.id]);
      var ids := {SubscriptionId(EVENT_VALUE, jack.cfgId, child.id)} + {SubscriptionId(EVENT_ERROR, jack.cfgId, child.id)};
      jack.consumers[child.id] == if child.id == "" then c else c.(subscriptions := c.subscriptions + ids, filter := FilterOf(child))
    ensures jack.consumers == old(jack.consumers)[child.id := jack.consumers[child.id]]
    ensures jack.listeners == AddListener(AddListener(old(jack.listeners), SubscriptionId(EVENT_VALUE, jack.cfgId, child.id)),
                                          SubscriptionId(EVENT_ERROR, jack.cfgId, child.id))
    ensures jack.order == old(jack.order) && jack.emitted == old(jack.emitted)
    ensures jack.status == old(jack.status) && jack.tree == old(jack.tree) && jack.values == old(jack.values)
    ensures jack.rootDomains == old(jack.rootDomains)
  {
    ghost var before := jack.consumers;
    SubscribeChild(jack, child, EVENT_VALUE);
    ghost var middle := jack.consumers;
    SubscribeChild(jack, child, EVENT_ERROR);
    UpdateTwice(before, child.id, middle[child.id], jack.consumers[child.id]);
  }

  class ValueNode {
    const id: string
    const config: seq<Prop>
    /** The configuration node the node was made with. */
    const jack: JackConfig.ConfigNode
    /** Whether the `close` handler has let go of the configuration node. */
    var closed: bool
    var connected: bool
    var filter: Option<seq<Prop>>
    /** `messageQueue`: the messages not yet answered, oldest first. */
    var queue: seq<seq<Prop>>

    ghost predicate Valid()
      reads this, jack
    {
      jack.Valid()
    }

    /** Whether `handleMessageQueue` gets an answer for the oldest message. */
    predicate Answering()
      reads this, jack
    {
      connected && !closed && id in jack.consumers
    }

    constructor(id: string, config: seq<Prop>, jack: JackConfig.ConfigNode)
      requires jack.Valid()
      ensures Valid()
      ensures this.id == id && this.config == config && this.jack == jack
      ensures !closed && !connected && filter == None && queue == []
    {
      this.id := id;
      this.config := config;
      this.jack := jack;
      closed := false;
      connected := false;
      filter := None;
      queue := [];
    }

    /**
     * The subscriptions made when the node is created: the status, then
     * (with `cache` set) the events through the node's filter, then the
     * values and the errors.  Every subscription succeeds.
     */
    method Start()
      requires Valid()
      modifies this, jack
      ensures Valid()
      ensures filter == ValueFilter(config)
      ensures id in jack.consumers
      ensures jack.consumers == old(jack.consumers)[id := ValueRecord(jack.cfgId, id, filter)]
      ensures jack.order == if id in old(jack.consumers) then old(jack.order) else old(jack.order) + [id]
      ensures var registered := AddListener(old(jack.listeners), SubscriptionId(EVENT_STATUS, jack.cfgId, id));
        var subscribed := if filter.Some? then AddListener(registered, SubscriptionId(EVENT_EVENT, jack.cfgId, id))
                          else registered;
        jack.listeners == AddListener(AddListener(subscribed, SubscriptionId(EVENT_VALUE, jack.cfgId, id)),
                                      SubscriptionId(EVENT_ERROR, jack.cfgId, id))
      // `register` ends by sending the current status to every status holder, this node included.
      ensures jack.emitted == old(jack.emitted)
        + StatusEvents(jack.order, old(jack.consumers)[id := Consumer({SubscriptionId(EVENT_STATUS, jack.cfgId, id)}, Obj([]), {})],
                       jack.cfgId, StatusReport(jack.status, jack.rootDomains))
      ensures jack.status == old(jack.status) && jack.tree == old(jack.tree) && jack.values == old(jack.values)
      ensures jack.rootDomains == old(jack.rootDomains)
      ensures closed == old(closed) && connected == old(connected) && queue == old(queue)
    {
      var _ := jack.Register(Some(Child(id, Undefined)), EVENT_STATUS);
      filter := BuildFilter(config);
      var child := Child(id, if filter.Some? then Obj(filter.value) else Undefined);
      EmptyFilterAllowed(0);
      if filter.Some? {
        ValueFilterAllowed(config);
      }
      ghost var registered := jack.consumers;
      assert registered == old(jack.consumers)[id := Consumer({SubscriptionId(EVENT_STATUS, jack.cfgId, id)}, Obj([]), {})];
      SubscribeAll(jack, child, filter.Some?);
      ghost var status, value, error := {SubscriptionId(EVENT_STATUS, jack.cfgId, id)}, {SubscriptionId(EVENT_VALUE, jack.cfgId, id)},
                                        {SubscriptionId(EVENT_ERROR, jack.cfgId, id)};
      ghost var event := if filter.Some? then {SubscriptionId(EVENT_EVENT, jack.cfgId, id)} else {};
      assert status + (event + value + error) == status + event + value + error;
      assert FilterOf(child) == if filter.Some? then Obj(filter.value) else Obj([]);
      assert jack.consumers[id] == ValueRecord(jack.cfgId, id, filter);
      UpdateTwice(old(jack.consumers), id, registered[id], jack.consumers[id]);
    }

    /**
     * One round of `handleMessageQueue`: the oldest message is answered and
     * then dropped.  When `onInput` throws (the configuration node does not
     * know the node, or has been let go of), the message stays queued.
     */
    method AnswerOldest(now: int) returns (answered: bool)
      requires Valid() && connected && queue != []
      modifies this, jack
      ensures Valid() && Steady(jack, old(ViewOf(jack)), old(ShapeOf(jack)))
      ensures answered == old(Answering())
      ensures queue == if answered then old(queue)[1..] else old(queue)
      ensures jack.emitted == old(jack.emitted) + if answered then AnswerTo(ViewOf(jack), id, config, old(queue)[0], now) else []
      ensures closed == old(closed) && connected == old(connected) && filter == old(filter)
    {
      if closed {
        return false;
      }
      var q := RequestOf(config, queue[0]);
      ghost var a := InputAnswer(jack.consumers, jack.cfgId, id, q.topic, q.payload,
                                 InputReply(jack.tree, jack.values, jack.rootDomains, q.topic, q.payload, q.packet, now));
      assert a.events == AnswerTo(ViewOf(jack), id, config, queue[0], now);
      var thrown := jack.OnInput(id, q.topic, q.payload, q.packet, now);
      if thrown {
        return false;
      }
      queue := queue[1..];
      return true;
    }

    /**
     * `handleMessageQueue`: while connected, the messages are answered
     * oldest first until the queue is empty or `onInput` throws.
     */
    method Drain(now: int)
      requires Valid()
      modifies this, jack
      ensures Valid() && Steady(jack, old(ViewOf(jack)), old(ShapeOf(jack)))
      ensures queue == if old(Answering()) then [] else old(queue)
      ensures jack.emitted == old(jack.emitted) + if old(Answering()) then Answers(ViewOf(jack), id, config, old(queue), now) else []
      ensures closed == old(closed) && connected == old(connected) && filter == old(filter)
      decreases |queue|
    {
      if !connected || queue == [] {
        return;
      }
      ghost var q0, e0, v := queue, jack.emitted, ViewOf(jack);
      var answered := AnswerOldest(now);
      if !answered {
        return;
      }
      Drain(now);
      Associative(e0, AnswerTo(v, id, config, q0[0], now), Answers(v, id, config, q0[1..], now));
    }

    /** The `input` handler: the message joins the queue, and a queue that was empty starts draining. */
    method Input(message: seq<Prop>, now: int)
      requires Valid()
      modifies this, jack
      ensures Valid() && Steady(jack, old(ViewOf(jack)), old(ShapeOf(jack)))
      ensures old(queue) == [] ==>
        && queue == (if old(Answering()) then [] else [message])
        && jack.emitted == old(jack.emitted) + if old(Answering()) then Answers(ViewOf(jack), id, config, [message], now) else []
      ensures old(queue) != [] ==> queue == old(queue) + [message] && jack.emitted == old(jack.emitted)
      ensures closed == old(closed) && connected == old(connected) && filter == old(filter)
    {
      queue := queue + [message];
      if |queue| == 1 {
        Drain(now);
      }
    }

    /** The status callback: the node is connected exactly while the status is CONNECTED, and then drains. */
    method OnStatus(message: seq<Prop>, now: int)
      requires Valid()
      modifies this, jack
      ensures Valid() && Steady(jack, old(ViewOf(jack)), old(ShapeOf(jack)))
      ensures connected <==> StrictEq(GetProp(message, "status"), Num(CONNECTED))
      ensures queue == if Answering() then [] else old(queue)
      ensures jack.emitted == old(jack.emitted) + if Answering() then Answers(ViewOf(jack), id, config, old(queue), now) else []
      ensures closed == old(closed) && filter == old(filter)
    {
      connected := StrictEq(GetProp(message, "status"), Num(CONNECTED));
      Drain(now);
    }

    /** The `close` handler: the node leaves its configuration node and lets go of it. */
    method Close()
      requires Valid()
      modifies this, jack
      ensures Valid() && closed
      ensures !old(closed) ==> id !in jack.consumers && id !in jack.order
      ensures JackConfig.RegistrationOf(jack)
              == if old(closed) then old(JackConfig.RegistrationOf(jack)) else Deregistered(old(JackConfig.RegistrationOf(jack)), id)
      ensures jack.status == old(jack.status) && jack.tree == old(jack.tree) && jack.values == old(jack.values)
      ensures jack.rootDomains == old(jack.rootDomains) && jack.emitted == old(jack.emitted)
      ensures connected == old(connected) && queue == old(queue) && filter == old(filter)
    {
      if !closed {
        var _ := jack.Deregister(id);
        closed := true;
      }
    }
  }
}
