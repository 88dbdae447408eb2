/**
 * What the configuration node sends to its consumer nodes: the consumer
 * records and their subscription ids, the status broadcast of `setStatus`,
 * the fan-out of an MQTT status message in `onMessage` and the single
 * answer of `onInput`.  Everything here is a value; the node object that
 * owns these values is `JackConfig.ConfigNode`.
 */
module ConfigEvents {
  import opened Js
  import opened Utils
  import opened Constants
  import ConfigStore
  import ConfigFilter
  import ConfigReply

  /** A registered child node: its subscription ids, its filter and the topics it has already received. */
  datatype Consumer = Consumer(subscriptions: set<string>, filter: Value, whitelisted: set<string>)

  /** The child node handed to `register` and `subscribe`: its id and its `filter` property. */
  datatype Child = Child(id: string, filter: Value)

  /** One `this.events.emit(id, message)`. */
  datatype Event = Event(id: string, message: Value)

  // ---------------------------------------------------------------------
  // Subscription ids
  // ---------------------------------------------------------------------

  /** `eventType + ':' + config.id + '_' + child.id` */
  function SubscriptionId(eventType: string, cfgId: string, child: string): string {
    eventType + ":" + cfgId + "_" + child
  }

  /** For one event type, different children never share an id, and one child's ids differ by event type. */
  lemma SubscriptionIdInjective(e1: string, e2: string, cfgId: string, c1: string, c2: string)
    ensures SubscriptionId(e1, cfgId, c1) == SubscriptionId(e1, cfgId, c2) ==> c1 == c2
    ensures SubscriptionId(e1, cfgId, c1) == SubscriptionId(e2, cfgId, c1) ==> e1 == e2
  {
    var p := e1 + ":" + cfgId + "_";
    assert SubscriptionId(e1, cfgId, c1) == p + c1;
    assert SubscriptionId(e1, cfgId, c2) == p + c2;
    assert (p + c1)[|p|..] == c1;
    assert (p + c2)[|p|..] == c2;
    var s := ":" + cfgId + "_" + c1;
    assert SubscriptionId(e1, cfgId, c1) == e1 + s;
    assert SubscriptionId(e2, cfgId, c1) == e2 + s;
    if e1 + s == e2 + s {
      assert |e1| == |e2|;
      assert (e1 + s)[..|e1|] == e1;
      assert (e2 + s)[..|e2|] == e2;
    }
  }

  /** Whether consumer `c` is registered and holds the id of `eventType`. */
  predicate Subscribed(consumers: map<string, Consumer>, eventType: string, cfgId: string, c: string) {
    c in consumers && SubscriptionId(eventType, cfgId, c) in consumers[c].subscriptions
  }

  /** The consumer ids in registration order, each once, and exactly the registered ones. */
  ghost predicate Registry(order: seq<string>, consumers: map<string, Consumer>) {
    Distinct(order) && (forall c :: c in consumers <==> c in order)
  }

  /** One more listener on the event id. */
  function AddListener(listeners: map<string, nat>, id: string): map<string, nat> {
    listeners[id := (if id in listeners then listeners[id] else 0) + 1]
  }

  /** The registration order without `c`. */
  function Without(order: seq<string>, c: string): (r: seq<string>)
    ensures forall x :: x in r <==> x in order && x != c
    ensures |r| <= |order|
  {
    if order == [] then []
    else if order[0] == c then Without(order[1..], c)
    else [order[0]] + Without(order[1..], c)
  }

  /** Removing a consumer keeps the registry consistent. */
  lemma {:induction false} WithoutRegistry(order: seq<string>, consumers: map<string, Consumer>, c: string)
    requires Registry(order, consumers)
    ensures Registry(Without(order, c), consumers - {c})
  {
    WithoutDistinct(order, c);
  }

  lemma {:induction false} WithoutDistinct(order: seq<string>, c: string)
    requires Distinct(order)
    ensures Distinct(Without(order, c))
  {
    if order != [] {
      var tail := order[1..];
      assert Distinct(tail) by {
        forall i, j | 0 <= i < j < |tail| ensures tail[i] != tail[j] {
          assert order[i + 1] != order[j + 1];
        }
      }
      WithoutDistinct(tail, c);
      if order[0] != c {
        var w := Without(tail, c);
        var r := [order[0]] + w;
        assert order[0] !in tail by {
          forall j | 0 <= j < |tail| ensures tail[j] != order[0] {
            assert order[j + 1] != order[0];
          }
        }
        forall i, j | 0 <= i < j < |r| ensures r[i] != r[j] {
          if i == 0 {
            assert r[j] == w[j - 1] && w[j - 1] in w;
          } else {
            assert r[i] == w[i - 1] && r[j] == w[j - 1];
          }
        }
      }
    }
  }

  /**
   * `events.removeListener(id, listener)` of Node's event emitter: it checks
   * that the listener is a function before anything else and throws a
   * TypeError when it is not.  With a listener it removes one listener of
   * the id.  `passesListener` says whether the call passes a function.
   */
  function RemoveListener(listeners: map<string, nat>, id: string, passesListener: bool): (r: Result<map<string, nat>>)
    ensures r.Err? <==> !passesListener
    ensures r.Ok? ==> r.value.Keys == listeners.Keys
    ensures r.Ok? ==> forall x :: x in listeners && x != id ==> r.value[x] == listeners[x]
  {
    if !passesListener then Err(TypeError)
    else if id in listeners && listeners[id] > 0 then Ok(listeners[id := listeners[id] - 1])
    else Ok(listeners)
  }

  /** The listeners, the consumer records and their order: what `deregister` touches. */
  datatype Registration = Registration(order: seq<string>, consumers: map<string, Consumer>, listeners: map<string, nat>)

  /**
   * What `deregister(c)` is meant to leave: a registered consumer is gone
   * from the order and the records, and the emitter holds no listener of
   * its subscriptions; an unknown consumer changes nothing.
   */
  function Deregistered(reg: Registration, c: string): (r: Registration)
    ensures c !in reg.consumers ==> r == reg
    ensures forall x :: x in r.consumers <==> x in reg.consumers && x != c
    ensures forall x :: x in r.consumers ==> r.consumers[x] == reg.consumers[x]
    ensures c in reg.consumers ==> forall x :: x in r.order <==> x in reg.order && x != c
    ensures c in reg.consumers ==>
      forall id :: id in r.listeners <==> id in reg.listeners && id !in reg.consumers[c].subscriptions
    ensures forall id :: id in r.listeners ==> r.listeners[id] == reg.listeners[id]
  {
    if c !in reg.consumers then reg
    else Registration(Without(reg.order, c), reg.consumers - {c}, reg.listeners - reg.consumers[c].subscriptions)
  }

  /** Deregistering keeps the order and the records consistent. */
  lemma DeregisteredRegistry(reg: Registration, c: string)
    requires Registry(reg.order, reg.consumers)
    ensures var r := Deregistered(reg, c); Registry(r.order, r.consumers)
  {
    if c in reg.consumers {
      WithoutRegistry(reg.order, reg.consumers, c);
    }
  }

  /**
   * The loop of `deregister` over a consumer's subscriptions, each handed
   * to `unsubscribe`, which calls `removeListener(id)`; the first exception
   * ends the loop.
   */
  function UnsubscribeAll(listeners: map<string, nat>, ids: seq<string>, passesListener: bool): Result<map<string, nat>> {
    if ids == [] then Ok(listeners)
    else match RemoveListener(listeners, ids[0], passesListener)
      case Err(e) => Err(e)
      case Ok(l) => UnsubscribeAll(l, ids[1..], passesListener)
  }

  /**
   * `deregister(childNode)` as written: `ids` lists the consumer's
   * subscriptions in the order the set yields them; `unsubscribe` passes no
   * listener to `removeListener`.  The result is the
   * return value, or the exception that escapes, and the registration after.
   */
  function DeregisterAsWritten(reg: Registration, c: string, ids: seq<string>): (Result<bool>, Registration) {
    if c !in reg.consumers then (Ok(false), reg)
    else match UnsubscribeAll(reg.listeners, ids, false)
      case Err(e) => (Err(e), reg)
      case Ok(l) => (Ok(true), Registration(Without(reg.order, c), reg.consumers - {c}, l))
  }

  /**
   * As written, `deregister` fails for every consumer that holds a
   * subscription: the first `unsubscribe` throws before anything is
   * removed, so the consumer, its order and its listeners stay.
   */
  lemma DeregisterAsWrittenThrows(reg: Registration, c: string, ids: seq<string>)
    requires c in reg.consumers && ids != []
    ensures DeregisterAsWritten(reg, c, ids) == (Err(TypeError), reg)
  {
    assert UnsubscribeAll(reg.listeners, ids, false) == Err(TypeError);
  }

  /** A child that has just registered for status events cannot be deregistered as written. */
  lemma DeregisterAfterRegister(cfgId: string, c: string)
    ensures var id := SubscriptionId(EVENT_STATUS, cfgId, c);
      var reg := Registration([c], map[c := Consumer({id}, Obj([]), {})], map[id := 1]);
      && DeregisterAsWritten(reg, c, [id]).0 == Err(TypeError)
      && c in DeregisterAsWritten(reg, c, [id]).1.consumers
  {
    var id := SubscriptionId(EVENT_STATUS, cfgId, c);
    DeregisterAsWrittenThrows(Registration([c], map[c := Consumer({id}, Obj([]), {})], map[id := 1]), c, [id]);
  }

  /** Registering a new consumer keeps the registry consistent; re-registering keeps its place. */
  lemma RegisterRegistry(order: seq<string>, consumers: map<string, Consumer>, c: string, k: Consumer)
    requires Registry(order, consumers)
    ensures Registry(if c in consumers then order else order + [c], consumers[c := k])
  {
    if c !in consumers {
      var o := order + [c];
      assert c !in order;
      forall i, j | 0 <= i < j < |o| ensures o[i] != o[j] {
        if j == |order| {
          assert o[i] == order[i] && order[i] in order;
        } else {
          assert o[i] == order[i] && o[j] == order[j];
        }
      }
    }
  }

  /**
   * The broadcast that `register` ends with reaches the consumer it has
   * just stored exactly when it was registered for status events.
   */
  lemma RegisterRebroadcast(order: seq<string>, consumers: map<string, Consumer>, cfgId: string, eventType: string,
                            c: string, report: Value)
    requires Registry(order, consumers)
    ensures var cs := consumers[c := Consumer({SubscriptionId(eventType, cfgId, c)}, Obj([]), {})];
      var o := if c in consumers then order else order + [c];
      Event(SubscriptionId(EVENT_STATUS, cfgId, c), report) in StatusEvents(o, cs, cfgId, report)
      <==> eventType == EVENT_STATUS
  {
    var cs := consumers[c := Consumer({SubscriptionId(eventType, cfgId, c)}, Obj([]), {})];
    var o := if c in consumers then order else order + [c];
    StatusEventsSpec(o, cs, cfgId, report, c);
    SubscriptionIdInjective(EVENT_STATUS, eventType, cfgId, c, c);
    assert c in o by {
      if c in consumers {
        assert c in order;
      } else {
        assert o[|order|] == c;
      }
    }
  }

  // ---------------------------------------------------------------------
  // subscribe: the filter check
  // ---------------------------------------------------------------------

  /** The properties a consumer filter may name. */
  const FILTER_PROPERTIES: set<string> := {
    "domain", "change", "cache", "room", "function", "rooms", "functions",
    "device", "deviceName", "deviceType", "channel", "channelName", "channelType", "channelIndex",
    "datapoint", "datapointName", "program", "programName", "sysvar", "sysvarName"
  }

  /** `childNode.filter || {}` */
  function FilterOf(child: Child): (r: Value)
    ensures Truthy(r)
    ensures !Truthy(child.filter) ==> r == Obj([])
  {
    Or(child.filter, Obj([]))
  }

  /** The index of the first key outside the allowed properties, or `|keys|` when there is none. */
  function FirstInvalid(keys: seq<string>): (r: nat)
    ensures r <= |keys|
    ensures forall i :: 0 <= i < r ==> keys[i] in FILTER_PROPERTIES
    ensures r < |keys| ==> keys[r] !in FILTER_PROPERTIES
  {
    if keys == [] then 0
    else if keys[0] !in FILTER_PROPERTIES then 0
    else 1 + FirstInvalid(keys[1..])
  }

  /** Every own key of the filter is an allowed property; the filter is always truthy, so `Object.keys` succeeds. */
  predicate FilterAllowed(filter: Value) {
    OwnKeys(filter).Ok? && FirstInvalid(OwnKeys(filter).value) == |OwnKeys(filter).value|
  }

  /** The filter check accepts exactly the filters naming nothing but allowed properties. */
  lemma FilterAllowedSpec(filter: Value)
    requires Truthy(filter)
    ensures FilterAllowed(filter) <==> forall k :: k in OwnKeys(filter).value ==> k in FILTER_PROPERTIES
  {
    var keys := OwnKeys(filter).value;
    var r := FirstInvalid(keys);
    if r < |keys| {
      assert keys[r] in keys;
    } else {
      forall k | k in keys ensures k in FILTER_PROPERTIES {
        var i :| 0 <= i < |keys| && keys[i] == k;
      }
    }
  }

  /** The filter `register` stores passes the check, and so does a filter that is not an object. */
  lemma EmptyFilterAllowed(n: int)
    ensures FilterAllowed(Obj([]))
    ensures n != 0 ==> FilterAllowed(Num(n)) && FilterOf(Child("", Num(n))) == Num(n)
  {
  }

  // ---------------------------------------------------------------------
  // setStatus: the broadcast
  // ---------------------------------------------------------------------

  /** The message of a status broadcast. */
  function StatusReport(status: int, rootDomains: seq<Value>): Value {
    Obj([Prop("topic", Str(EVENT_STATUS)), Prop("payload", StatusMessage(status)),
         Prop("status", Num(status)), Prop("domains", Arr(rootDomains))])
  }

  /** The status events of one broadcast, consumer by consumer in registration order. */
  function StatusEvents(order: seq<string>, consumers: map<string, Consumer>, cfgId: string, report: Value): (r: seq<Event>)
    ensures |r| <= |order|
    ensures forall i :: 0 <= i < |r| ==> r[i].message == report
    decreases |order|
  {
    if order == [] then []
    else
      var before := StatusEvents(order[..|order| - 1], consumers, cfgId, report);
      var c := order[|order| - 1];
      if Subscribed(consumers, EVENT_STATUS, cfgId, c) then before + [Event(SubscriptionId(EVENT_STATUS, cfgId, c), report)]
      else before
  }

  /** A broadcast reaches exactly the consumers that hold their status id, and nobody else. */
  lemma {:induction false} StatusEventsSpec(order: seq<string>, consumers: map<string, Consumer>, cfgId: string,
                                            report: Value, c: string)
    ensures Event(SubscriptionId(EVENT_STATUS, cfgId, c), report) in StatusEvents(order, consumers, cfgId, report)
            <==> c in order && Subscribed(consumers, EVENT_STATUS, cfgId, c)
    ensures forall e :: e in StatusEvents(order, consumers, cfgId, report) ==>
              exists d :: d in order && Subscribed(consumers, EVENT_STATUS, cfgId, d)
                          && e == Event(SubscriptionId(EVENT_STATUS, cfgId, d), report)
    decreases |order|
  {
    if order != [] {
      var front := order[..|order| - 1];
      var last := order[|order| - 1];
      StatusEventsSpec(front, consumers, cfgId, report, c);
      assert order == front + [last];
      SubscriptionIdInjective(EVENT_STATUS, EVENT_STATUS, cfgId, c, last);
      forall e | e in StatusEvents(order, consumers, cfgId, report)
        ensures exists d :: d in order && Subscribed(consumers, EVENT_STATUS, cfgId, d)
                            && e == Event(SubscriptionId(EVENT_STATUS, cfgId, d), report)
      {
        if e !in StatusEvents(front, consumers, cfgId, report) {
          assert e == Event(SubscriptionId(EVENT_STATUS, cfgId, last), report);
          assert last in order;
        } else {
          var d :| d in front && Subscribed(consumers, EVENT_STATUS, cfgId, d)
                   && e == Event(SubscriptionId(EVENT_STATUS, cfgId, d), report);
          assert d in order;
        }
      }
    }
  }

  /** Each consumer is sent a status event at most once per broadcast. */
  lemma {:induction false} StatusEventsOnce(order: seq<string>, consumers: map<string, Consumer>, cfgId: string, report: Value)
    requires Distinct(order)
    ensures forall i, j :: 0 <= i < j < |StatusEvents(order, consumers, cfgId, report)| ==>
              StatusEvents(order, consumers, cfgId, report)[i].id != StatusEvents(order, consumers, cfgId, report)[j].id
    decreases |order|
  {
    if order != [] {
      var front := order[..|order| - 1];
      var last := order[|order| - 1];
      var r := StatusEvents(order, consumers, cfgId, report);
      var before := StatusEvents(front, consumers, cfgId, report);
      StatusEventsOnce(front, consumers, cfgId, report);
      if |r| > |before| {
        StatusEventsSpec(front, consumers, cfgId, report, last);
        forall i | 0 <= i < |before| ensures before[i].id != SubscriptionId(EVENT_STATUS, cfgId, last) {
          assert before[i] in before;
          var d :| d in front && Subscribed(consumers, EVENT_STATUS, cfgId, d)
                   && before[i] == Event(SubscriptionId(EVENT_STATUS, cfgId, d), report);
          var k :| 0 <= k < |front| && front[k] == d;
          assert order[k] != order[|order| - 1];
          SubscriptionIdInjective(EVENT_STATUS, EVENT_STATUS, cfgId, d, last);
        }
      }
    }
  }

  // ---------------------------------------------------------------------
  // onMessage: admission of an MQTT status message
  // ---------------------------------------------------------------------

  /** How `onMessage` treats a message before saving it. */
  datatype Intake =
    | Ignored                    // returns quietly
    | Refused(error: JsError)    // throws, and the handler logs the error
    | Admitted(domain: string, parts: seq<string>, payload: seq<Prop>)

  /**
   * The checks of `onMessage` up to the payload: a valid topic, at least
   * two levels, a known root domain, `status` as the second level, and a
   * payload that owns a `v`.
   */
  function Admission(topic: string, message: Value, parse: string -> Option<Value>, rootDomains: seq<Value>): (r: Intake)
    ensures r.Admitted? ==> topic != "" && IsValidTopic(topic) && Split(topic, '/') == [r.domain, EVENT_STATUS] + r.parts
    ensures r.Admitted? ==> ConfigFilter.AnyIncludes(rootDomains, Str(r.domain)) && HasKey(r.payload, "v")
    ensures r.Admitted? ==> ConfigReply.PayloadOf(message, parse) == Obj(r.payload)
  {
    if topic != "" && !IsValidTopic(topic) then Refused(Error("Topic \"" + topic + "\" invalid"))
    else
      var parts := if topic != "" then Split(topic, '/') else [];
      if topic != "" && |parts| == 1 then Ignored
      else
        var domain := if parts == [] then Undefined else Str(parts[0]);
        if !ConfigFilter.AnyIncludes(rootDomains, domain) then Refused(Error("Domain \"" + ToStr(domain) + "\" not found"))
        else if |parts| < 2 || parts[1] != EVENT_STATUS then Ignored
        else
          var payload := ConfigReply.PayloadOf(message, parse);
          match HasProperty(payload, "v")
          case Err(e) => Refused(e)
          case Ok(has) =>
            if !has then Refused(Error("Content of payload invalid"))
            else
              assert payload.Obj? by {
                assert HasOwn(payload, "v") == Ok(true);
              }
              assert parts == [parts[0], parts[1]] + parts[2..];
              Admitted(parts[0], parts[2..], payload.props)
  }

  /** A message on a known domain's status topic whose payload owns a `v` is admitted. */
  lemma AdmissionAccepts(topic: string, message: Value, parse: string -> Option<Value>, rootDomains: seq<Value>,
                         domain: string, parts: seq<string>)
    requires topic != "" && IsValidTopic(topic) && Split(topic, '/') == [domain, EVENT_STATUS] + parts
    requires ConfigFilter.AnyIncludes(rootDomains, Str(domain))
    requires HasProperty(ConfigReply.PayloadOf(message, parse), "v") == Ok(true)
    ensures Admission(topic, message, parse, rootDomains)
         == Admitted(domain, parts, ConfigReply.PayloadOf(message, parse).props)
  {
    var all := Split(topic, '/');
    assert all[0] == domain && all[1] == EVENT_STATUS && all[2..] == parts;
  }

  /** An empty topic is never admitted, and a string message always has a payload to admit. */
  lemma AdmissionEmptyTopic(message: Value, parse: string -> Option<Value>, rootDomains: seq<Value>)
    ensures !Admission("", message, parse, rootDomains).Admitted?
  {
  }

  /** A topic whose first level is not a root domain is refused. */
  lemma AdmissionUnknownDomain(topic: string, message: Value, parse: string -> Option<Value>, rootDomains: seq<Value>)
    requires topic != "" && IsValidTopic(topic) && |Split(topic, '/')| > 1
    requires !ConfigFilter.AnyIncludes(rootDomains, Str(Split(topic, '/')[0]))
    ensures Admission(topic, message, parse, rootDomains).Refused?
  {
  }

  // ---------------------------------------------------------------------
  // The reply message
  // ---------------------------------------------------------------------

  /** The fields after the spread item, in the order of the object literal. */
  function Tail(value: Value, valuePrevious: Value, qos: Value, retain: Value, ts: Value, tsPrevious: Value, s: Value,
                change: Value, cache: Value, source: Value): seq<Prop>
  {
    [Prop("value", value), Prop("valuePrevious", valuePrevious), Prop("qos", qos), Prop("retain", retain),
     Prop("ts", ts), Prop("tsPrevious", tsPrevious), Prop("s", s), Prop("change", change), Prop("cache", cache),
     Prop("source", source)]
  }

  /** The tail of a reply for a saved record. */
  function ReplyTail(record: seq<Prop>, qos: Value, retain: Value, now: int, source: string): seq<Prop> {
    Tail(GetProp(record, "v"), GetProp(record, "vP"), qos, retain, Or(GetProp(record, "ts"), Num(now)),
         GetProp(record, "tsP"), Or(GetProp(record, "s"), Num(0)), GetProp(record, "change"), GetProp(record, "cache"),
         Str(source))
  }

  /** `{topic, payload, ...item, value, valuePrevious, qos, retain, ts, tsPrevious, s, change, cache, source}` */
  function ReplyOf(topic: Value, payload: Value, item: seq<Prop>, record: seq<Prop>, qos: Value, retain: Value,
                   now: int, source: string): seq<Prop>
  {
    SetAll(SetAll([Prop("topic", topic), Prop("payload", payload)], item), ReplyTail(record, qos, retain, now, source))
  }

  lemma TailDistinct(value: Value, valuePrevious: Value, qos: Value, retain: Value, ts: Value, tsPrevious: Value,
                     s: Value, change: Value, cache: Value, source: Value)
    ensures DistinctKeys(Tail(value, valuePrevious, qos, retain, ts, tsPrevious, s, change, cache, source))
  {
    var t := Tail(value, valuePrevious, qos, retain, ts, tsPrevious, s, change, cache, source);
    forall i, j | 0 <= i < j < |t| ensures t[i].key != t[j].key {
      assert |t[i].key| != |t[j].key| || t[i].key[0] != t[j].key[0];
    }
  }

  lemma ReplyTailDistinct(record: seq<Prop>, qos: Value, retain: Value, now: int, source: string)
    ensures DistinctKeys(ReplyTail(record, qos, retain, now, source))
  {
    TailDistinct(GetProp(record, "v"), GetProp(record, "vP"), qos, retain, Or(GetProp(record, "ts"), Num(now)),
                 GetProp(record, "tsP"), Or(GetProp(record, "s"), Num(0)), GetProp(record, "change"),
                 GetProp(record, "cache"), Str(source));
  }

  /**
   * The fixed fields of a reply: the value, the previous value and
   * timestamp, the flags of the saved record, the timestamp (now when the
   * record has none), the status (0 when it has none) and the source; the
   * item cannot override any of them.
   */
  lemma ReplyFields(topic: Value, payload: Value, item: seq<Prop>, record: seq<Prop>, qos: Value, retain: Value,
                    now: int, source: string)
    ensures var r := ReplyOf(topic, payload, item, record, qos, retain, now, source);
      && GetProp(r, "value") == GetProp(record, "v")
      && GetProp(r, "valuePrevious") == GetProp(record, "vP")
      && GetProp(r, "qos") == qos
      && GetProp(r, "retain") == retain
      && GetProp(r, "ts") == (if Truthy(GetProp(record, "ts")) then GetProp(record, "ts") else Num(now))
      && GetProp(r, "tsPrevious") == GetProp(record, "tsP")
      && GetProp(r, "s") == (if Truthy(GetProp(record, "s")) then GetProp(record, "s") else Num(0))
      && GetProp(r, "change") == GetProp(record, "change")
      && GetProp(r, "cache") == GetProp(record, "cache")
      && GetProp(r, "source") == Str(source)
  {
    var t := ReplyTail(record, qos, retain, now, source);
    var base := SetAll([Prop("topic", topic), Prop("payload", payload)], item);
    ReplyTailDistinct(record, qos, retain, now, source);
    SetAllAt(base, t, 0);
    SetAllAt(base, t, 1);
    SetAllAt(base, t, 2);
    SetAllAt(base, t, 3);
    SetAllAt(base, t, 4);
    SetAllAt(base, t, 5);
    SetAllAt(base, t, 6);
    SetAllAt(base, t, 7);
    SetAllAt(base, t, 8);
    SetAllAt(base, t, 9);
  }

  /** A field of the spread source has, after the spread, its value in the source. */
  lemma SetAllAt(base: seq<Prop>, t: seq<Prop>, i: nat)
    requires DistinctKeys(t) && i < |t|
    ensures Lookup(SetAll(base, t), t[i].key) == Some(t[i].val)
  {
    assert HasKey(t, t[i].key);
    SetAllGet(base, t, t[i].key);
    LookupAt(t, i);
  }

  /** Any other field of the item reaches the reply unchanged. */
  lemma ReplyCarriesItem(topic: Value, payload: Value, item: seq<Prop>, record: seq<Prop>, qos: Value, retain: Value,
                         now: int, source: string, k: string)
    requires DistinctKeys(item) && HasKey(item, k)
    requires !HasKey(ReplyTail(record, qos, retain, now, source), k)
    ensures Lookup(ReplyOf(topic, payload, item, record, qos, retain, now, source), k) == Lookup(item, k)
  {
    var t := ReplyTail(record, qos, retain, now, source);
    var base := SetAll([Prop("topic", topic), Prop("payload", payload)], item);
    ReplyTailDistinct(record, qos, retain, now, source);
    SetAllGet(base, t, k);
    SetAllGet([Prop("topic", topic), Prop("payload", payload)], item, k);
  }

  /**
   * The reply of `onMessage` once the payload is saved, or the exception
   * that ends the handler: with the user context on, a device message
   * without an item fails when the node stores it, and reading `qos` of a
   * missing packet fails.
   */
  function MessageReply(topic: string, saved: seq<Prop>, item: ConfigReply.Reply, packet: Value, usecontext: bool,
                        domain: string, now: int): (r: Result<seq<Prop>>)
    ensures r.Err? <==> (usecontext && ConfigReply.IsDeviceDomain(domain) && item.Skip?) || !Defined(packet)
  {
    if usecontext && ConfigReply.IsDeviceDomain(domain) && item.Skip? then Err(TypeError)
    else if !Defined(packet) then Err(TypeError)
    else
      var spread := if item.Item? then item.props else [];
      Ok(ReplyOf(Str(topic), GetProp(saved, "v"), spread, saved,
                 Or(Field(packet, "qos"), Num(0)), Or(Field(packet, "retain"), Bool(false)), now, "onMessage"))
  }

  // ---------------------------------------------------------------------
  // onMessage: the fan-out to the consumers
  // ---------------------------------------------------------------------

  /** The consumer records, the events emitted so far, and whether a filter threw and ended the loop. */
  datatype Delivery = Delivery(consumers: map<string, Consumer>, events: seq<Event>, threw: bool)

  /** `applyFilter` treats a filter that is not an object as absent. */
  function AsFilter(filter: Value): Option<seq<Prop>> {
    if filter.Obj? then Some(filter.props) else None
  }

  /** The filter a consumer keeps after `applyFilter` rewrote it in place. */
  function Rewritten(filter: Value, f: Option<seq<Prop>>): Value {
    if f.Some? then Obj(f.value) else filter
  }

  /** The filter's verdict on a consumer. */
  function Verdict(k: Consumer, topic: string, saved: seq<Prop>, additions: Value, test: Matcher): ConfigFilter.Filtered {
    ConfigFilter.Apply(AsFilter(k.filter), ConfigFilter.Context(topic, saved, additions, k.whitelisted, test))
  }

  /**
   * One pass of the loop over the consumers: a consumer holding its event
   * id is judged by its filter; on a match the topic joins its whitelist
   * and the reply is emitted to it; a filter that throws ends the loop.
   */
  function DeliverTo(d: Delivery, c: string, cfgId: string, topic: string, saved: seq<Prop>, additions: Value,
                     test: Matcher, reply: Value): (r: Delivery)
    ensures r.consumers.Keys == d.consumers.Keys
  {
    if d.threw || !Subscribed(d.consumers, EVENT_EVENT, cfgId, c) then d
    else
      var k := d.consumers[c];
      var f := Verdict(k, topic, saved, additions, test);
      var filter := Rewritten(k.filter, f.filter);
      match f.outcome
      case Accepted =>
        Delivery(d.consumers[c := k.(filter := filter, whitelisted := k.whitelisted + {topic})],
                 d.events + [Event(SubscriptionId(EVENT_EVENT, cfgId, c), reply)], false)
      case Rejected => Delivery(d.consumers[c := k.(filter := filter)], d.events, false)
      case Threw => Delivery(d.consumers[c := k.(filter := filter)], d.events, true)
  }

  /** The loop of `onMessage` over the consumers in registration order. */
  function Deliver(order: seq<string>, consumers: map<string, Consumer>, cfgId: string, topic: string,
                   saved: seq<Prop>, additions: Value, test: Matcher, reply: Value): (r: Delivery)
    ensures r.consumers.Keys == consumers.Keys
    ensures |r.events| <= |order|
    decreases |order|
  {
    if order == [] then Delivery(consumers, [], false)
    else DeliverTo(Deliver(order[..|order| - 1], consumers, cfgId, topic, saved, additions, test, reply),
                   order[|order| - 1], cfgId, topic, saved, additions, test, reply)
  }

  /** A pass changes at most the one consumer it visits, and never a subscription. */
  lemma DeliverToFrame(d: Delivery, c: string, cfgId: string, topic: string, saved: seq<Prop>, additions: Value,
                       test: Matcher, reply: Value)
    ensures var r := DeliverTo(d, c, cfgId, topic, saved, additions, test, reply);
      && (forall x :: x in d.consumers && x != c ==> r.consumers[x] == d.consumers[x])
      && (forall x :: x in d.consumers ==> r.consumers[x].subscriptions == d.consumers[x].subscriptions)
      && (forall x :: x in d.consumers ==> d.consumers[x].whitelisted <= r.consumers[x].whitelisted
                                         <= d.consumers[x].whitelisted + {topic})
      && (d.threw ==> r == d)
  {
  }

  /** A pass emits at most one event, to the consumer it visits, and adds the topic to its whitelist exactly then. */
  lemma DeliverToEvent(d: Delivery, c: string, cfgId: string, topic: string, saved: seq<Prop>, additions: Value,
                       test: Matcher, reply: Value)
    ensures var r := DeliverTo(d, c, cfgId, topic, saved, additions, test, reply);
      && (r.events == d.events || (r.events == d.events + [Event(SubscriptionId(EVENT_EVENT, cfgId, c), reply)]
                                   && Subscribed(d.consumers, EVENT_EVENT, cfgId, c)))
      && (c in d.consumers ==>
            (topic in r.consumers[c].whitelisted <==> topic in d.consumers[c].whitelisted || r.events != d.events))
  {
  }

  /** The visit of a consumer is the pass over the last consumer of the loop. */
  lemma DeliverSnoc(order: seq<string>, c: string, consumers: map<string, Consumer>, cfgId: string, topic: string,
                    saved: seq<Prop>, additions: Value, test: Matcher, reply: Value)
    ensures Deliver(order + [c], consumers, cfgId, topic, saved, additions, test, reply)
         == DeliverTo(Deliver(order, consumers, cfgId, topic, saved, additions, test, reply), c, cfgId, topic, saved,
                      additions, test, reply)
  {
    assert (order + [c])[..|order|] == order;
  }

  /** The loop over the first `i + 1` consumers is the loop over the first `i` followed by a pass over the next. */
  lemma DeliverStep(order: seq<string>, i: nat, consumers: map<string, Consumer>, cfgId: string, topic: string,
                    saved: seq<Prop>, additions: Value, test: Matcher, reply: Value)
    requires i < |order|
    ensures Deliver(order[..i + 1], consumers, cfgId, topic, saved, additions, test, reply)
         == DeliverTo(Deliver(order[..i], consumers, cfgId, topic, saved, additions, test, reply), order[i], cfgId,
                      topic, saved, additions, test, reply)
  {
    assert order[..i + 1][..i] == order[..i];
  }

  /** The loop changes no subscription, and each whitelist at most gains the topic. */
  lemma {:induction false} DeliverFrame(order: seq<string>, consumers: map<string, Consumer>, cfgId: string, topic: string,
                                        saved: seq<Prop>, additions: Value, test: Matcher, reply: Value)
    ensures var r := Deliver(order, consumers, cfgId, topic, saved, additions, test, reply);
      forall x :: x in consumers ==>
        && r.consumers[x].subscriptions == consumers[x].subscriptions
        && consumers[x].whitelisted <= r.consumers[x].whitelisted <= consumers[x].whitelisted + {topic}
        && (x !in order ==> r.consumers[x] == consumers[x])
    decreases |order|
  {
    if order != [] {
      var front := order[..|order| - 1];
      var last := order[|order| - 1];
      DeliverFrame(front, consumers, cfgId, topic, saved, additions, test, reply);
      DeliverToFrame(Deliver(front, consumers, cfgId, topic, saved, additions, test, reply), last, cfgId, topic,
                     saved, additions, test, reply);
      forall x | x in front ensures x in order {
        var i :| 0 <= i < |front| && front[i] == x;
        assert order[i] == x;
      }
    }
  }

  /** The event is the reply, emitted to a consumer in `order` that holds its event id. */
  ghost predicate SentTo(e: Event, order: seq<string>, consumers: map<string, Consumer>, cfgId: string, reply: Value) {
    exists c :: c in order && Subscribed(consumers, EVENT_EVENT, cfgId, c) && e == Event(SubscriptionId(EVENT_EVENT, cfgId, c), reply)
  }

  /** Every event of the loop is the reply, emitted to a consumer of the loop that holds its event id. */
  lemma {:induction false} DeliverEvents(order: seq<string>, consumers: map<string, Consumer>, cfgId: string, topic: string,
                                         saved: seq<Prop>, additions: Value, test: Matcher, reply: Value)
    ensures forall e :: e in Deliver(order, consumers, cfgId, topic, saved, additions, test, reply).events ==>
              SentTo(e, order, consumers, cfgId, reply)
    decreases |order|
  {
    if order != [] {
      var front := order[..|order| - 1];
      var last := order[|order| - 1];
      var before := Deliver(front, consumers, cfgId, topic, saved, additions, test, reply);
      var r := Deliver(order, consumers, cfgId, topic, saved, additions, test, reply);
      DeliverEvents(front, consumers, cfgId, topic, saved, additions, test, reply);
      DeliverFrame(front, consumers, cfgId, topic, saved, additions, test, reply);
      DeliverToEvent(before, last, cfgId, topic, saved, additions, test, reply);
      forall e | e in r.events ensures SentTo(e, order, consumers, cfgId, reply) {
        if e in before.events {
          assert SentTo(e, front, consumers, cfgId, reply);
          var c :| c in front && Subscribed(consumers, EVENT_EVENT, cfgId, c)
                   && e == Event(SubscriptionId(EVENT_EVENT, cfgId, c), reply);
          var k :| 0 <= k < |front| && front[k] == c;
          assert order[k] == c;
        } else {
          assert order[|order| - 1] == last;
          assert Subscribed(consumers, EVENT_EVENT, cfgId, last);
        }
      }
    }
  }

  /** A consumer the loop has not reached has been sent nothing. */
  lemma NotReached(order: seq<string>, consumers: map<string, Consumer>, cfgId: string, topic: string,
                   saved: seq<Prop>, additions: Value, test: Matcher, reply: Value, c: string)
    requires c !in order
    ensures Event(SubscriptionId(EVENT_EVENT, cfgId, c), reply)
            !in Deliver(order, consumers, cfgId, topic, saved, additions, test, reply).events
  {
    var r := Deliver(order, consumers, cfgId, topic, saved, additions, test, reply);
    DeliverEvents(order, consumers, cfgId, topic, saved, additions, test, reply);
    forall e | e in r.events ensures e != Event(SubscriptionId(EVENT_EVENT, cfgId, c), reply) {
      assert SentTo(e, order, consumers, cfgId, reply);
      var d :| d in order && Subscribed(consumers, EVENT_EVENT, cfgId, d)
               && e == Event(SubscriptionId(EVENT_EVENT, cfgId, d), reply);
      SubscriptionIdInjective(EVENT_EVENT, EVENT_EVENT, cfgId, c, d);
    }
  }

  /**
   * After the loop, a consumer's whitelist holds the topic exactly when it
   * held it before or the reply was emitted to that consumer.
   */
  lemma {:induction false} DeliverWhitelist(order: seq<string>, consumers: map<string, Consumer>, cfgId: string,
                                            topic: string, saved: seq<Prop>, additions: Value, test: Matcher,
                                            reply: Value, c: string)
    requires Registry(order, consumers) && c in consumers
    ensures var r := Deliver(order, consumers, cfgId, topic, saved, additions, test, reply);
      topic in r.consumers[c].whitelisted
      <==> topic in consumers[c].whitelisted || Event(SubscriptionId(EVENT_EVENT, cfgId, c), reply) in r.events
  {
    var i :| 0 <= i < |order| && order[i] == c;
    var upto := order[..i + 1];
    var front := order[..i];
    var rest := order[i + 1..];
    DistinctSplit(order, i);
    assert upto == front + [c];
    assert order == upto + rest;
    DeliverVisit(front, consumers, cfgId, topic, saved, additions, test, reply, c);
    // After c's pass: c's record and c's events stay as they are.
    DeliverRest(upto, rest, consumers, cfgId, topic, saved, additions, test, reply, c);
  }

  /** Up to and including its own pass, a consumer gains the topic exactly when it is sent the reply. */
  lemma DeliverVisit(front: seq<string>, consumers: map<string, Consumer>, cfgId: string, topic: string,
                     saved: seq<Prop>, additions: Value, test: Matcher, reply: Value, c: string)
    requires c !in front && c in consumers
    ensures var at := Deliver(front + [c], consumers, cfgId, topic, saved, additions, test, reply);
      topic in at.consumers[c].whitelisted
      <==> topic in consumers[c].whitelisted || Event(SubscriptionId(EVENT_EVENT, cfgId, c), reply) in at.events
  {
    // Before c's pass: untouched, nothing sent.
    var before := Deliver(front, consumers, cfgId, topic, saved, additions, test, reply);
    DeliverFrame(front, consumers, cfgId, topic, saved, additions, test, reply);
    NotReached(front, consumers, cfgId, topic, saved, additions, test, reply, c);
    assert before.consumers[c] == consumers[c];
    // c's pass.
    DeliverSnoc(front, c, consumers, cfgId, topic, saved, additions, test, reply);
    DeliverToEvent(before, c, cfgId, topic, saved, additions, test, reply);
  }

  /** In a list without repetitions, an element occurs neither before nor after its own place. */
  lemma DistinctSplit(order: seq<string>, i: nat)
    requires Distinct(order) && i < |order|
    ensures order[i] !in order[..i] && order[i] !in order[i + 1..]
  {
    forall j | 0 <= j < i ensures order[..i][j] != order[i] {
      assert order[j] != order[i];
    }
    var rest := order[i + 1..];
    forall j | 0 <= j < |rest| ensures rest[j] != order[i] {
      assert rest[j] == order[i + 1 + j];
    }
  }

  /** The passes after a consumer's own leave its record and the events sent to it alone. */
  lemma {:induction false} DeliverRest(upto: seq<string>, rest: seq<string>, consumers: map<string, Consumer>,
                                       cfgId: string, topic: string, saved: seq<Prop>, additions: Value,
                                       test: Matcher, reply: Value, c: string)
    requires c !in rest && c in consumers
    ensures var at := Deliver(upto, consumers, cfgId, topic, saved, additions, test, reply);
      var r := Deliver(upto + rest, consumers, cfgId, topic, saved, additions, test, reply);
      && r.consumers[c] == at.consumers[c]
      && (Event(SubscriptionId(EVENT_EVENT, cfgId, c), reply) in r.events
          <==> Event(SubscriptionId(EVENT_EVENT, cfgId, c), reply) in at.events)
    decreases |rest|
  {
    if rest != [] {
      var front := rest[..|rest| - 1];
      var last := rest[|rest| - 1];
      assert last in rest;
      assert c !in front by {
        forall j | 0 <= j < |front| ensures front[j] != c {
          assert rest[j] == front[j];
        }
      }
      DeliverRest(upto, front, consumers, cfgId, topic, saved, additions, test, reply, c);
      assert upto + rest == (upto + front) + [last];
      DeliverSnoc(upto + front, last, consumers, cfgId, topic, saved, additions, test, reply);
      var mid := Deliver(upto + front, consumers, cfgId, topic, saved, additions, test, reply);
      DeliverToFrame(mid, last, cfgId, topic, saved, additions, test, reply);
      DeliverToEvent(mid, last, cfgId, topic, saved, additions, test, reply);
      SubscriptionIdInjective(EVENT_EVENT, EVENT_EVENT, cfgId, c, last);
    } else {
      assert upto + rest == upto;
    }
  }

  /** The loop emits to each consumer at most once. */
  lemma {:induction false} DeliverOnce(order: seq<string>, consumers: map<string, Consumer>, cfgId: string, topic: string,
                                       saved: seq<Prop>, additions: Value, test: Matcher, reply: Value)
    requires Distinct(order)
    ensures forall i, j :: 0 <= i < j < |Deliver(order, consumers, cfgId, topic, saved, additions, test, reply).events| ==>
              Deliver(order, consumers, cfgId, topic, saved, additions, test, reply).events[i].id
              != Deliver(order, consumers, cfgId, topic, saved, additions, test, reply).events[j].id
    decreases |order|
  {
    if order != [] {
      var front := order[..|order| - 1];
      var last := order[|order| - 1];
      var before := Deliver(front, consumers, cfgId, topic, saved, additions, test, reply);
      var r := Deliver(order, consumers, cfgId, topic, saved, additions, test, reply);
      DeliverOnce(front, consumers, cfgId, topic, saved, additions, test, reply);
      DeliverToEvent(before, last, cfgId, topic, saved, additions, test, reply);
      assert r == DeliverTo(before, last, cfgId, topic, saved, additions, test, reply);
      if r.events != before.events {
        assert r.events == before.events + [Event(SubscriptionId(EVENT_EVENT, cfgId, last), reply)];
        assert last !in front by {
          forall j | 0 <= j < |front| ensures front[j] != last {
            assert order[j] != order[|order| - 1];
          }
        }
        DeliverEvents(front, consumers, cfgId, topic, saved, additions, test, reply);
        forall i | 0 <= i < |before.events| ensures before.events[i].id != SubscriptionId(EVENT_EVENT, cfgId, last) {
          assert before.events[i] in before.events;
          assert SentTo(before.events[i], front, consumers, cfgId, reply);
          var d :| d in front && Subscribed(consumers, EVENT_EVENT, cfgId, d)
                   && before.events[i] == Event(SubscriptionId(EVENT_EVENT, cfgId, d), reply);
          SubscriptionIdInjective(EVENT_EVENT, EVENT_EVENT, cfgId, d, last);
        }
        forall i, j | 0 <= i < j < |r.events| ensures r.events[i].id != r.events[j].id {
          assert r.events[i] == before.events[i];
          if j < |before.events| {
            assert r.events[j] == before.events[j];
          }
        }
      }
    }
  }

  /** Once a filter has thrown, the rest of the loop does nothing. */
  lemma {:induction false} DeliverStopped(order: seq<string>, n: nat, consumers: map<string, Consumer>, cfgId: string,
                                          topic: string, saved: seq<Prop>, additions: Value, test: Matcher, reply: Value)
    requires n <= |order| && Deliver(order[..n], consumers, cfgId, topic, saved, additions, test, reply).threw
    ensures Deliver(order, consumers, cfgId, topic, saved, additions, test, reply)
         == Deliver(order[..n], consumers, cfgId, topic, saved, additions, test, reply)
    decreases |order|
  {
    if n < |order| {
      var front := order[..|order| - 1];
      assert front[..n] == order[..n];
      DeliverStopped(front, n, consumers, cfgId, topic, saved, additions, test, reply);
    } else {
      assert order[..n] == order;
    }
  }

  /** The enrichment bag the filters compare against: the item, or nothing. */
  function Additions(item: ConfigReply.Reply): (r: Value)
    ensures r.Obj? <==> item.Item?
  {
    if item.Item? then Obj(item.props) else Undefined
  }

  /** A consumer whose filter is an empty object receives every message the loop reaches it with. */
  lemma EmptyFilterReceives(d: Delivery, c: string, cfgId: string, topic: string, saved: seq<Prop>, additions: Value,
                            test: Matcher, reply: Value)
    requires !d.threw && Subscribed(d.consumers, EVENT_EVENT, cfgId, c) && d.consumers[c].filter == Obj([])
    ensures DeliverTo(d, c, cfgId, topic, saved, additions, test, reply).events
         == d.events + [Event(SubscriptionId(EVENT_EVENT, cfgId, c), reply)]
  {
  }

  // ---------------------------------------------------------------------
  // onInput
  // ---------------------------------------------------------------------

  /** `${error}` for a thrown error (a TypeError's message is not modelled). */
  function ErrorText(e: JsError): string {
    match e
    case TypeError => "TypeError"
    case Error(m) => "Error: " + m
  }

  /**
   * The status topic `onInput` answers for: a valid five-level topic (or
   * none), a defined packet, a known root domain (the topic's when it
   * names a device domain, otherwise the packet's), and a device, channel
   * and datapoint (each from the topic, else from the packet).
   */
  function InputTarget(rootDomains: seq<Value>, topic: string, packet: Value): (r: Result<(Value, Value, Value, Value)>)
    ensures topic != "" && (!IsValidTopic(topic) || |Split(topic, '/')| != 5) ==> r.Err?
    ensures !Defined(packet) ==> r.Err?
    ensures r.Ok? ==> ConfigFilter.AnyIncludes(rootDomains, r.value.0)
    ensures r.Ok? ==> Truthy(r.value.1) && Truthy(r.value.2) && Truthy(r.value.3)
  {
    if topic != "" && !IsValidTopic(topic) then Err(Error("Topic \"" + topic + "\" invalid"))
    else
      var parts := if topic != "" then Split(topic, '/') else [];
      if topic != "" && |parts| != 5 then Err(Error("Content of topic \"" + topic + "\" invalid"))
      else if !Defined(packet) then Err(TypeError)
      else
        var topicDomain := PartAt(parts, 0);
        var domain := if topicDomain == Str(DEVICE) || topicDomain == Str(VIRTDEV) then topicDomain
                      else Field(packet, "domain");
        if !ConfigFilter.AnyIncludes(rootDomains, domain) then Err(Error("Domain \"" + ToStr(domain) + "\" not found"))
        else
          var device := Or(PartAt(parts, 2), Field(packet, "device"));
          var channelIndex := Or(PartAt(parts, 3), Field(packet, "channelIndex"));
          var datapoint := Or(PartAt(parts, 4), Field(packet, "datapoint"));
          if !(Truthy(device) && Truthy(channelIndex) && Truthy(datapoint)) then
            Err(Error("Either device \"" + ToStr(device) + "\", channelIndex \"" + ToStr(channelIndex)
                      + "\" or datapoint \"" + ToStr(datapoint) + "\" not found"))
          else Ok((domain, device, channelIndex, datapoint))
  }

  /** The reply `onInput` builds for a consumer's request, or the error its checks throw. */
  function InputReply(tree: seq<Prop>, values: ConfigStore.Values, rootDomains: seq<Value>, topic: string,
                      message: Value, packet: Value, now: int): (r: Result<seq<Prop>>)
    ensures InputTarget(rootDomains, topic, packet).Err? ==> r == Err(InputTarget(rootDomains, topic, packet).error)
  {
    match InputTarget(rootDomains, topic, packet)
    case Err(e) => Err(e)
    case Ok((domain, device, channelIndex, datapoint)) =>
      InputRecord(tree, values, ToStr(domain), ToStr(device), ToStr(channelIndex), ToStr(datapoint), topic, message, now)
  }

  /** The last steps of `onInput`: the cached record of the status topic, its item and the reply. */
  function InputRecord(tree: seq<Prop>, values: ConfigStore.Values, domain: string, device: string, channel: string,
                       datapoint: string, topic: string, message: Value, now: int): (r: Result<seq<Prop>>)
    ensures r.Ok? <==> domain in values && StatusItem(domain, device, channel, datapoint) in values[domain]
                       && !ConfigReply.PrepareReply(tree, values, domain, [device, channel, datapoint],
                            GetProp(values[domain][StatusItem(domain, device, channel, datapoint)], "v")).Skip?
  {
    var statusItem := StatusItem(domain, device, channel, datapoint);
    if domain !in values || statusItem !in values[domain] then Err(TypeError)
    else
      var record := values[domain][statusItem];
      var item := ConfigReply.PrepareReply(tree, values, domain, [device, channel, datapoint], GetProp(record, "v"));
      if item.Skip? then Err(Error("No values found for \"" + statusItem + "\" in context store"))
      else Ok(ReplyOf(Str(topic), message, item.props, record, Or(GetProp(record, "qos"), Num(0)),
                      Or(GetProp(record, "retain"), Bool(false)), now, "onInput"))
  }

  /** `${domain}/status/${device}/${channelIndex}/${datapoint}` */
  function StatusItem(domain: string, device: string, channel: string, datapoint: string): string {
    domain + "/status/" + device + "/" + channel + "/" + datapoint
  }

  /** A reply built by `onInput` carries the cached value, the cached flags, and the request's message. */
  lemma InputRecordFields(tree: seq<Prop>, values: ConfigStore.Values, domain: string, device: string, channel: string,
                          datapoint: string, topic: string, message: Value, now: int)
    requires InputRecord(tree, values, domain, device, channel, datapoint, topic, message, now).Ok?
    ensures var record := values[domain][StatusItem(domain, device, channel, datapoint)];
      var r := InputRecord(tree, values, domain, device, channel, datapoint, topic, message, now).value;
      && GetProp(r, "value") == GetProp(record, "v")
      && GetProp(r, "cache") == GetProp(record, "cache")
      && GetProp(r, "change") == GetProp(record, "change")
      && GetProp(r, "source") == Str("onInput")
  {
    var statusItem := StatusItem(domain, device, channel, datapoint);
    var record := values[domain][statusItem];
    var item := ConfigReply.PrepareReply(tree, values, domain, [device, channel, datapoint], GetProp(record, "v"));
    ReplyFields(Str(topic), message, item.props, record, Or(GetProp(record, "qos"), Num(0)),
                Or(GetProp(record, "retain"), Bool(false)), now, "onInput");
  }

  /** A status topic of a device domain names its own record, whatever the packet says. */
  lemma InputFromStatusTopic(rootDomains: seq<Value>, topic: string, packet: Value,
                             domain: string, device: string, channel: string, datapoint: string)
    requires IsValidTopic(topic) && Split(topic, '/') == [domain, EVENT_STATUS, device, channel, datapoint]
    requires ConfigReply.IsDeviceDomain(domain) && ConfigFilter.AnyIncludes(rootDomains, Str(domain))
    requires device != "" && channel != "" && datapoint != "" && Defined(packet)
    ensures InputTarget(rootDomains, topic, packet) == Ok((Str(domain), Str(device), Str(channel), Str(datapoint)))
  {
    var parts := Split(topic, '/');
    assert PartAt(parts, 0) == Str(domain) && PartAt(parts, 2) == Str(device);
    assert PartAt(parts, 3) == Str(channel) && PartAt(parts, 4) == Str(datapoint);
  }

  /** The status item `onInput` looks up for a status topic's own levels is that topic. */
  lemma StatusItemOfTopic(topic: string, domain: string, device: string, channel: string, datapoint: string)
    requires Split(topic, '/') == [domain, EVENT_STATUS, device, channel, datapoint]
    ensures StatusItem(domain, device, channel, datapoint) == topic
  {
    var parts := Split(topic, '/');
    SplitJoin(topic, '/');
    assert parts[1..] == [EVENT_STATUS, device, channel, datapoint];
    assert parts[2..] == [device, channel, datapoint];
    assert parts[3..] == [channel, datapoint];
    assert parts[4..] == [datapoint];
    assert Join(parts[4..], '/') == datapoint;
    assert Join(parts[3..], '/') == channel + "/" + datapoint;
    assert Join(parts[2..], '/') == device + "/" + channel + "/" + datapoint;
    assert Join(parts[1..], '/') == EVENT_STATUS + "/" + device + "/" + channel + "/" + datapoint;
    assert Join(parts, '/') == domain + "/" + (EVENT_STATUS + "/" + device + "/" + channel + "/" + datapoint);
  }

  /** What `onInput` emits, and whether its error handler throws in turn. */
  datatype Answer = Answer(events: seq<Event>, thrown: bool)

  /**
   * The answer to a request: the reply on the consumer's value id, or the
   * error on its error id, each only when the consumer holds that id; for
   * an unknown consumer both the reply and the error handler throw.
   */
  function InputAnswer(consumers: map<string, Consumer>, cfgId: string, childId: string, topic: string, message: Value,
                       reply: Result<seq<Prop>>): Answer
  {
    if childId !in consumers then Answer([], true)
    else match reply
      case Ok(props) =>
        var id := SubscriptionId(EVENT_VALUE, cfgId, childId);
        if id in consumers[childId].subscriptions then Answer([Event(id, Obj(props))], false) else Answer([], false)
      case Err(e) =>
        var id := SubscriptionId(EVENT_ERROR, cfgId, childId);
        if id in consumers[childId].subscriptions then
          Answer([Event(id, Obj([Prop("topic", Str(topic)), Prop("message", message),
                                 Prop("error", Str("onInput: unable to process inputs - " + ErrorText(e)))]))], false)
        else Answer([], false)
  }

  /**
   * `onInput` answers at most once, only on the requesting consumer's value
   * id (with the reply) or error id (with the error), only when the
   * consumer holds that id, and throws exactly for an unknown consumer.
   */
  lemma InputAnswerSpec(consumers: map<string, Consumer>, cfgId: string, childId: string, topic: string, message: Value,
                        reply: Result<seq<Prop>>)
    ensures var a := InputAnswer(consumers, cfgId, childId, topic, message, reply);
      && |a.events| <= 1
      && (a.thrown <==> childId !in consumers)
      && (forall e :: e in a.events ==>
            (reply.Ok? && e == Event(SubscriptionId(EVENT_VALUE, cfgId, childId), Obj(reply.value)))
            || (reply.Err? && e.id == SubscriptionId(EVENT_ERROR, cfgId, childId)))
      && (forall e :: e in a.events ==> Subscribed(consumers, if reply.Ok? then EVENT_VALUE else EVENT_ERROR, cfgId, childId))
      && (reply.Ok? && Subscribed(consumers, EVENT_VALUE, cfgId, childId) ==> |a.events| == 1)
      && (reply.Err? && Subscribed(consumers, EVENT_ERROR, cfgId, childId) ==> |a.events| == 1)
  {
  }
}
