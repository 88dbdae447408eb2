/**
 * The configuration node object: its status, the context store (the
 * metadata tree and the payload cache), the root domains, the consumer
 * registry, the listener registry of its event emitter, and the log of
 * the events it has emitted.  Each handler changes these fields step by
 * step as the node does, and is proved against the value-level
 * definitions of `ConfigEvents`, `ConfigStore` and `ConfigReply`.
 */
module JackConfig {
  import opened Js
  import opened Utils
  import opened Constants
  import ConfigStore
  import ConfigFilter
  import ConfigReply
  import opened ConfigEvents

  /** The order, the consumer records and the listeners of a configuration node. */
  function RegistrationOf(jack: ConfigNode): Registration
    reads jack
  {
    Registration(jack.order, jack.consumers, jack.listeners)
  }

  class ConfigNode {
    /** `config.id`, `host`, `port` and `usecontext` of the node's configuration. */
    const cfgId: string
    const host: Value
    const port: Value
    const usecontext: bool

    var status: int
    /** The context store without its `values`. */
    var tree: seq<Prop>
    /** `contextStore.values`, the payload cache. */
    var values: ConfigStore.Values
    var rootDomains: seq<Value>
    /** The keys of `consumers` in insertion order, the order `for ... in` visits them. */
    var order: seq<string>
    var consumers: map<string, Consumer>
    /** How many listeners the event emitter holds for each event id. */
    var listeners: map<string, nat>
    /** Every `events.emit` so far, in order. */
    var emitted: seq<Event>

    ghost predicate Valid()
      reads this
    {
      Registry(order, consumers)
    }

    constructor(cfgId: string, host: Value, port: Value, usecontext: bool)
      ensures Valid()
      ensures this.cfgId == cfgId && this.host == host && this.port == port && this.usecontext == usecontext
      ensures status == BLANK && tree == [] && values == map[] && rootDomains == []
      ensures order == [] && consumers == map[] && listeners == map[] && emitted == []
    {
      this.cfgId := cfgId;
      this.host := host;
      this.port := port;
      this.usecontext := usecontext;
      status := BLANK;
      tree := [];
      values := map[];
      rootDomains := [];
      order := [];
      consumers := map[];
      listeners := map[];
      emitted := [];
    }

    // -------------------------------------------------------------------
    // Communication with child nodes
    // -------------------------------------------------------------------

    /**
     * `setStatus`: a valid status code becomes the status and is stamped
     * into the context store; then every consumer holding its status id is
     * sent the current status, whether or not it changed.
     */
    method SetStatus(statusType: Value, now: int)
      requires Valid()
      modifies this
      ensures Valid()
      ensures status == (if IsStatusCode(statusType) then statusType.n else old(status))
      ensures tree == (if IsStatusCode(statusType)
                       then SetProp(SetProp(old(tree), "ts", Num(now)), "status", StatusName(statusType.n))
                       else old(tree))
      ensures emitted == old(emitted) + StatusEvents(order, consumers, cfgId, StatusReport(status, rootDomains))
      ensures values == old(values) && rootDomains == old(rootDomains) && order == old(order)
      ensures consumers == old(consumers) && listeners == old(listeners)
    {
      if IsStatusCode(statusType) {
        status := statusType.n;
        tree := SetProp(tree, "ts", Num(now));
        tree := SetProp(tree, "status", StatusName(status));
      }
      var events := StatusEventsOf(order, consumers, cfgId, StatusReport(status, rootDomains));
      emitted := emitted + events;
    }

    /**
     * `register`: a child replaces any earlier record under its id with a
     * fresh one holding just this subscription, gains a listener, and
     * every consumer is sent the current status.
     */
    method Register(child: Option<Child>, eventType: string) returns (ok: bool)
      requires Valid()
      modifies this
      ensures Valid()
      ensures ok <==> child.Some?
      ensures !ok ==> consumers == old(consumers) && order == old(order) && listeners == old(listeners)
                      && emitted == old(emitted)
      ensures ok ==>
        var id := SubscriptionId(eventType, cfgId, child.value.id);
        && consumers == old(consumers)[child.value.id := Consumer({id}, Obj([]), {})]
        && order == (if child.value.id in old(consumers) then old(order) else old(order) + [child.value.id])
        && listeners == AddListener(old(listeners), id)
        && emitted == old(emitted) + StatusEvents(order, consumers, cfgId, StatusReport(status, rootDomains))
      ensures status == old(status) && tree == old(tree) && values == old(values) && rootDomains == old(rootDomains)
    {
      if child.None? {
        return false;
      }
      var c := child.value.id;
      var id := SubscriptionId(eventType, cfgId, c);
      RegisterRegistry(order, consumers, c, Consumer({id}, Obj([]), {}));
      if c !in consumers {
        order := order + [c];
      }
      consumers := consumers[c := Consumer({id}, Obj([]), {})];
      listeners := AddListener(listeners, id);
      SetStatus(Undefined, 0);
      return true;
    }

    /** `unsubscribe` as intended: the emitter drops the listeners of the id (as written it throws, see `ConfigEvents.RemoveListener`). */
    method Unsubscribe(id: string) returns (ok: bool)
      modifies this
      ensures ok
      ensures listeners == old(listeners) - {id}
      ensures status == old(status) && tree == old(tree) && values == old(values) && rootDomains == old(rootDomains)
      ensures order == old(order) && consumers == old(consumers) && emitted == old(emitted)
    {
      listeners := listeners - {id};
      return true;
    }

    /**
     * `deregister`: a registered child loses the listeners of all its
     * subscriptions and its record; an unknown child is refused.
     */
    method Deregister(childId: string) returns (ok: bool)
      requires Valid()
      modifies this
      ensures Valid()
      ensures ok <==> childId in old(consumers)
      ensures !ok ==> consumers == old(consumers) && order == old(order) && listeners == old(listeners)
      ensures ok ==> listeners == old(listeners) - old(consumers)[childId].subscriptions
                     && consumers == old(consumers) - {childId} && order == Without(old(order), childId)
      ensures Registration(order, consumers, listeners) == Deregistered(Registration(old(order), old(consumers), old(listeners)), childId)
      ensures status == old(status) && tree == old(tree) && values == old(values) && rootDomains == old(rootDomains)
      ensures emitted == old(emitted)
    {
      if childId !in consumers {
        return false;
      }
      var subscriptions := consumers[childId].subscriptions;
      var todo := subscriptions;
      while todo != {}
        invariant todo <= subscriptions
        invariant listeners == old(listeners) - (subscriptions - todo)
        invariant status == old(status) && tree == old(tree) && values == old(values) && rootDomains == old(rootDomains)
        invariant order == old(order) && consumers == old(consumers) && emitted == old(emitted)
        decreases |todo|
      {
        var id :| id in todo;
        var _ := Unsubscribe(id);
        todo := todo - {id};
      }
      WithoutRegistry(order, consumers, childId);
      consumers := consumers - {childId};
      order := Without(order, childId);
      return true;
    }

    /**
     * `subscribe`: refused without a child, without a callback, or with a
     * filter naming a property outside the allowed ones; otherwise a
     * registered child gains the subscription and the filter, and the
     * emitter a listener in any case.
     */
    method Subscribe(child: Option<Child>, eventType: string, callbackIsFunction: bool) returns (ok: bool)
      requires Valid()
      modifies this
      ensures Valid()
      ensures ok <==> child.Some? && callbackIsFunction && FilterAllowed(FilterOf(child.value))
      ensures !ok ==> consumers == old(consumers) && listeners == old(listeners)
      ensures ok ==>
        var c := child.value.id;
        var id := SubscriptionId(eventType, cfgId, c);
        && listeners == AddListener(old(listeners), id)
        && consumers == (if c != "" && c in old(consumers)
                         then old(consumers)[c := old(consumers)[c].(subscriptions := old(consumers)[c].subscriptions + {id},
                                                                     filter := FilterOf(child.value))]
                         else old(consumers))
      ensures status == old(status) && tree == old(tree) && values == old(values) && rootDomains == old(rootDomains)
      ensures order == old(order) && emitted == old(emitted)
    {
      if child.None? || !callbackIsFunction {
        return false;
      }
      var filter := FilterOf(child.value);
      var allowed := CheckFilter(OwnKeys(filter).value);
      if !allowed {
        return false;
      }
      var c := child.value.id;
      var id := SubscriptionId(eventType, cfgId, c);
      if c != "" && c in consumers {
        consumers := consumers[c := consumers[c].(subscriptions := consumers[c].subscriptions + {id}, filter := filter)];
      }
      listeners := AddListener(listeners, id);
      return true;
    }

    // -------------------------------------------------------------------
    // The context store
    // -------------------------------------------------------------------

    /** `savePayload`: the payload, classified against the record it replaces, becomes the topic's record. */
    method SavePayload(domain: string, topic: string, payload: seq<Prop>) returns (saved: seq<Prop>)
      modifies this
      ensures saved == ConfigStore.Classify(ConfigStore.Previous(old(values), domain, topic), payload)
      ensures values == ConfigStore.Saved(old(values), domain, topic, payload)
      ensures values[domain][topic] == saved
      ensures status == old(status) && tree == old(tree) && rootDomains == old(rootDomains)
      ensures order == old(order) && consumers == old(consumers) && listeners == old(listeners) && emitted == old(emitted)
    {
      if domain !in values {
        values := values[domain := map[]];
      }
      var prev := if topic in values[domain] then Some(values[domain][topic]) else None;
      saved := ConfigStore.Classify(prev, payload);
      values := values[domain := values[domain][topic := saved]];
    }

    /**
     * `start`: the status goes to CONNECTING; after the discovery the
     * requests fill the context store and the root domains, and the
     * status ends CONNECTED, or ERROR when the discovery or a request
     * failed.
     */
    method Start(discovered: bool, replies: ConfigStore.Replies, now: int)
      requires Valid()
      modifies this
      ensures Valid()
      ensures old(rootDomains) <= rootDomains
      ensures var t0 := SetProp(SetProp(old(tree), "ts", Num(now)), "status", StatusName(CONNECTING));
        var s := ConfigStore.Start(t0, old(rootDomains), host, port, now, StatusName(CONNECTING), replies);
        && status == (if discovered && s.error.None? then CONNECTED else ERROR)
        && rootDomains == (if discovered then s.rootDomains else old(rootDomains))
        && tree == SetProp(SetProp(if discovered then s.tree else t0, "ts", Num(now)), "status", StatusName(status))
      ensures emitted == old(emitted) + StatusEvents(order, consumers, cfgId, StatusReport(CONNECTING, old(rootDomains)))
                                      + StatusEvents(order, consumers, cfgId, StatusReport(status, rootDomains))
      ensures values == old(values) && order == old(order) && consumers == old(consumers) && listeners == old(listeners)
    {
      SetStatus(Num(CONNECTING), now);
      if !discovered {
        SetStatus(Num(ERROR), now);
        return;
      }
      Connect(replies, now);
    }

    /**
     * The part of `start` after a successful discovery: the staged requests
     * fill the context store and the root domains, and the status becomes
     * CONNECTED, or ERROR when a stage failed.
     */
    method Connect(replies: ConfigStore.Replies, now: int)
      requires Valid()
      modifies this
      ensures Valid()
      ensures old(rootDomains) <= rootDomains
      ensures var s := ConfigStore.Start(old(tree), old(rootDomains), host, port, now, StatusName(old(status)), replies);
        && status == (if s.error.None? then CONNECTED else ERROR)
        && rootDomains == s.rootDomains
        && tree == SetProp(SetProp(s.tree, "ts", Num(now)), "status", StatusName(status))
      ensures emitted == old(emitted) + StatusEvents(order, consumers, cfgId, StatusReport(status, rootDomains))
      ensures values == old(values) && order == old(order) && consumers == old(consumers) && listeners == old(listeners)
    {
      var s := ConfigStore.Start(tree, rootDomains, host, port, now, StatusName(status), replies);
      ConfigStore.StartKeepsRootDomains(tree, rootDomains, host, port, now, StatusName(status), replies);
      tree := s.tree;
      rootDomains := s.rootDomains;
      if s.error.None? {
        SetStatus(Num(CONNECTED), now);
      } else {
        SetStatus(Num(ERROR), now);
      }
    }

    /** The `close` handler: the status goes to NOTCONNECTED and consumers are told. */
    method Close(now: int)
      requires Valid()
      modifies this
      ensures Valid()
      ensures status == NOTCONNECTED
      ensures tree == SetProp(SetProp(old(tree), "ts", Num(now)), "status", StatusName(NOTCONNECTED))
      ensures emitted == old(emitted) + StatusEvents(order, consumers, cfgId, StatusReport(NOTCONNECTED, rootDomains))
      ensures values == old(values) && rootDomains == old(rootDomains) && order == old(order)
      ensures consumers == old(consumers) && listeners == old(listeners)
    {
      SetStatus(Num(NOTCONNECTED), now);
    }

    // -------------------------------------------------------------------
    // Functions for child nodes
    // -------------------------------------------------------------------

    /**
     * `onMessage`: an admitted MQTT status message is saved, enriched, and
     * offered to every consumer holding its event id; a consumer whose
     * filter matches has the topic whitelisted and is sent the reply.  A
     * message that is not admitted changes nothing; a failure after the
     * save, or a filter that throws, ends the handler with what was done.
     */
    method OnMessage(topic: string, message: Value, packet: Value, parse: string -> Option<Value>, test: Matcher, now: int)
      requires Valid()
      modifies this
      ensures Valid()
      ensures var intake := Admission(topic, message, parse, old(rootDomains));
        !intake.Admitted? ==> values == old(values) && consumers == old(consumers) && emitted == old(emitted)
      ensures var intake := Admission(topic, message, parse, old(rootDomains));
        intake.Admitted? ==>
          var saved := ConfigStore.Classify(ConfigStore.Previous(old(values), intake.domain, topic), intake.payload);
          var item := ConfigReply.PrepareReply(tree, values, intake.domain, intake.parts, GetProp(saved, "v"));
          var reply := MessageReply(topic, saved, item, packet, usecontext, intake.domain, now);
          && values == ConfigStore.Saved(old(values), intake.domain, topic, intake.payload)
          && (reply.Err? ==> consumers == old(consumers) && emitted == old(emitted))
          && (reply.Ok? ==>
                var d := Deliver(order, old(consumers), cfgId, topic, saved, Additions(item), test, Obj(reply.value));
                consumers == d.consumers && emitted == old(emitted) + d.events)
      ensures status == old(status) && tree == old(tree) && rootDomains == old(rootDomains)
      ensures order == old(order) && listeners == old(listeners)
    {
      var intake := Admission(topic, message, parse, rootDomains);
      if !intake.Admitted? {
        return;
      }
      var saved := SavePayload(intake.domain, topic, intake.payload);
      var item := ConfigReply.PrepareReplyOf(tree, values, intake.domain, intake.parts, GetProp(saved, "v"));
      var reply := MessageReply(topic, saved, item, packet, usecontext, intake.domain, now);
      if reply.Err? {
        return;
      }
      Broadcast(topic, saved, Additions(item), test, Obj(reply.value));
    }

    /**
     * The loop of `onMessage` over the consumers: each one holding its
     * event id is judged by its filter, which may be rewritten; a match
     * whitelists the topic for it and emits the reply; a filter that
     * throws ends the loop.
     */
    method Broadcast(topic: string, saved: seq<Prop>, additions: Value, test: Matcher, replyMessage: Value)
      requires Valid()
      modifies this
      ensures Valid()
      ensures var d := Deliver(order, old(consumers), cfgId, topic, saved, additions, test, replyMessage);
        consumers == d.consumers && emitted == old(emitted) + d.events
      ensures status == old(status) && tree == old(tree) && values == old(values) && rootDomains == old(rootDomains)
      ensures order == old(order) && listeners == old(listeners)
    {
      var d := DeliverAll(order, consumers, cfgId, topic, saved, additions, test, replyMessage);
      consumers := d.consumers;
      emitted := emitted + d.events;
    }

    /**
     * `onInput`: a consumer's request is answered from the cache alone —
     * with the reply on its value id, or the error on its error id — and
     * the handler throws for an unknown consumer.  Nothing but the event
     * log changes.
     */
    method OnInput(childId: string, topic: string, message: Value, packet: Value, now: int) returns (thrown: bool)
      requires Valid()
      modifies this
      ensures Valid()
      ensures var a := InputAnswer(old(consumers), cfgId, childId, topic, message,
                                   InputReply(old(tree), old(values), old(rootDomains), topic, message, packet, now));
        emitted == old(emitted) + a.events && thrown == a.thrown
      ensures status == old(status) && tree == old(tree) && values == old(values) && rootDomains == old(rootDomains)
      ensures order == old(order) && consumers == old(consumers) && listeners == old(listeners)
    {
      var reply := InputReply(tree, values, rootDomains, topic, message, packet, now);
      if childId !in consumers {
        return true;
      }
      var subscriptions := consumers[childId].subscriptions;
      match reply {
        case Ok(props) =>
          var id := SubscriptionId(EVENT_VALUE, cfgId, childId);
          if id in subscriptions {
            emitted := emitted + [Event(id, Obj(props))];
          }
        case Err(e) =>
          var id := SubscriptionId(EVENT_ERROR, cfgId, childId);
          if id in subscriptions {
            emitted := emitted + [Event(id, Obj([Prop("topic", Str(topic)), Prop("message", message),
                                                 Prop("error", Str("onInput: unable to process inputs - " + ErrorText(e)))]))];
          }
      }
      return false;
    }
  }

  /** The loop of `setStatus` over the consumers in registration order. */
  method StatusEventsOf(order: seq<string>, consumers: map<string, Consumer>, cfgId: string, report: Value)
    returns (events: seq<Event>)
    ensures events == StatusEvents(order, consumers, cfgId, report)
  {
    events := [];
    for i := 0 to |order|
      invariant events == StatusEvents(order[..i], consumers, cfgId, report)
    {
      var c := order[i];
      var id := SubscriptionId(EVENT_STATUS, cfgId, c);
      assert order[..i + 1][..i] == order[..i];
      if c in consumers && id in consumers[c].subscriptions {
        events := events + [Event(id, report)];
      }
    }
    assert order[..|order|] == order;
  }

  /** The loop of `onMessage` over the consumers in registration order, until a filter throws. */
  method DeliverAll(order: seq<string>, consumers: map<string, Consumer>, cfgId: string, topic: string,
                    saved: seq<Prop>, additions: Value, test: Matcher, reply: Value) returns (d: Delivery)
    ensures d == Deliver(order, consumers, cfgId, topic, saved, additions, test, reply)
  {
    d := Delivery(consumers, [], false);
    var i := 0;
    while i < |order| && !d.threw
      invariant 0 <= i <= |order|
      invariant d == Deliver(order[..i], consumers, cfgId, topic, saved, additions, test, reply)
    {
      DeliverStep(order, i, consumers, cfgId, topic, saved, additions, test, reply);
      d := Visit(d, order[i], cfgId, topic, saved, additions, test, reply);
      i := i + 1;
    }
    if i < |order| {
      DeliverStopped(order, i, consumers, cfgId, topic, saved, additions, test, reply);
    } else {
      assert order[..i] == order;
    }
  }

  /**
   * One pass of the loop of `onMessage`: consumer `c` gets the reply when it subscribed to events and its
   * filter accepts the message; a filter that throws ends the loop.
   */
  method Visit(d: Delivery, c: string, cfgId: string, topic: string, saved: seq<Prop>, additions: Value,
               test: Matcher, reply: Value) returns (r: Delivery)
    requires !d.threw
    ensures r == DeliverTo(d, c, cfgId, topic, saved, additions, test, reply)
  {
    var id := SubscriptionId(EVENT_EVENT, cfgId, c);
    if c !in d.consumers || id !in d.consumers[c].subscriptions {
      return d;
    }
    var k := d.consumers[c];
    var outcome, f := ConfigFilter.ApplyFilter(AsFilter(k.filter),
                                               ConfigFilter.Context(topic, saved, additions, k.whitelisted, test));
    assert Verdict(k, topic, saved, additions, test) == ConfigFilter.Filtered(outcome, f);
    var filter := Rewritten(k.filter, f);
    if outcome == ConfigFilter.Accepted {
      r := Delivery(d.consumers[c := k.(filter := filter, whitelisted := k.whitelisted + {topic})],
                    d.events + [Event(id, reply)], false);
    } else {
      r := Delivery(d.consumers[c := k.(filter := filter)], d.events, outcome == ConfigFilter.Threw);
    }
  }

  /** The loop of `subscribe` over the filter's keys: true when none is outside the allowed properties. */
  method CheckFilter(keys: seq<string>) returns (ok: bool)
    ensures ok <==> FirstInvalid(keys) == |keys|
  {
    var index := 0;
    while index < |keys|
      invariant 0 <= index <= |keys|
      invariant forall i :: 0 <= i < index ==> keys[i] in FILTER_PROPERTIES
    {
      if keys[index] !in FILTER_PROPERTIES {
        FirstInvalidAt(keys, index);
        return false;
      }
      index := index + 1;
    }
    FirstInvalidNone(keys);
    return true;
  }

  /** The filter check stops at the first key outside the allowed properties. */
  lemma {:induction false} FirstInvalidAt(keys: seq<string>, index: nat)
    requires index < |keys| && keys[index] !in FILTER_PROPERTIES
    requires forall i :: 0 <= i < index ==> keys[i] in FILTER_PROPERTIES
    ensures FirstInvalid(keys) == index
  {
    if index > 0 {
      FirstInvalidAt(keys[1..], index - 1);
    }
  }

  /** With every key allowed, the check runs to the end. */
  lemma {:induction false} FirstInvalidNone(keys: seq<string>)
    requires forall i :: 0 <= i < |keys| ==> keys[i] in FILTER_PROPERTIES
    ensures FirstInvalid(keys) == |keys|
  {
    if keys != [] {
      FirstInvalidNone(keys[1..]);
    }
  }
}
