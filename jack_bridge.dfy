/**
 * The bridge node: it feeds MQTT messages received by the flow into its
 * configuration node's `onMessage`, in the order they arrive, and follows
 * the configuration node's status.  Messages wait in a queue until the
 * configuration node reports that it is connected.  On CONNECTED the node
 * collects the root-domain subscriptions `<domain>/#` for the device,
 * program, system-variable and virtual-device domains, each once, and
 * sends them out.
 */
module JackBridge {
  import opened Js
  import opened Utils
  import opened Constants
  import opened ConfigEvents
  import ConfigStore
  import ConfigReply
  import JackConfig

  // ---------------------------------------------------------------------
  // The root-domain subscriptions
  // ---------------------------------------------------------------------

  /** The domains whose whole tree the bridge subscribes to. */
  const ROOT_KINDS: seq<string> := [DEVICE, PROGRAM, SYSVAR, VIRTDEV]

  /** The subscription a domain of a status message adds, if it is one of the root kinds. */
  function RootOf(domain: Value): (r: Option<string>)
    ensures r.Some? <==> domain.Str? && domain.s in ROOT_KINDS
    ensures r.Some? ==> r.value == domain.s + "/#"
  {
    if domain.Str? && domain.s in ROOT_KINDS then Some(domain.s + "/#") else None
  }

  /** `rootDomains` after the loop has visited `domains`: a set, so a repeat adds nothing. */
  function AddRoots(roots: seq<string>, domains: seq<Value>): seq<string>
    decreases |domains|
  {
    if domains == [] then roots
    else
      var r := AddRoots(roots, domains[..|domains| - 1]);
      match RootOf(domains[|domains| - 1])
      case None => r
      case Some(x) => if x in r then r else r + [x]
  }

  /** The loop over `message.domains`. */
  method CollectRoots(roots: seq<string>, domains: seq<Value>) returns (r: seq<string>)
    ensures r == AddRoots(roots, domains)
  {
    r := roots;
    for i := 0 to |domains|
      invariant r == AddRoots(roots, domains[..i])
    {
      assert domains[..i + 1][..i] == domains[..i];
      var root := RootOf(domains[i]);
      if root.Some? && root.value !in r {
        r := r + [root.value];
      }
    }
    assert domains[..|domains|] == domains;
  }

  /** The set keeps what it had, in its order, and holds each subscription once. */
  lemma {:induction false} AddRootsGrows(roots: seq<string>, domains: seq<Value>)
    requires Distinct(roots)
    ensures Distinct(AddRoots(roots, domains)) && roots <= AddRoots(roots, domains)
    decreases |domains|
  {
    if domains != [] {
      AddRootsGrows(roots, domains[..|domains| - 1]);
    }
  }

  /** The set gains exactly the subscriptions of the root-kind domains. */
  lemma {:induction false} AddRootsMembers(roots: seq<string>, domains: seq<Value>, x: string)
    ensures x in AddRoots(roots, domains) <==> x in roots || exists i :: 0 <= i < |domains| && RootOf(domains[i]) == Some(x)
    decreases |domains|
  {
    if domains != [] {
      var front := domains[..|domains| - 1];
      var d := domains[|domains| - 1];
      AddRootsMembers(roots, front, x);
      if exists i :: 0 <= i < |domains| && RootOf(domains[i]) == Some(x) {
        var i :| 0 <= i < |domains| && RootOf(domains[i]) == Some(x);
        if i < |front| {
          assert front[i] == domains[i];
        }
      }
      if exists i :: 0 <= i < |front| && RootOf(front[i]) == Some(x) {
        var i :| 0 <= i < |front| && RootOf(front[i]) == Some(x);
        assert domains[i] == front[i];
      }
    }
  }

  /** Every subscription the bridge collects names one of the four root kinds. */
  lemma OnlyRootKinds(domains: seq<Value>)
    ensures forall x | x in AddRoots([], domains) :: exists k :: k in ROOT_KINDS && x == k + "/#"
  {
    forall x | x in AddRoots([], domains) ensures exists k :: k in ROOT_KINDS && x == k + "/#" {
      AddRootsMembers([], domains, x);
      var i :| 0 <= i < |domains| && RootOf(domains[i]) == Some(x);
      var k := domains[i].s;
      assert k in ROOT_KINDS && x == k + "/#";
    }
  }

  /** The domains the status callback visits: only a non-empty array is looked at. */
  function DomainsOf(message: seq<Prop>): seq<Value> {
    var domains := GetProp(message, "domains");
    if domains.Arr? && |domains.elems| > 0 then domains.elems else []
  }

  // ---------------------------------------------------------------------
  // What the bridge sends
  // ---------------------------------------------------------------------

  /**
   * The messages the node sends: the connecting notice, the connected
   * notice with the connect and subscribe commands, and the answer to
   * `getSubscriptions` and to `__get`.
   */
  datatype Output =
    | Connecting(context: Option<Value>, connected: bool)
    | Connected(context: Option<Value>, connected: bool, subscribe: seq<string>)
    | Subscriptions(action: Value)
    | Echo(topic: Value, payload: Value, connected: bool)

  /** `...(message.context && { context })`: a falsy context is left out. */
  function ContextOf(message: seq<Prop>): (r: Option<Value>)
    ensures r.Some? <==> Truthy(GetProp(message, "context"))
    ensures r.Some? ==> r.value == GetProp(message, "context")
  {
    var context := GetProp(message, "context");
    if Truthy(context) then Some(context) else None
  }

  /** The rule for queueing: a topic and a payload, own `qos` and `retain`, and a valid topic. */
  predicate Queued(message: seq<Prop>) {
    && Truthy(GetProp(message, "topic")) && Truthy(GetProp(message, "payload"))
    && HasKey(message, "qos") && HasKey(message, "retain")
    && IsValidTopic(ToStr(GetProp(message, "topic")))
  }

  /** Which branch of the input handler a message takes. */
  datatype Branch = ActionBranch | StatusBranch | MqttBranch | NoBranch

  function BranchOf(message: seq<Prop>): (r: Branch)
    ensures r == MqttBranch ==> !Truthy(GetProp(message, "action")) && !Truthy(GetProp(message, "status"))
  {
    if Truthy(GetProp(message, "action")) && !Truthy(GetProp(message, "status")) then ActionBranch
    else if Truthy(GetProp(message, "status")) then StatusBranch
    else if Truthy(GetProp(message, "topic")) && Truthy(GetProp(message, "payload"))
            && HasKey(message, "qos") && HasKey(message, "retain") then MqttBranch
    else NoBranch
  }

  /** The reply to an action or status request, if there is one. */
  function Reply(message: seq<Prop>, connected: bool): (r: Option<Output>)
    ensures r.Some? ==> BranchOf(message) == ActionBranch || BranchOf(message) == StatusBranch
    ensures (BranchOf(message) == ActionBranch && StrictEq(GetProp(message, "action"), Str("getSubscriptions")))
              ==> r == Some(Subscriptions(GetProp(message, "action")))
    ensures (BranchOf(message) == StatusBranch && StrictEq(GetProp(message, "status"), Str("__get")))
              ==> r == Some(Echo(GetProp(message, "topic"), GetProp(message, "payload"), connected))
  {
    match BranchOf(message)
    case ActionBranch =>
      if StrictEq(GetProp(message, "action"), Str("getSubscriptions")) then Some(Subscriptions(GetProp(message, "action")))
      else None
    case StatusBranch =>
      if StrictEq(GetProp(message, "status"), Str("__get")) then
        Some(Echo(GetProp(message, "topic"), GetProp(message, "payload"), connected))
      else None
    case _ => None
  }

  // ---------------------------------------------------------------------
  // What `onMessage` does to the configuration node
  // ---------------------------------------------------------------------

  /** What `onMessage` reads and never changes. */
  datatype Setting = Setting(tree: seq<Prop>, rootDomains: seq<Value>, order: seq<string>, cfgId: string, usecontext: bool)

  /** What `onMessage` changes besides the event log. */
  datatype Store = Store(values: ConfigStore.Values, consumers: map<string, Consumer>)

  /** The new store and the events of one call, or of a run of calls. */
  datatype Effect = Effect(store: Store, events: seq<Event>)

  /** One call of `onMessage`, as its contract describes it. */
  function MessageEffect(s: Setting, st: Store, topic: string, message: Value, packet: Value,
                         parse: string -> Option<Value>, test: Matcher, now: int): Effect
  {
    var intake := Admission(topic, message, parse, s.rootDomains);
    if !intake.Admitted? then Effect(st, [])
    else
      var saved := ConfigStore.Classify(ConfigStore.Previous(st.values, intake.domain, topic), intake.payload);
      var values := ConfigStore.Saved(st.values, intake.domain, topic, intake.payload);
      var item := ConfigReply.PrepareReply(s.tree, values, intake.domain, intake.parts, GetProp(saved, "v"));
      var reply := MessageReply(topic, saved, item, packet, s.usecontext, intake.domain, now);
      if reply.Err? then Effect(Store(values, st.consumers), [])
      else
        var d := Deliver(s.order, st.consumers, s.cfgId, topic, saved, Additions(item), test, Obj(reply.value));
        Effect(Store(values, d.consumers), d.events)
  }

  /** The packet the bridge passes on: the message's `qos` and `retain`. */
  function PacketOf(message: seq<Prop>): Value {
    Obj([Prop("qos", GetProp(message, "qos")), Prop("retain", GetProp(message, "retain"))])
  }

  /** Handing one queued message to `onMessage`; a topic that is not a string fails inside it and changes nothing. */
  function QueuedEffect(s: Setting, st: Store, message: seq<Prop>, parse: string -> Option<Value>, test: Matcher,
                        now: int): Effect
  {
    var topic := GetProp(message, "topic");
    if topic.Str? then MessageEffect(s, st, topic.s, GetProp(message, "payload"), PacketOf(message), parse, test, now)
    else Effect(st, [])
  }

  /** Handing the queue to `onMessage`, oldest first, each call seeing what the earlier ones saved. */
  function Effects(s: Setting, st: Store, queue: seq<seq<Prop>>, parse: string -> Option<Value>, test: Matcher,
                   now: int): Effect
    decreases |queue|
  {
    if queue == [] then Effect(st, [])
    else
      var e := QueuedEffect(s, st, queue[0], parse, test, now);
      var r := Effects(s, e.store, queue[1..], parse, test, now);
      Effect(r.store, e.events + r.events)
  }

  /** Handing a queue over is handing over its first message, then the rest. */
  lemma EffectsSplit(s: Setting, st: Store, queue: seq<seq<Prop>>, parse: string -> Option<Value>, test: Matcher,
                     now: int)
    requires queue != []
    ensures var e := Effects(s, st, queue[..1], parse, test, now);
      var r := Effects(s, e.store, queue[1..], parse, test, now);
      Effects(s, st, queue, parse, test, now) == Effect(r.store, e.events + r.events)
  {
    assert queue[..1][1..] == [];
    var e := QueuedEffect(s, st, queue[0], parse, test, now);
    assert Effects(s, st, queue[..1], parse, test, now) == Effect(e.store, e.events + []);
    assert e.events + [] == e.events;
  }

  /**
   * Handing over `a` and then `b` is handing over `a + b`: what one drain
   * leaves for the next is handed over after everything before it.
   */
  lemma {:induction false} EffectsAppend(s: Setting, st: Store, a: seq<seq<Prop>>, b: seq<seq<Prop>>,
                                         parse: string -> Option<Value>, test: Matcher, now: int)
    ensures var ea := Effects(s, st, a, parse, test, now);
      var eb := Effects(s, ea.store, b, parse, test, now);
      Effects(s, st, a + b, parse, test, now) == Effect(eb.store, ea.events + eb.events)
    decreases |a|
  {
    if a == [] {
      assert a + b == b;
    } else {
      assert (a + b)[0] == a[0] && (a + b)[1..] == a[1..] + b;
      var e := QueuedEffect(s, st, a[0], parse, test, now);
      EffectsAppend(s, e.store, a[1..], b, parse, test, now);
      var ea := Effects(s, e.store, a[1..], parse, test, now);
      var eb := Effects(s, ea.store, b, parse, test, now);
      Associative(e.events, ea.events, eb.events);
    }
  }

  /** A message the configuration node does not admit leaves its store alone and emits nothing. */
  lemma NotAdmittedNoEffect(s: Setting, st: Store, topic: string, message: Value, packet: Value,
                            parse: string -> Option<Value>, test: Matcher, now: int)
    requires !Admission(topic, message, parse, s.rootDomains).Admitted?
    ensures MessageEffect(s, st, topic, message, packet, parse, test, now) == Effect(st, [])
  {
  }

  function SettingOf(jack: JackConfig.ConfigNode): Setting
    reads jack
  {
    Setting(jack.tree, jack.rootDomains, jack.order, jack.cfgId, jack.usecontext)
  }

  function StoreOf(jack: JackConfig.ConfigNode): Store
    reads jack
  {
    Store(jack.values, jack.consumers)
  }

  /** The call of `onMessage` for a queued message. */
  method Hand(jack: JackConfig.ConfigNode, message: seq<Prop>, parse: string -> Option<Value>, test: Matcher, now: int)
    requires jack.Valid()
    modifies jack
    ensures jack.Valid() && SettingOf(jack) == old(SettingOf(jack))
    ensures jack.status == old(jack.status) && jack.listeners == old(jack.listeners)
    ensures var e := QueuedEffect(old(SettingOf(jack)), old(StoreOf(jack)), message, parse, test, now);
      StoreOf(jack) == e.store && jack.emitted == old(jack.emitted) + e.events
  {
    var topic := GetProp(message, "topic");
    if topic.Str? {
      jack.OnMessage(topic.s, GetProp(message, "payload"), PacketOf(message), parse, test, now);
    }
  }

  class BridgeNode {
    const id: string
    /** The configuration node the node was made with. */
    const jack: JackConfig.ConfigNode
    /** Whether the `close` handler has let go of the configuration node. */
    var closed: bool
    var connected: bool
    /** The payload of the last status message, shown as the node's status. */
    var statusMessage: Value
    /** The set of root-domain subscriptions, in insertion order. */
    var rootDomains: seq<string>
    /** `messageQueue`: the messages not yet handed over, oldest first. */
    var queue: seq<seq<Prop>>
    /** Every message the node has sent, in order. */
    var sent: seq<Output>

    ghost predicate Valid()
      reads this, jack
    {
      jack.Valid() && Distinct(rootDomains)
    }

    constructor(id: string, jack: JackConfig.ConfigNode)
      requires jack.Valid()
      ensures Valid()
      ensures this.id == id && this.jack == jack
      ensures !closed && !connected && statusMessage == Obj([]) && rootDomains == [] && queue == [] && sent == []
    {
      this.id := id;
      this.jack := jack;
      closed := false;
      connected := false;
      statusMessage := Obj([]);
      rootDomains := [];
      queue := [];
      sent := [];
    }

    /** Whether `handleMessageQueue` hands messages over: only while connected, and not once closed. */
    predicate Handing()
      reads this
    {
      connected && !closed
    }

    /** The registration made when the node is created: the status events, and nothing else. */
    method Start()
      requires Valid()
      modifies jack
      ensures Valid()
      ensures jack.consumers == old(jack.consumers)[id := Consumer({SubscriptionId(EVENT_STATUS, jack.cfgId, id)}, Obj([]), {})]
      ensures id in jack.order
      ensures jack.order == if id in old(jack.consumers) then old(jack.order) else old(jack.order) + [id]
      ensures jack.listeners == AddListener(old(jack.listeners), SubscriptionId(EVENT_STATUS, jack.cfgId, id))
      // `register` ends by sending the current status to every status holder, this node included.
      ensures jack.emitted == old(jack.emitted) + StatusEvents(jack.order, jack.consumers, jack.cfgId, StatusReport(jack.status, jack.rootDomains))
      ensures jack.status == old(jack.status) && jack.tree == old(jack.tree) && jack.values == old(jack.values)
      ensures jack.rootDomains == old(jack.rootDomains)
    {
      var _ := jack.Register(Some(Child(id, Undefined)), EVENT_STATUS);
    }

    /** One round of `handleMessageQueue`: the oldest message is handed over and dropped. */
    method HandOldest(parse: string -> Option<Value>, test: Matcher, now: int) returns (handed: bool)
      requires Valid() && connected && queue != []
      modifies this, jack
      ensures Valid() && SettingOf(jack) == old(SettingOf(jack))
      ensures handed == !closed
      ensures queue == if handed then old(queue)[1..] else old(queue)
      ensures var e := Effects(old(SettingOf(jack)), old(StoreOf(jack)), if handed then old(queue)[..1] else [], parse, test, now);
        StoreOf(jack) == e.store && jack.emitted == old(jack.emitted) + e.events
      ensures closed == old(closed) && connected == old(connected) && rootDomains == old(rootDomains) && sent == old(sent)
      ensures statusMessage == old(statusMessage)
    {
      if closed {
        return false;
      }
      ghost var s, st := SettingOf(jack), StoreOf(jack);
      Hand(jack, queue[0], parse, test, now);
      ghost var e := QueuedEffect(s, st, queue[0], parse, test, now);
      assert queue[..1][1..] == [];
      assert Effects(s, st, queue[..1], parse, test, now) == Effect(e.store, e.events + []);
      assert e.events + [] == e.events;
      queue := queue[1..];
      return true;
    }

    /**
     * `handleMessageQueue`: while connected, the messages are handed to
     * `onMessage` oldest first until the queue is empty.
     */
    method Drain(parse: string -> Option<Value>, test: Matcher, now: int)
      requires Valid()
      modifies this, jack
      ensures Valid() && SettingOf(jack) == old(SettingOf(jack))
      ensures queue == if old(Handing()) then [] else old(queue)
      ensures var e := Effects(old(SettingOf(jack)), old(StoreOf(jack)), if old(Handing()) then old(queue) else [], parse, test, now);
        StoreOf(jack) == e.store && jack.emitted == old(jack.emitted) + e.events
      ensures closed == old(closed) && connected == old(connected) && rootDomains == old(rootDomains) && sent == old(sent)
      ensures statusMessage == old(statusMessage)
      decreases |queue|
    {
      if !connected || queue == [] {
        return;
      }
      ghost var q0, e0, s, st := queue, jack.emitted, SettingOf(jack), StoreOf(jack);
      var handed := HandOldest(parse, test, now);
      if !handed {
        return;
      }
      ghost var e1 := Effects(s, st, q0[..1], parse, test, now);
      Drain(parse, test, now);
      ghost var r := Effects(s, e1.store, q0[1..], parse, test, now);
      EffectsSplit(s, st, q0, parse, test, now);
      Associative(e0, e1.events, r.events);
    }

    /**
     * The `input` handler: a `getSubscriptions` action and a `__get` status
     * request are answered; an MQTT message that satisfies the queueing rule
     * joins the queue; and whenever the queue then holds exactly one
     * message, it is drained.
     */
    method Input(message: seq<Prop>, parse: string -> Option<Value>, test: Matcher, now: int)
      requires Valid()
      modifies this, jack
      ensures Valid() && SettingOf(jack) == old(SettingOf(jack))
      ensures BranchOf(message) != MqttBranch ==>
        && queue == old(queue) && StoreOf(jack) == old(StoreOf(jack)) && jack.emitted == old(jack.emitted)
        && sent == old(sent) + match Reply(message, connected) case Some(o) => [o] case None => []
      ensures BranchOf(message) == MqttBranch ==>
        var pending := old(queue) + (if Queued(message) then [message] else []);
        var drains := |pending| == 1 && Handing();
        var e := Effects(old(SettingOf(jack)), old(StoreOf(jack)), if drains then pending else [], parse, test, now);
        && queue == (if drains then [] else pending)
        && StoreOf(jack) == e.store && jack.emitted == old(jack.emitted) + e.events
        && sent == old(sent)
      ensures closed == old(closed) && connected == old(connected) && rootDomains == old(rootDomains)
      ensures statusMessage == old(statusMessage)
    {
      var branch := BranchOf(message);
      if branch != MqttBranch {
        var reply := Reply(message, connected);
        if reply.Some? {
          sent := sent + [reply.value];
        }
        return;
      }
      if IsValidTopic(ToStr(GetProp(message, "topic"))) {
        queue := queue + [message];
      }
      if |queue| == 1 {
        Drain(parse, test, now);
      }
    }

    /**
     * The status callback: the node is connected exactly while the status
     * is CONNECTED.  CONNECTING is announced; CONNECTED adds the root-domain
     * subscriptions of the message, announces them and drains the queue.
     * Any other status sends nothing: the disconnect branch tests
     * `rootDomains.length`, which a set does not have.
     */
    method OnStatus(message: seq<Prop>, parse: string -> Option<Value>, test: Matcher, now: int)
      requires Valid()
      modifies this, jack
      ensures Valid() && SettingOf(jack) == old(SettingOf(jack))
      ensures statusMessage == GetProp(message, "payload")
      ensures connected <==> StrictEq(GetProp(message, "status"), Num(CONNECTED))
      ensures StrictEq(GetProp(message, "status"), Num(CONNECTING)) ==>
        && sent == old(sent) + [Connecting(ContextOf(message), false)]
        && rootDomains == old(rootDomains) && queue == old(queue)
        && StoreOf(jack) == old(StoreOf(jack)) && jack.emitted == old(jack.emitted)
      ensures connected ==>
        var e := Effects(old(SettingOf(jack)), old(StoreOf(jack)), if closed then [] else old(queue), parse, test, now);
        && rootDomains == AddRoots(old(rootDomains), DomainsOf(message))
        && sent == old(sent) + [Connected(ContextOf(message), true, rootDomains)]
        && queue == (if closed then old(queue) else [])
        && StoreOf(jack) == e.store && jack.emitted == old(jack.emitted) + e.events
      ensures !connected && !StrictEq(GetProp(message, "status"), Num(CONNECTING)) ==>
        && sent == old(sent) && rootDomains == old(rootDomains) && queue == old(queue)
        && StoreOf(jack) == old(StoreOf(jack)) && jack.emitted == old(jack.emitted)
      ensures closed == old(closed)
    {
      var status := GetProp(message, "status");
      statusMessage := GetProp(message, "payload");
      connected := StrictEq(status, Num(CONNECTED));
      if StrictEq(status, Num(CONNECTING)) {
        sent := sent + [Connecting(ContextOf(message), connected)];
      } else if connected {
        AddRootsGrows(rootDomains, DomainsOf(message));
        rootDomains := CollectRoots(rootDomains, DomainsOf(message));
        sent := sent + [Connected(ContextOf(message), connected, rootDomains)];
        Drain(parse, test, now);
      }
    }

    /** The `close` handler: nothing is sent (a set has no `length`); the node leaves its configuration node. */
    method Close()
      requires Valid()
      modifies this, jack
      ensures Valid() && closed
      ensures !old(closed) ==> id !in jack.consumers && id !in jack.order
      ensures JackConfig.RegistrationOf(jack)
              == if old(closed) then old(JackConfig.RegistrationOf(jack)) else Deregistered(old(JackConfig.RegistrationOf(jack)), id)
      ensures jack.status == old(jack.status) && jack.tree == old(jack.tree) && jack.values == old(jack.values)
      ensures jack.rootDomains == old(jack.rootDomains) && jack.emitted == old(jack.emitted)
      ensures sent == old(sent) && connected == old(connected) && queue == old(queue) && rootDomains == old(rootDomains)
    {
      if !closed {
        var _ := jack.Deregister(id);
        closed := true;
      }
    }
  }
}
