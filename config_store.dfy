/**
 * The context store of the configuration node.
 *
 * It has two parts.  The payload cache (`contextStore.values`) holds, per
 * domain, one record per MQTT topic, and `savePayload` classifies each
 * arriving payload against it.  The metadata tree is the rest of
 * `contextStore`: the VEAP descriptors of the domains, devices, channels
 * and datapoints, which `start` merges in stage by stage.
 */
module ConfigStore {
  import opened Js
  import JackApi

  /** domain -> (topic -> the payload record last saved for it) */
  type Values = map<string, map<string, seq<Prop>>>

  // ---------------------------------------------------------------------
  // savePayload
  // ---------------------------------------------------------------------

  /** The record before this payload, if the topic was seen. */
  function Previous(values: Values, domain: string, topic: string): Option<seq<Prop>> {
    if domain in values && topic in values[domain] then Some(values[domain][topic]) else None
  }

  /**
   * The payload as `savePayload` leaves it: a new topic is flagged as
   * cached, a resent value as neither cached nor changed, a new value as
   * changed, with the previous value and timestamp attached.
   */
  function Classify(prev: Option<seq<Prop>>, payload: seq<Prop>): seq<Prop> {
    match prev
    case None =>
      SetProp(SetProp(payload, "cache", Bool(true)), "change", Bool(false))
    case Some(item) =>
      if StrictEq(GetProp(item, "v"), GetProp(payload, "v")) then
        SetProp(SetProp(payload, "cache", Bool(false)), "change", Bool(false))
      else
        var withPrevious := SetProp(SetProp(payload, "vP", GetProp(item, "v")), "tsP", GetProp(item, "ts"));
        SetProp(SetProp(withPrevious, "cache", Bool(false)), "change", Bool(true))
  }

  /** The cache after saving: the domain map is created on first use and only this topic's record changes. */
  function Saved(values: Values, domain: string, topic: string, payload: seq<Prop>): Values {
    var topics := if domain in values then values[domain] else map[];
    values[domain := topics[topic := Classify(Previous(values, domain, topic), payload)]]
  }

  /** Whether a payload replaces a record with a different value. */
  predicate Changes(prev: Option<seq<Prop>>, payload: seq<Prop>) {
    prev.Some? && !StrictEq(GetProp(prev.value, "v"), GetProp(payload, "v"))
  }

  /** The two flags of a saved payload. */
  lemma ClassifyFlags(prev: Option<seq<Prop>>, payload: seq<Prop>)
    ensures GetProp(Classify(prev, payload), "cache") == Bool(prev.None?)
    ensures GetProp(Classify(prev, payload), "change") == Bool(Changes(prev, payload))
  {
    var inner := if Changes(prev, payload)
                 then SetProp(SetProp(payload, "vP", GetProp(prev.value, "v")), "tsP", GetProp(prev.value, "ts"))
                 else payload;
    var c := Bool(prev.None?);
    assert Classify(prev, payload) == SetProp(SetProp(inner, "cache", c), "change", Bool(Changes(prev, payload)));
    SetPropGet(SetProp(inner, "cache", c), "change", Bool(Changes(prev, payload)), "cache");
    SetPropGet(inner, "cache", c, "cache");
    SetPropGet(SetProp(inner, "cache", c), "change", Bool(Changes(prev, payload)), "change");
  }

  /** A changed value carries the previous value and timestamp. */
  lemma ClassifyUpdated(prev: Option<seq<Prop>>, payload: seq<Prop>)
    requires Changes(prev, payload)
    ensures GetProp(Classify(prev, payload), "vP") == GetProp(prev.value, "v")
    ensures GetProp(Classify(prev, payload), "tsP") == GetProp(prev.value, "ts")
  {
    var item := prev.value;
    var p1 := SetProp(payload, "vP", GetProp(item, "v"));
    var p2 := SetProp(p1, "tsP", GetProp(item, "ts"));
    var p3 := SetProp(p2, "cache", Bool(false));
    SetPropGet(p3, "change", Bool(true), "vP");
    SetPropGet(p2, "cache", Bool(false), "vP");
    SetPropGet(p1, "tsP", GetProp(item, "ts"), "vP");
    SetPropGet(payload, "vP", GetProp(item, "v"), "vP");
    SetPropGet(p3, "change", Bool(true), "tsP");
    SetPropGet(p2, "cache", Bool(false), "tsP");
    SetPropGet(p1, "tsP", GetProp(item, "ts"), "tsP");
  }

  /**
   * Every other field of the payload is kept, among them the value `v`;
   * `vP` and `tsP` are only touched when the value changed.
   */
  lemma ClassifyKeeps(prev: Option<seq<Prop>>, payload: seq<Prop>, k: string)
    requires k != "cache" && k != "change"
    requires k == "vP" || k == "tsP" ==> !Changes(prev, payload)
    ensures GetProp(Classify(prev, payload), k) == GetProp(payload, k)
  {
    var r := Classify(prev, payload);
    if Changes(prev, payload) {
      var item := prev.value;
      var p1 := SetProp(payload, "vP", GetProp(item, "v"));
      var p2 := SetProp(p1, "tsP", GetProp(item, "ts"));
      var p3 := SetProp(p2, "cache", Bool(false));
      SetPropGet(p3, "change", Bool(true), k);
      SetPropGet(p2, "cache", Bool(false), k);
      SetPropGet(p1, "tsP", GetProp(item, "ts"), k);
      SetPropGet(payload, "vP", GetProp(item, "v"), k);
    } else {
      var inner := SetProp(payload, "cache", Bool(prev.None?));
      assert r == SetProp(inner, "change", Bool(false));
      SetPropGet(inner, "change", Bool(false), k);
      SetPropGet(payload, "cache", Bool(prev.None?), k);
    }
  }

  /** Saving touches the record of this (domain, topic) and nothing else. */
  lemma SavedOnlyThatEntry(values: Values, domain: string, topic: string, payload: seq<Prop>, d: string, t: string)
    requires d != domain || t != topic
    ensures Previous(Saved(values, domain, topic, payload), d, t) == Previous(values, d, t)
    ensures Previous(Saved(values, domain, topic, payload), domain, topic)
         == Some(Classify(Previous(values, domain, topic), payload))
  {
  }

  /** The same value sent twice: the second copy is neither cached nor a change. */
  lemma ResentIsNoChange(values: Values, domain: string, topic: string, p: seq<Prop>, p': seq<Prop>)
    requires StrictEq(GetProp(p, "v"), GetProp(p', "v"))
    ensures var second := Classify(Previous(Saved(values, domain, topic, p), domain, topic), p');
            GetProp(second, "cache") == Bool(false) && GetProp(second, "change") == Bool(false)
  {
    var prev := Previous(Saved(values, domain, topic, p), domain, topic);
    var first := Classify(Previous(values, domain, topic), p);
    assert prev == Some(first);
    ClassifyKeeps(Previous(values, domain, topic), p, "v");
    ClassifyFlags(prev, p');
  }

  // ---------------------------------------------------------------------
  // start: building the metadata tree stage by stage
  // ---------------------------------------------------------------------

  /** What a stage has built, and the error that stopped it, if any. */
  datatype Partial<T> = Partial(value: T, error: Option<JsError>)

  /**
   * Stage 1: `{values: {}, ...contextStore, '.': root, '.vendor': vendor,
   * ts, status}`.  The payload cache is not part of `tree`, so it is kept
   * as it was.
   */
  function WithConfig(tree: seq<Prop>, root: Value, vendor: Value, now: int, status: Value): seq<Prop> {
    SetAll(SetAll([], tree), [Prop(".", root), Prop(".vendor", vendor), Prop("ts", Num(now)), Prop("status", status)])
  }

  lemma WithConfigGet(tree: seq<Prop>, root: Value, vendor: Value, now: int, status: Value, k: string)
    requires DistinctKeys(tree)
    ensures DistinctKeys(WithConfig(tree, root, vendor, now, status))
    ensures Lookup(WithConfig(tree, root, vendor, now, status), k)
         == if k == "." then Some(root) else if k == ".vendor" then Some(vendor)
            else if k == "ts" then Some(Num(now)) else if k == "status" then Some(status)
            else Lookup(tree, k)
  {
    var incoming := [Prop(".", root), Prop(".vendor", vendor), Prop("ts", Num(now)), Prop("status", status)];
    assert Merge(tree, incoming) == WithConfig(tree, root, vendor, now, status);
    MergeDistinct(tree, incoming);
    MergeGet(tree, incoming, k);
    var rest1 := [Prop(".vendor", vendor), Prop("ts", Num(now)), Prop("status", status)];
    var rest2 := [Prop("ts", Num(now)), Prop("status", status)];
    var rest3 := [Prop("status", status)];
    assert incoming[1..] == rest1 && rest1[1..] == rest2 && rest2[1..] == rest3 && rest3[1..] == [];
    assert Lookup(incoming, k) == if k == "." then Some(root) else Lookup(rest1, k);
    assert Lookup(rest1, k) == if k == ".vendor" then Some(vendor) else Lookup(rest2, k);
    assert Lookup(rest2, k) == if k == "ts" then Some(Num(now)) else Lookup(rest3, k);
    assert Lookup(rest3, k) == if k == "status" then Some(status) else None;
  }

  /**
   * Stage 2: `this.rootDomains.push(domain.identifier)` for each domain of
   * the reply; reading the identifier of undefined or null stops it.
   */
  function PushIdentifiers(rootDomains: seq<Value>, domains: seq<Value>): Partial<seq<Value>>
    decreases |domains|
  {
    if domains == [] then Partial(rootDomains, None)
    else if !Defined(domains[0]) then Partial(rootDomains, Some(TypeError))
    else PushIdentifiers(rootDomains + [Field(domains[0], "identifier")], domains[1..])
  }

  /** `rootDomains` is only appended to; when every domain is read, the identifiers follow in order. */
  lemma {:induction false} PushIdentifiersSpec(rootDomains: seq<Value>, domains: seq<Value>)
    ensures var p := PushIdentifiers(rootDomains, domains);
      rootDomains <= p.value && |p.value| <= |rootDomains| + |domains|
      && (forall j :: 0 <= j < |p.value| - |rootDomains| ==>
            Defined(domains[j]) && p.value[|rootDomains| + j] == Field(domains[j], "identifier"))
      && (p.error.None? <==> JackApi.AllDefined(domains))
      && (p.error.None? ==> |p.value| == |rootDomains| + |domains|)
    decreases |domains|
  {
    if domains != [] {
      if Defined(domains[0]) {
        var acc := rootDomains + [Field(domains[0], "identifier")];
        PushIdentifiersSpec(acc, domains[1..]);
        var p := PushIdentifiers(acc, domains[1..]);
        assert p.value[|rootDomains|] == acc[|rootDomains|];
        assert rootDomains <= acc;
        forall j | 0 <= j < |p.value| - |rootDomains|
          ensures Defined(domains[j]) && p.value[|rootDomains| + j] == Field(domains[j], "identifier")
        {
          if j > 0 {
            assert domains[1..][j - 1] == domains[j];
            assert p.value[|acc| + (j - 1)] == Field(domains[1..][j - 1], "identifier");
          }
        }
        assert JackApi.AllDefined(domains) <==> JackApi.AllDefined(domains[1..]) by {
          assert forall i :: 0 <= i < |domains[1..]| ==> domains[1..][i] == domains[i + 1];
          if JackApi.AllDefined(domains[1..]) {
            forall i | 0 <= i < |domains| ensures Defined(domains[i]) {
              if i > 0 {
                assert domains[i] == domains[1..][i - 1];
              }
            }
          }
        }
      }
    }
  }

  /**
   * Stage 3, first half: `{...contextStore, ...domainResources}`; each
   * domain's resources replace its whole previous subtree.
   */
  lemma ResourcesReplace(tree: seq<Prop>, resources: seq<Prop>, k: string)
    requires DistinctKeys(tree) && DistinctKeys(resources)
    ensures DistinctKeys(Merge(tree, resources))
    ensures Lookup(Merge(tree, resources), k) == if HasKey(resources, k) then Lookup(resources, k) else Lookup(tree, k)
  {
    MergeDistinct(tree, resources);
    MergeGet(tree, resources, k);
  }

  /** The descriptor stage 3 stores for a domain: `{...domain, ...domainChildren[domain.identifier]}`. */
  function Descriptor(domain: Value, children: seq<Prop>): Value
    requires Defined(domain)
  {
    Obj(Merge(SpreadProps(domain), SpreadProps(GetProp(children, ToStr(Field(domain, "identifier"))))))
  }

  /** `contextStore[domain.identifier]['.'] = descriptor` for one domain. */
  function DescribeOne(tree: seq<Prop>, domain: Value, children: seq<Prop>): Result<seq<Prop>> {
    if !Defined(domain) then Err(TypeError)
    else
      var key := ToStr(Field(domain, "identifier"));
      match Assign(GetProp(tree, key), ".", Descriptor(domain, children))
      case Err(e) => Err(e)
      case Ok(sub) => Ok(SetProp(tree, key, sub))
  }

  /** Stage 3, second half: the descriptor loop over the domains of the reply. */
  function Describe(tree: seq<Prop>, domains: seq<Value>, children: seq<Prop>): Partial<seq<Prop>>
    decreases |domains|
  {
    if domains == [] then Partial(tree, None)
    else match DescribeOne(tree, domains[0], children)
      case Err(e) => Partial(tree, Some(e))
      case Ok(tree') => Describe(tree', domains[1..], children)
  }

  /**
   * One descriptor: the domain's subtree must be an object, and it gains
   * `'.'`; the rest of the tree is left alone.
   */
  lemma DescribeOneSpec(tree: seq<Prop>, domain: Value, children: seq<Prop>, k: string)
    ensures DescribeOne(tree, domain, children).Ok?
        <==> Defined(domain) && GetProp(tree, ToStr(Field(domain, "identifier"))).Obj?
    ensures DescribeOne(tree, domain, children).Ok? ==>
      var key := ToStr(Field(domain, "identifier"));
      Lookup(DescribeOne(tree, domain, children).value, k)
      == if k == key then Some(Obj(SetProp(GetProp(tree, key).props, ".", Descriptor(domain, children))))
         else Lookup(tree, k)
  {
    if Defined(domain) && GetProp(tree, ToStr(Field(domain, "identifier"))).Obj? {
      var key := ToStr(Field(domain, "identifier"));
      SetPropGet(tree, key, Obj(SetProp(GetProp(tree, key).props, ".", Descriptor(domain, children))), k);
    }
  }

  /** The descriptor of a domain: its own fields, overridden by its `children` list. */
  lemma DescriptorGet(domain: Value, children: seq<Prop>, k: string)
    requires domain.Obj? && DistinctKeys(domain.props)
    requires var c := GetProp(children, ToStr(Field(domain, "identifier"))); c.Obj? && DistinctKeys(c.props)
    ensures var c := GetProp(children, ToStr(Field(domain, "identifier"))).props;
      Lookup(Descriptor(domain, children).props, k) == if HasKey(c, k) then Lookup(c, k) else Lookup(domain.props, k)
  {
    MergeGet(domain.props, GetProp(children, ToStr(Field(domain, "identifier"))).props, k);
  }

  /** Keys that are no domain's identifier keep their subtree through the descriptor loop. */
  lemma {:induction false} DescribeUntouched(tree: seq<Prop>, domains: seq<Value>, children: seq<Prop>, k: string)
    requires forall i :: 0 <= i < |domains| && Defined(domains[i]) ==> ToStr(Field(domains[i], "identifier")) != k
    ensures Lookup(Describe(tree, domains, children).value, k) == Lookup(tree, k)
    decreases |domains|
  {
    if domains != [] {
      DescribeOneSpec(tree, domains[0], children, k);
      if DescribeOne(tree, domains[0], children).Ok? {
        DescribeUntouched(DescribeOne(tree, domains[0], children).value, domains[1..], children, k);
      }
    }
  }

  /** `contextStore[domain][device] = {...contextStore[domain][device], ...incoming}`. */
  function MergeDevice(tree: seq<Prop>, domain: string, device: string, incoming: Value): Result<seq<Prop>> {
    var sub := GetProp(tree, domain);
    match Get(sub, device)
    case Err(e) => Err(e)
    case Ok(stored) =>
      match Assign(sub, device, Obj(Merge(SpreadProps(stored), SpreadProps(incoming))))
      case Err(e) => Err(e)
      case Ok(sub') => Ok(SetProp(tree, domain, sub'))
  }

  /** The inner loop of stage 4: the devices of one domain. */
  function MergeDomainDevices(tree: seq<Prop>, domain: string, devices: seq<string>, group: Value): Partial<seq<Prop>>
    decreases |devices|
  {
    if devices == [] then Partial(tree, None)
    else match Get(group, devices[0])
      case Err(e) => Partial(tree, Some(e))
      case Ok(incoming) =>
        match MergeDevice(tree, domain, devices[0], incoming)
        case Err(e) => Partial(tree, Some(e))
        case Ok(tree') => MergeDomainDevices(tree', domain, devices[1..], group)
  }

  /** Stage 4: every device of every domain of `getDeviceChannels`, shallow-merged into the tree. */
  function MergeDevices(tree: seq<Prop>, domains: seq<string>, channels: Value): Partial<seq<Prop>>
    decreases |domains|
  {
    if domains == [] then Partial(tree, None)
    else match Get(channels, domains[0])
      case Err(e) => Partial(tree, Some(e))
      case Ok(group) =>
        match OwnKeys(group)
        case Err(e) => Partial(tree, Some(e))
        case Ok(devices) =>
          var p := MergeDomainDevices(tree, domains[0], devices, group);
          if p.error.Some? then p else MergeDevices(p.value, domains[1..], channels)
  }

  /**
   * One device: the domain's subtree must be an object; the device entry
   * becomes its stored fields overridden by the fetched channels, and nothing
   * else changes.
   */
  lemma MergeDeviceSpec(tree: seq<Prop>, domain: string, device: string, incoming: Value, k: string)
    ensures MergeDevice(tree, domain, device, incoming).Ok? <==> GetProp(tree, domain).Obj?
    ensures MergeDevice(tree, domain, device, incoming).Ok? ==>
      var sub := GetProp(tree, domain).props;
      var merged := Obj(Merge(SpreadProps(GetProp(sub, device)), SpreadProps(incoming)));
      Lookup(MergeDevice(tree, domain, device, incoming).value, k)
      == if k == domain then Some(Obj(SetProp(sub, device, merged))) else Lookup(tree, k)
  {
    var sub := GetProp(tree, domain);
    if sub.Obj? {
      var merged := Obj(Merge(SpreadProps(GetProp(sub.props, device)), SpreadProps(incoming)));
      SetPropGet(tree, domain, Obj(SetProp(sub.props, device, merged)), k);
    }
  }

  /** The merged device entry keeps the stored fields the fetched channels do not override. */
  lemma MergedDeviceGet(stored: seq<Prop>, incoming: seq<Prop>, k: string)
    requires DistinctKeys(stored) && DistinctKeys(incoming)
    ensures Lookup(Inner(Obj(Merge(SpreadProps(Obj(stored)), SpreadProps(Obj(incoming))))), k)
         == if HasKey(incoming, k) then Lookup(incoming, k) else Lookup(stored, k)
  {
    MergeGet(stored, incoming, k);
  }

  /** Domains that `getDeviceChannels` did not report keep their subtree through stage 4. */
  lemma {:induction false} MergeDomainDevicesUntouched(tree: seq<Prop>, domain: string, devices: seq<string>, group: Value, k: string)
    requires k != domain
    ensures Lookup(MergeDomainDevices(tree, domain, devices, group).value, k) == Lookup(tree, k)
    decreases |devices|
  {
    if devices != [] && Get(group, devices[0]).Ok? {
      var incoming := Get(group, devices[0]).value;
      MergeDeviceSpec(tree, domain, devices[0], incoming, k);
      if MergeDevice(tree, domain, devices[0], incoming).Ok? {
        MergeDomainDevicesUntouched(MergeDevice(tree, domain, devices[0], incoming).value, domain, devices[1..], group, k);
      }
    }
  }

  lemma {:induction false} MergeDevicesUntouched(tree: seq<Prop>, domains: seq<string>, channels: Value, k: string)
    requires k !in domains
    ensures Lookup(MergeDevices(tree, domains, channels).value, k) == Lookup(tree, k)
    decreases |domains|
  {
    if domains != [] && Get(channels, domains[0]).Ok? && OwnKeys(Get(channels, domains[0]).value).Ok? {
      var group := Get(channels, domains[0]).value;
      var devices := OwnKeys(group).value;
      MergeDomainDevicesUntouched(tree, domains[0], devices, group, k);
      var p := MergeDomainDevices(tree, domains[0], devices, group);
      if p.error.None? {
        MergeDevicesUntouched(p.value, domains[1..], channels, k);
      }
    }
  }

  /** `contextStore[domain][device][channel] = {...contextStore[domain][device][channel], ...incoming}`. */
  function MergeChannel(tree: seq<Prop>, domain: string, device: string, channel: string, incoming: Value): Result<seq<Prop>> {
    var sub := GetProp(tree, domain);
    match Get(sub, device)
    case Err(e) => Err(e)
    case Ok(dev) =>
      match Get(dev, channel)
      case Err(e) => Err(e)
      case Ok(stored) =>
        match Assign(dev, channel, Obj(Merge(SpreadProps(stored), SpreadProps(incoming))))
        case Err(e) => Err(e)
        case Ok(dev') =>
          match Assign(sub, device, dev')
          case Err(e) => Err(e)
          case Ok(sub') => Ok(SetProp(tree, domain, sub'))
  }

  /** The innermost loop of stage 5: the channels of one device. */
  function MergeDeviceChannels(tree: seq<Prop>, domain: string, device: string, channels: seq<string>, group: Value): Partial<seq<Prop>>
    decreases |channels|
  {
    if channels == [] then Partial(tree, None)
    else match Get(group, channels[0])
      case Err(e) => Partial(tree, Some(e))
      case Ok(incoming) =>
        match MergeChannel(tree, domain, device, channels[0], incoming)
        case Err(e) => Partial(tree, Some(e))
        case Ok(tree') => MergeDeviceChannels(tree', domain, device, channels[1..], group)
  }

  /** The middle loop of stage 5: the devices of one domain. */
  function MergeDomainChannels(tree: seq<Prop>, domain: string, devices: seq<string>, group: Value): Partial<seq<Prop>>
    decreases |devices|
  {
    if devices == [] then Partial(tree, None)
    else match Get(group, devices[0])
      case Err(e) => Partial(tree, Some(e))
      case Ok(deviceGroup) =>
        match OwnKeys(deviceGroup)
        case Err(e) => Partial(tree, Some(e))
        case Ok(channels) =>
          var p := MergeDeviceChannels(tree, domain, devices[0], channels, deviceGroup);
          if p.error.Some? then p else MergeDomainChannels(p.value, domain, devices[1..], group)
  }

  /** Stage 5: every channel of every device of `getChannelDatapoints`, shallow-merged into the tree. */
  function MergeChannels(tree: seq<Prop>, domains: seq<string>, datapoints: Value): Partial<seq<Prop>>
    decreases |domains|
  {
    if domains == [] then Partial(tree, None)
    else match Get(datapoints, domains[0])
      case Err(e) => Partial(tree, Some(e))
      case Ok(group) =>
        match OwnKeys(group)
        case Err(e) => Partial(tree, Some(e))
        case Ok(devices) =>
          var p := MergeDomainChannels(tree, domains[0], devices, group);
          if p.error.Some? then p else MergeChannels(p.value, domains[1..], datapoints)
  }

  /**
   * One channel: the domain's and the device's subtrees must be objects;
   * the channel entry becomes its stored fields overridden by the fetched
   * datapoints, and nothing else changes.
   */
  lemma MergeChannelSpec(tree: seq<Prop>, domain: string, device: string, channel: string, incoming: Value, k: string)
    ensures MergeChannel(tree, domain, device, channel, incoming).Ok?
        <==> GetProp(tree, domain).Obj? && GetProp(GetProp(tree, domain).props, device).Obj?
    ensures MergeChannel(tree, domain, device, channel, incoming).Ok? ==>
      var sub := GetProp(tree, domain).props;
      var dev := GetProp(sub, device).props;
      var merged := Obj(Merge(SpreadProps(GetProp(dev, channel)), SpreadProps(incoming)));
      Lookup(MergeChannel(tree, domain, device, channel, incoming).value, k)
      == if k == domain then Some(Obj(SetProp(sub, device, Obj(SetProp(dev, channel, merged))))) else Lookup(tree, k)
  {
    var sub := GetProp(tree, domain);
    if sub.Obj? && GetProp(sub.props, device).Obj? {
      var dev := GetProp(sub.props, device).props;
      var merged := Obj(Merge(SpreadProps(GetProp(dev, channel)), SpreadProps(incoming)));
      SetPropGet(tree, domain, Obj(SetProp(sub.props, device, Obj(SetProp(dev, channel, merged)))), k);
    }
  }

  // ---------------------------------------------------------------------
  // start as a whole
  // ---------------------------------------------------------------------

  /** What the requests of `start` resolve to. */
  datatype Replies = Replies(
    config: Result<(Value, Value, Value)>,
    domains: Result<Value>,
    resource: Value -> Result<Value>,
    channels: Result<Value>,
    datapoints: Result<Value>)

  /** The tree and the root domains after `start`, and the error that stopped it, if any. */
  datatype Started = Started(tree: seq<Prop>, rootDomains: seq<Value>, error: Option<JsError>)

  const INVALID_HOST := "Invalid host or port"

  /** Stages 3 to 5, once the root domains are known. */
  function LaterStages(tree: seq<Prop>, rootDomains: seq<Value>, domains: seq<Value>, replies: Replies): (r: Started)
    ensures r.rootDomains == rootDomains
  {
    match JackApi.GetDomainResources(rootDomains, JackApi.Fetch(rootDomains, replies.resource))
    case Err(e) => Started(tree, rootDomains, Some(e))
    case Ok((children, resources)) =>
      var t3 := Merge(tree, SpreadProps(resources));
      var d := Describe(t3, domains, Inner(children));
      if d.error.Some? then Started(d.value, rootDomains, d.error)
      else match JackApi.DeviceChannelsOf(replies.channels)
        case Err(e) => Started(d.value, rootDomains, Some(e))
        case Ok(dc) =>
          var t4 := MergeDevices(d.value, Keys(Inner(dc)), dc);
          if t4.error.Some? then Started(t4.value, rootDomains, t4.error)
          else match JackApi.ChannelDatapointsOf(replies.datapoints)
            case Err(e) => Started(t4.value, rootDomains, Some(e))
            case Ok(cd) =>
              var t5 := MergeChannels(t4.value, Keys(Inner(cd)), cd);
              Started(t5.value, rootDomains, t5.error)
  }

  /**
   * The body of `start` between the two status changes: each stage runs
   * only when the ones before it succeeded, and a failing stage keeps what
   * the earlier ones stored.
   */
  function Start(tree: seq<Prop>, rootDomains: seq<Value>, host: Value, port: Value, now: int, status: Value,
                 replies: Replies): Started
  {
    if !Truthy(host) || !Truthy(port) then Started(tree, rootDomains, Some(Error(INVALID_HOST)))
    else match JackApi.GetConfig(replies.config)
      case Err(e) => Started(tree, rootDomains, Some(e))
      case Ok((root, vendor)) =>
        var t1 := WithConfig(tree, root, vendor, now, status);
        match JackApi.GetDomains(replies.domains)
        case Err(e) => Started(t1, rootDomains, Some(e))
        case Ok(reply) =>
          match Iterate(reply)
          case Err(e) => Started(t1, rootDomains, Some(e))
          case Ok(domains) =>
            var pushed := PushIdentifiers(rootDomains, domains);
            if pushed.error.Some? then Started(t1, pushed.value, pushed.error)
            else LaterStages(t1, pushed.value, domains, replies)
  }

  /** A failed stage never removes a root domain: `rootDomains` only grows. */
  lemma StartKeepsRootDomains(tree: seq<Prop>, rootDomains: seq<Value>, host: Value, port: Value, now: int,
                              status: Value, replies: Replies)
    ensures rootDomains <= Start(tree, rootDomains, host, port, now, status, replies).rootDomains
  {
    if Truthy(host) && Truthy(port) && JackApi.GetConfig(replies.config).Ok? {
      var reply := JackApi.GetDomains(replies.domains);
      if reply.Ok? && Iterate(reply.value).Ok? {
        PushIdentifiersSpec(rootDomains, Iterate(reply.value).value);
      }
    }
  }

  /** Without a host or a port nothing is requested and nothing changes. */
  lemma StartNeedsHostAndPort(tree: seq<Prop>, rootDomains: seq<Value>, port: Value, now: int, status: Value, replies: Replies)
    ensures Start(tree, rootDomains, Str(""), port, now, status, replies) == Started(tree, rootDomains, Some(Error(INVALID_HOST)))
  {
  }

  /** A failed configuration request stops `start` with the "No domains" error, before the tree is touched. */
  lemma StartWithoutServer(tree: seq<Prop>, rootDomains: seq<Value>, host: Value, port: Value, now: int,
                           status: Value, replies: Replies)
    requires Truthy(host) && Truthy(port) && replies.config.Err?
    ensures Start(tree, rootDomains, host, port, now, status, replies)
         == Started(tree, rootDomains, Some(Error(JackApi.NO_DOMAINS)))
  {
  }
}
