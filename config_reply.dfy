/**
 * What the configuration node builds around an MQTT status message: the
 * payload it reads from the message (`getPayloadFromMessage`), the topic
 * templates it expands for consumers (`topicReplace`) and the enrichment
 * bag it looks up in the metadata tree (`prepareReply`).
 */
module ConfigReply {
  import opened Js
  import Utils
  import Constants
  import ConfigStore
  import JackApi

  // ---------------------------------------------------------------------
  // getPayloadFromMessage
  // ---------------------------------------------------------------------

  /**
   * `getPayloadFromMessage(message)`: a string is wrapped as `{v}`, an
   * object (null included) is taken as it is, and anything else is parsed
   * as JSON from its string form; a failed parse, and `toString` on
   * undefined, give `{}`.
   */
  function PayloadOf(message: Value, parse: string -> Option<Value>): (r: Value)
    ensures message.Str? ==> r == Obj([Prop("v", message)])
    ensures IsObjectType(message) ==> r == message
    ensures message.Undefined? ==> r == Obj([])
    ensures !message.Str? && !IsObjectType(message) && !message.Undefined? ==>
      r == (if parse(ToStr(message)).Some? then parse(ToStr(message)).value else Obj([]))
  {
    if message.Str? then Obj([Prop("v", message)])
    else if IsObjectType(message) then message
    else if message.Undefined? then Obj([])
    else match parse(ToStr(message))
      case Some(x) => x
      case None => Obj([])
  }

  /** A string message always yields a payload whose `v` is that string. */
  lemma PayloadOfString(s: string, parse: string -> Option<Value>)
    ensures Utils.HasProperty(PayloadOf(Str(s), parse), "v") == Ok(true)
    ensures GetProp(PayloadOf(Str(s), parse).props, "v") == Str(s)
  {
    var ps := [Prop("v", Str(s))];
    assert Keys(ps) == ["v"] + Keys([]);
    assert HasKey(ps, "v");
  }

  // ---------------------------------------------------------------------
  // topicReplace
  // ---------------------------------------------------------------------

  /** `messageLower`: each key of the message lower-cased, a later key overwriting an earlier one. */
  function LowerBag(message: Value, keys: seq<string>): seq<Prop>
    requires Defined(message)
  {
    if keys == [] then []
    else
      var n := |keys| - 1;
      SetProp(LowerBag(message, keys[..n]), Lower(keys[n]), Field(message, keys[n]))
  }

  /** The first index at or after `from` where `s` holds `c`. */
  function IndexOf(s: string, c: char, from: nat): (r: Option<nat>)
    ensures r.Some? ==> from <= r.value < |s| && s[r.value] == c && forall j :: from <= j < r.value ==> s[j] != c
    ensures r.None? ==> forall j :: from <= j < |s| ==> s[j] != c
    decreases |s| - from
  {
    if from >= |s| then None
    else if s[from] == c then Some(from)
    else IndexOf(s, c, from + 1)
  }

  /**
   * The keys of `topic.match(/\${[^}]+}/g)`, left to right: each match is
   * `${`, at least one character other than `}`, and the first `}` after it.
   */
  function Placeholders(s: string): seq<string>
    decreases |s|
  {
    if |s| < 2 then []
    else if s[0] == '$' && s[1] == '{' && IndexOf(s, '}', 2).Some? && IndexOf(s, '}', 2).value > 2 then
      var j := IndexOf(s, '}', 2).value;
      [s[2..j]] + Placeholders(s[j + 1..])
    else Placeholders(s[1..])
  }

  /** `s.replace(rx, rep)` for a global pattern matching the literal `pat`. */
  function ReplaceAll(s: string, pat: string, rep: string): string
    requires pat != ""
    decreases |s|
  {
    if |s| < |pat| then s
    else if s[..|pat|] == pat then rep + ReplaceAll(s[|pat|..], pat, rep)
    else [s[0]] + ReplaceAll(s[1..], pat, rep)
  }

  function Template(key: string): string {
    "${" + key + "}"
  }

  /** What a placeholder is replaced by: the lower-cased field's string form, or `''` when it is undefined. */
  function Replacement(bag: seq<Prop>, key: string): string {
    var x := GetProp(bag, Lower(key));
    if x.Undefined? then "" else ToStr(x)
  }

  /** The loop over the placeholders: each one replaced everywhere in the topic as it stands at that point. */
  function Substitute(topic: string, keys: seq<string>, bag: seq<Prop>): string {
    if keys == [] then topic
    else
      var n := |keys| - 1;
      ReplaceAll(Substitute(topic, keys[..n], bag), Template(keys[n]), Replacement(bag, keys[n]))
  }

  /**
   * `topicReplace(topic, message)`: a falsy topic or a message that is not
   * an object comes back unchanged; `Object.keys(null)` and `match` on a
   * topic that is not a string throw.
   */
  function TopicReplace(topic: Value, message: Value): (r: Result<Value>)
    ensures !Truthy(topic) || !IsObjectType(message) ==> r == Ok(topic)
    ensures Truthy(topic) && message.Null? ==> r == Err(TypeError)
    ensures r.Ok? && Truthy(topic) && IsObjectType(message) ==> topic.Str? && r.value.Str?
  {
    if !Truthy(topic) || !IsObjectType(message) then Ok(topic)
    else match OwnKeys(message)
      case Err(e) => Err(e)
      case Ok(keys) =>
        if !topic.Str? then Err(TypeError)
        else Ok(Str(Substitute(topic.s, Placeholders(topic.s), LowerBag(message, keys))))
  }

  /** The loop that builds `messageLower`. */
  method LowerBagOf(message: Value, keys: seq<string>) returns (bag: seq<Prop>)
    requires Defined(message)
    ensures bag == LowerBag(message, keys)
  {
    bag := [];
    var i := 0;
    while i < |keys|
      invariant 0 <= i <= |keys|
      invariant bag == LowerBag(message, keys[..i])
    {
      assert keys[..i + 1][..i] == keys[..i];
      bag := SetProp(bag, Lower(keys[i]), Field(message, keys[i]));
      i := i + 1;
    }
    assert keys[..i] == keys;
  }

  /** The loop over the matches, replacing each template in turn. */
  method SubstituteOf(topic: string, matches: seq<string>, bag: seq<Prop>) returns (t: string)
    ensures t == Substitute(topic, matches, bag)
  {
    t := topic;
    var j := 0;
    while j < |matches|
      invariant 0 <= j <= |matches|
      invariant t == Substitute(topic, matches[..j], bag)
    {
      assert matches[..j + 1][..j] == matches[..j];
      t := ReplaceAll(t, Template(matches[j]), Replacement(bag, matches[j]));
      j := j + 1;
    }
    assert matches[..j] == matches;
  }

  method TopicReplaceOf(topic: Value, message: Value) returns (r: Result<Value>)
    ensures r == TopicReplace(topic, message)
  {
    if !Truthy(topic) || !IsObjectType(message) {
      return Ok(topic);
    }
    var ks := OwnKeys(message);
    if ks.Err? {
      return Err(ks.error);
    }
    var bag := LowerBagOf(message, ks.value);
    if !topic.Str? {
      return Err(TypeError);
    }
    var t := SubstituteOf(topic.s, Placeholders(topic.s), bag);
    return Ok(Str(t));
  }

  // Properties of the template expansion

  lemma {:induction false} NoPlaceholders(s: string)
    requires '$' !in s
    ensures Placeholders(s) == []
    decreases |s|
  {
    if |s| >= 2 {
      assert s[0] != '$';
      NoPlaceholders(s[1..]);
    }
  }

  /** A string without `$` has no occurrence of a template to replace. */
  lemma {:induction false} ReplaceAllAbsent(s: string, key: string, rep: string)
    requires '$' !in s
    ensures ReplaceAll(s, Template(key), rep) == s
    decreases |s|
  {
    var pat := Template(key);
    if |s| >= |pat| {
      assert s[..|pat|][0] == s[0] != '$' == pat[0];
      ReplaceAllAbsent(s[1..], key, rep);
    }
  }

  lemma {:induction false} SubstituteNothing(t: string, bag: seq<Prop>)
    ensures Substitute(t, [], bag) == t
  {
  }

  /** A topic without `$` is returned as it is. */
  lemma TopicWithoutTemplate(topic: string, message: Value)
    requires topic != "" && '$' !in topic && message.Obj?
    ensures TopicReplace(Str(topic), message) == Ok(Str(topic))
  {
    NoPlaceholders(topic);
  }

  /** Characters without `$` in front of a template pass through the replacement as they are. */
  lemma {:induction false} ReplaceAllPrefix(p: string, x: string, key: string, rep: string)
    requires '$' !in p
    ensures ReplaceAll(p + x, Template(key), rep) == p + ReplaceAll(x, Template(key), rep)
    decreases |p|
  {
    var pat := Template(key);
    if p != [] {
      var s := p + x;
      assert p[0] in p;
      assert s[0] == p[0] != '$';
      assert pat[0] == '$';
      if |s| >= |pat| {
        assert s[..|pat|][0] != pat[0];
        assert s[1..] == p[1..] + x;
        ReplaceAllPrefix(p[1..], x, key, rep);
        assert [p[0]] + p[1..] == p;
      } else {
        assert |x| < |pat|;
        ReplaceAllShort(x, key, rep);
      }
    } else {
      assert p + x == x;
    }
  }

  lemma ReplaceAllShort(x: string, key: string, rep: string)
    requires |x| < |Template(key)|
    ensures ReplaceAll(x, Template(key), rep) == x
  {
  }

  /** The placeholder scan skips characters that are not `$`. */
  lemma {:induction false} PlaceholdersPrefix(p: string, x: string)
    requires '$' !in p
    ensures Placeholders(p + x) == Placeholders(x)
    decreases |p|
  {
    if p != [] {
      var s := p + x;
      assert p[0] in p;
      assert s[0] == p[0] != '$';
      assert s[1..] == p[1..] + x;
      if |s| >= 2 {
        PlaceholdersPrefix(p[1..], x);
      } else {
        assert |x| == 0 && |p| == 1;
        assert x == [];
      }
    } else {
      assert p + x == x;
    }
  }

  lemma PlaceholderAt(key: string, q: string)
    requires key != "" && '}' !in key && '$' !in q
    ensures Placeholders(Template(key) + q) == [key]
  {
    var s := Template(key) + q;
    var j := |key| + 2;
    assert s[j] == '}';
    forall i | 2 <= i < j ensures s[i] != '}' {
      assert s[i] == key[i - 2];
    }
    IndexOfFirst(s, '}', 2, j);
    assert s[2..j] == key;
    assert s[j + 1..] == q;
    NoPlaceholders(q);
  }

  lemma IndexOfFirst(s: string, c: char, from: nat, j: nat)
    requires from <= j < |s| && s[j] == c && forall i :: from <= i < j ==> s[i] != c
    ensures IndexOf(s, c, from) == Some(j)
  {
    var r := IndexOf(s, c, from);
  }

  /**
   * One template between text without `$`: the result is that text with
   * the template replaced by the message field of the same lower-cased
   * name (or by nothing).
   */
  lemma TopicOneTemplate(p: string, key: string, q: string, message: Value)
    requires key != "" && '}' !in key && '$' !in p && '$' !in q && message.Obj?
    ensures TopicReplace(Str(p + Template(key) + q), message)
         == Ok(Str(p + Replacement(LowerBag(message, Keys(message.props)), key) + q))
  {
    var topic := p + Template(key) + q;
    var bag := LowerBag(message, Keys(message.props));
    var rep := Replacement(bag, key);
    assert topic == p + (Template(key) + q);
    PlaceholdersPrefix(p, Template(key) + q);
    PlaceholderAt(key, q);
    assert [key][..0] == [];
    assert Substitute(topic, [key], bag) == ReplaceAll(topic, Template(key), rep);
    ReplaceAllPrefix(p, Template(key) + q, key, rep);
    var pat := Template(key);
    assert (pat + q)[..|pat|] == pat && (pat + q)[|pat|..] == q;
    ReplaceAllAbsent(q, key, rep);
    assert ReplaceAll(pat + q, pat, rep) == rep + q;
    assert ReplaceAll(topic, pat, rep) == p + rep + q;
    assert Placeholders(topic) == [key];
    assert Truthy(Str(topic));
    assert OwnKeys(message) == Ok(Keys(message.props));
  }

  /** A key no message field lower-cases to is replaced by nothing. */
  lemma {:induction false} LowerBagAbsent(message: Value, keys: seq<string>, k: string)
    requires Defined(message)
    requires forall i :: 0 <= i < |keys| ==> Lower(keys[i]) != k
    ensures Lookup(LowerBag(message, keys), k) == None
  {
    if keys != [] {
      var n := |keys| - 1;
      LowerBagAbsent(message, keys[..n], k);
      SetPropGet(LowerBag(message, keys[..n]), Lower(keys[n]), Field(message, keys[n]), k);
    }
  }

  /** The field that fills a key is the last message field with that lower-cased name. */
  lemma {:induction false} LowerBagLast(message: Value, keys: seq<string>, i: nat)
    requires Defined(message) && i < |keys|
    requires forall j :: i < j < |keys| ==> Lower(keys[j]) != Lower(keys[i])
    ensures Lookup(LowerBag(message, keys), Lower(keys[i])) == Some(Field(message, keys[i]))
  {
    var n := |keys| - 1;
    var front := keys[..n];
    var last := Lower(keys[n]);
    assert LowerBag(message, keys) == SetProp(LowerBag(message, front), last, Field(message, keys[n]));
    if i == n {
      SetPropGet(LowerBag(message, front), last, Field(message, keys[n]), last);
    } else {
      var k := Lower(keys[i]);
      assert last != k;
      assert front[i] == keys[i];
      forall j | i < j < |front| ensures Lower(front[j]) != Lower(front[i]) {
        assert front[j] == keys[j];
      }
      LowerBagLast(message, front, i);
      SetPropGet(LowerBag(message, front), last, Field(message, keys[n]), k);
    }
  }

  // ---------------------------------------------------------------------
  // prepareReply
  // ---------------------------------------------------------------------

  /**
   * What `prepareReply` returns: `undefined` (`Skip`), or the item it
   * built together with the exception it caught and logged on the way,
   * if any; a caught exception leaves the fields set before it in place.
   */
  datatype Reply = Skip | Item(props: seq<Prop>, error: Option<JsError>)

  /** `x || {}` for a descriptor read from the store. */
  function Stored(x: Value): (r: Value)
    ensures Truthy(r) && Defined(r)
    ensures Truthy(x) ==> r == x
    ensures !Truthy(x) ==> r == Obj([])
  {
    Or(x, Obj([]))
  }

  predicate IsType(value: Value, name: string)
    requires Defined(value)
  {
    var t := Field(value, "type");
    t.Str? && t.s == name
  }

  /**
   * `getValuesByType(base, value)`: the value range fields for the
   * descriptor's type; `key` is the property key of the payload value.
   */
  function ValuesByType(item: seq<Prop>, base: string, value: Value, key: string): ConfigStore.Partial<seq<Prop>>
    requires Defined(value)
  {
    if IsType(value, "ALARM") || IsType(value, "BOOL") then
      var range := [Or(Field(value, "valueName0"), Field(value, "minimum")),
                    Or(Field(value, "valueName1"), Field(value, "maximum"))];
      ConfigStore.Partial(SetProp(item, base + "Enum", Arr(range)), None)
    else if IsType(value, "ENUM") then
      var list := Field(value, "valueList");
      var withEnum := SetProp(item, base + "Enum", list);
      match Get(list, key)
      case Err(e) => ConfigStore.Partial(withEnum, Some(e))
      case Ok(x) => ConfigStore.Partial(SetProp(withEnum, base + "Value", x), None)
    else if IsType(value, "FLOAT") || IsType(value, "INTEGER") then
      var withMin := SetProp(item, base + "Min", Field(value, "minimum"));
      ConfigStore.Partial(SetProp(withMin, base + "Max", Field(value, "maximum")), None)
    else ConfigStore.Partial(item, None)
  }

  /** The four keys `getValuesByType` may write. */
  predicate RangeKey(base: string, k: string) {
    k == base + "Enum" || k == base + "Value" || k == base + "Min" || k == base + "Max"
  }

  lemma SuffixesDiffer(base: string)
    ensures base + "Min" != base + "Max" && base + "Enum" != base + "Value"
  {
    assert (base + "Min")[|base| + 1] == 'i' && (base + "Max")[|base| + 1] == 'a';
    assert (base + "Enum")[|base|] == 'E' && (base + "Value")[|base|] == 'V';
  }

  /** Only an ENUM descriptor without a value list throws. */
  lemma ValuesByTypeThrows(item: seq<Prop>, base: string, value: Value, key: string)
    requires Defined(value)
    ensures ValuesByType(item, base, value, key).error.Some? <==> IsType(value, "ENUM") && !Defined(Field(value, "valueList"))
  {
  }

  /** No key outside the four is touched. */
  lemma ValuesByTypeFrame(item: seq<Prop>, base: string, value: Value, key: string, k: string)
    requires Defined(value) && !RangeKey(base, k)
    ensures Lookup(ValuesByType(item, base, value, key).value, k) == Lookup(item, k)
  {
    var list := Field(value, "valueList");
    var r := ValuesByType(item, base, value, key).value;
    if IsType(value, "ALARM") || IsType(value, "BOOL") {
      var range := Arr([Or(Field(value, "valueName0"), Field(value, "minimum")),
                        Or(Field(value, "valueName1"), Field(value, "maximum"))]);
      assert r == SetProp(item, base + "Enum", range);
      SetPropGet(item, base + "Enum", range, k);
    } else if IsType(value, "ENUM") {
      var withEnum := SetProp(item, base + "Enum", list);
      SetPropGet(item, base + "Enum", list, k);
      if Get(list, key).Ok? {
        assert r == SetProp(withEnum, base + "Value", Get(list, key).value);
        SetPropGet(withEnum, base + "Value", Get(list, key).value, k);
      } else {
        assert r == withEnum;
      }
    } else if IsType(value, "FLOAT") || IsType(value, "INTEGER") {
      var withMin := SetProp(item, base + "Min", Field(value, "minimum"));
      assert r == SetProp(withMin, base + "Max", Field(value, "maximum"));
      SetPropGet(item, base + "Min", Field(value, "minimum"), k);
      SetPropGet(withMin, base + "Max", Field(value, "maximum"), k);
    } else {
      assert r == item;
    }
  }

  /** BOOL and ALARM give the two value names, or the bounds where a name is missing. */
  lemma ValuesByTypeBool(item: seq<Prop>, base: string, value: Value, key: string)
    requires Defined(value) && (IsType(value, "ALARM") || IsType(value, "BOOL"))
    ensures Lookup(ValuesByType(item, base, value, key).value, base + "Enum")
         == Some(Arr([Or(Field(value, "valueName0"), Field(value, "minimum")),
                      Or(Field(value, "valueName1"), Field(value, "maximum"))]))
  {
    var range := [Or(Field(value, "valueName0"), Field(value, "minimum")),
                  Or(Field(value, "valueName1"), Field(value, "maximum"))];
    SetPropGet(item, base + "Enum", Arr(range), base + "Enum");
  }

  /** ENUM gives the value list, and the list's entry for the payload value. */
  lemma ValuesByTypeEnum(item: seq<Prop>, base: string, value: Value, key: string)
    requires Defined(value) && IsType(value, "ENUM")
    ensures Lookup(ValuesByType(item, base, value, key).value, base + "Enum") == Some(Field(value, "valueList"))
    ensures Defined(Field(value, "valueList")) ==>
      Lookup(ValuesByType(item, base, value, key).value, base + "Value") == Some(Field(Field(value, "valueList"), key))
  {
    SuffixesDiffer(base);
    var list := Field(value, "valueList");
    SetPropGet(item, base + "Enum", list, base + "Enum");
    if Defined(list) {
      var x := Get(list, key).value;
      SetPropGet(SetProp(item, base + "Enum", list), base + "Value", x, base + "Value");
      SetPropGet(SetProp(item, base + "Enum", list), base + "Value", x, base + "Enum");
    }
  }

  /** FLOAT and INTEGER give the bounds. */
  lemma ValuesByTypeNumber(item: seq<Prop>, base: string, value: Value, key: string)
    requires Defined(value) && (IsType(value, "FLOAT") || IsType(value, "INTEGER"))
    ensures Lookup(ValuesByType(item, base, value, key).value, base + "Min") == Some(Field(value, "minimum"))
    ensures Lookup(ValuesByType(item, base, value, key).value, base + "Max") == Some(Field(value, "maximum"))
  {
    SuffixesDiffer(base);
    var withMin := SetProp(item, base + "Min", Field(value, "minimum"));
    SetPropGet(item, base + "Min", Field(value, "minimum"), base + "Min");
    SetPropGet(withMin, base + "Max", Field(value, "maximum"), base + "Max");
    SetPropGet(withMin, base + "Max", Field(value, "maximum"), base + "Min");
  }

  /** Any other type (STRING, ACTION, a missing type) adds nothing. */
  lemma ValuesByTypeOther(item: seq<Prop>, base: string, value: Value, key: string)
    requires Defined(value)
    requires !IsType(value, "ALARM") && !IsType(value, "BOOL") && !IsType(value, "ENUM")
    requires !IsType(value, "FLOAT") && !IsType(value, "INTEGER")
    ensures ValuesByType(item, base, value, key) == ConfigStore.Partial(item, None)
  {
  }

  /** `getMqttTopics(value)`: the descriptor's MQTT topics, each one kept only when it is truthy. */
  function MqttOf(value: Value): seq<Prop>
    requires Defined(value)
  {
    Topics(Field(value, "mqttGetTopic"), Field(value, "mqttSetTopic"), Field(value, "mqttStatusTopic"))
  }

  function Topics(getTopic: Value, setTopic: Value, statusTopic: Value): seq<Prop> {
    var m1 := if Truthy(getTopic) then SetProp([], "get", getTopic) else [];
    var m2 := if Truthy(setTopic) then SetProp(m1, "set", setTopic) else m1;
    if Truthy(statusTopic) then SetProp(m2, "status", statusTopic) else m2
  }

  /** `mqtt` holds `getTopic`, `setTopic` and `statusTopic` exactly when the topic is truthy, and nothing else. */
  lemma TopicsSpec(getTopic: Value, setTopic: Value, statusTopic: Value, k: string)
    ensures Lookup(Topics(getTopic, setTopic, statusTopic), k)
         == if k == "get" && Truthy(getTopic) then Some(getTopic)
            else if k == "set" && Truthy(setTopic) then Some(setTopic)
            else if k == "status" && Truthy(statusTopic) then Some(statusTopic)
            else None
  {
    var m1: seq<Prop> := if Truthy(getTopic) then SetProp([], "get", getTopic) else [];
    var m2 := if Truthy(setTopic) then SetProp(m1, "set", setTopic) else m1;
    if Truthy(getTopic) {
      SetPropGet([], "get", getTopic, k);
    }
    if Truthy(setTopic) {
      SetPropGet(m1, "set", setTopic, k);
    }
    if Truthy(statusTopic) {
      SetPropGet(m2, "status", statusTopic, k);
    }
  }

  /** A sibling the `datapoints` loop skips: the datapoint itself or the `$MASTER` parameter set. */
  predicate Skipped(child: Value, datapoint: string) {
    StrictEq(child, Str(datapoint)) || StrictEq(child, Str("$MASTER"))
  }

  /** A sibling whose cached status payload, under `prefix + child`, carries a value. */
  predicate Shown(cache: map<string, seq<Prop>>, prefix: string, datapoint: string, child: Value) {
    && !Skipped(child, datapoint)
    && prefix + ToStr(child) in cache
    && HasKey(cache[prefix + ToStr(child)], "v")
  }

  /** `item.datapoints` after the loop over the channel's children. */
  function Neighbours(cache: map<string, seq<Prop>>, prefix: string, datapoint: string, children: seq<Value>): seq<Prop>
  {
    if children == [] then []
    else
      var n := |children| - 1;
      var ds := Neighbours(cache, prefix, datapoint, children[..n]);
      var child := children[n];
      if Shown(cache, prefix, datapoint, child) then
        SetProp(ds, ToStr(child), GetProp(cache[prefix + ToStr(child)], "v"))
      else ds
  }

  /**
   * `datapoints` holds, for every sibling other than the datapoint itself
   * and `$MASTER` whose status payload is cached with a value, that value,
   * and nothing else.
   */
  lemma {:induction false} NeighboursSpec(cache: map<string, seq<Prop>>, prefix: string, datapoint: string, children: seq<Value>, k: string)
    ensures Lookup(Neighbours(cache, prefix, datapoint, children), k)
         == if exists i :: 0 <= i < |children| && ToStr(children[i]) == k && Shown(cache, prefix, datapoint, children[i])
            then Some(GetProp(cache[prefix + k], "v")) else None
  {
    if children != [] {
      var n := |children| - 1;
      var front := children[..n];
      var child := children[n];
      NeighboursSpec(cache, prefix, datapoint, front, k);
      ShownSnoc(cache, prefix, datapoint, children, k);
      var ds := Neighbours(cache, prefix, datapoint, front);
      assert Neighbours(cache, prefix, datapoint, children)
          == if Shown(cache, prefix, datapoint, child) then SetProp(ds, ToStr(child), GetProp(cache[prefix + ToStr(child)], "v")) else ds;
      if Shown(cache, prefix, datapoint, child) {
        SetPropGet(ds, ToStr(child), GetProp(cache[prefix + ToStr(child)], "v"), k);
      }
    }
  }

  /** Some sibling named `k` is shown among `children` exactly when one is among all but the last, or the last is. */
  lemma ShownSnoc(cache: map<string, seq<Prop>>, prefix: string, datapoint: string, children: seq<Value>, k: string)
    requires children != []
    ensures var n := |children| - 1;
      (exists i :: 0 <= i < |children| && ToStr(children[i]) == k && Shown(cache, prefix, datapoint, children[i]))
      <==> (|| (exists i :: 0 <= i < n && ToStr(children[..n][i]) == k && Shown(cache, prefix, datapoint, children[..n][i]))
            || (ToStr(children[n]) == k && Shown(cache, prefix, datapoint, children[n])))
  {
    var n := |children| - 1;
    var front := children[..n];
    if exists i :: 0 <= i < |children| && ToStr(children[i]) == k && Shown(cache, prefix, datapoint, children[i]) {
      var i :| 0 <= i < |children| && ToStr(children[i]) == k && Shown(cache, prefix, datapoint, children[i]);
      if i < n {
        assert front[i] == children[i];
      }
    }
    if exists i :: 0 <= i < n && ToStr(front[i]) == k && Shown(cache, prefix, datapoint, front[i]) {
      var i :| 0 <= i < n && ToStr(front[i]) == k && Shown(cache, prefix, datapoint, front[i]);
      assert front[i] == children[i];
    }
  }

  /** The loop over the channel's children. */
  method CollectNeighbours(cache: map<string, seq<Prop>>, prefix: string, datapoint: string, children: seq<Value>)
    returns (ds: seq<Prop>)
    ensures ds == Neighbours(cache, prefix, datapoint, children)
  {
    ds := [];
    var i := 0;
    while i < |children|
      invariant 0 <= i <= |children|
      invariant ds == Neighbours(cache, prefix, datapoint, children[..i])
    {
      assert children[..i + 1][..i] == children[..i];
      var child := children[i];
      if !Skipped(child, datapoint) {
        var topic := prefix + ToStr(child);
        if topic in cache && HasKey(cache[topic], "v") {
          ds := SetProp(ds, ToStr(child), GetProp(cache[topic], "v"));
        }
      }
      i := i + 1;
    }
    assert children[..i] == children;
  }

  /** The property keys the ids of a room or function list denote. */
  function Names(ids: seq<Value>): (r: seq<string>)
    ensures |r| == |ids| && forall i :: 0 <= i < |ids| ==> r[i] == ToStr(ids[i])
  {
    seq(|ids|, i requires 0 <= i < |ids| => ToStr(ids[i]))
  }

  /** `this.contextStore[kind][id]['.'].title`, which throws when a level is missing. */
  function TitleOf(tree: seq<Prop>, kind: string, id: string): Result<Value> {
    match Get(GetProp(tree, kind), id)
    case Err(e) => Err(e)
    case Ok(node) =>
      match Get(node, ".")
      case Err(e) => Err(e)
      case Ok(d) => Get(d, "title")
  }

  /**
   * `item.rooms` (or `item.functions`) after the loop over the ids, stopped by the first exception;
   * `title` reads the title of an id.
   */
  function Titles(title: string -> Result<Value>, ids: seq<string>): ConfigStore.Partial<seq<Prop>>
  {
    if ids == [] then ConfigStore.Partial([], None)
    else
      var n := |ids| - 1;
      var p := Titles(title, ids[..n]);
      if p.error.Some? then p
      else match title(ids[n])
        case Err(e) => ConfigStore.Partial(p.value, Some(e))
        case Ok(t) => ConfigStore.Partial(SetProp(p.value, ids[n], t), None)
  }

  /** The loop completes exactly when every id has a title. */
  lemma {:induction false} TitlesComplete(title: string -> Result<Value>, ids: seq<string>)
    ensures Titles(title, ids).error.None? <==> forall i :: 0 <= i < |ids| ==> title(ids[i]).Ok?
  {
    if ids != [] {
      var n := |ids| - 1;
      TitlesComplete(title, ids[..n]);
      assert forall i :: 0 <= i < n ==> ids[..n][i] == ids[i];
    }
  }

  /** When it completes, each id names its title, and nothing else is there. */
  lemma {:induction false} TitlesGet(title: string -> Result<Value>, ids: seq<string>, k: string)
    requires Titles(title, ids).error.None?
    ensures Lookup(Titles(title, ids).value, k).Some? <==> k in ids
    ensures Lookup(Titles(title, ids).value, k).Some? ==>
      title(k) == Ok(Lookup(Titles(title, ids).value, k).value)
  {
    if ids != [] {
      var n := |ids| - 1;
      var front := ids[..n];
      TitlesGet(title, front, k);
      var t := title(ids[n]).value;
      SetPropGet(Titles(title, front).value, ids[n], t, k);
      assert ids == front + [ids[n]];
    }
  }

  /** Once the loop has thrown, the later ids change nothing. */
  lemma {:induction false} TitlesStop(title: string -> Result<Value>, ids: seq<string>, i: nat)
    requires i <= |ids| && Titles(title, ids[..i]).error.Some?
    ensures Titles(title, ids) == Titles(title, ids[..i])
    decreases |ids| - i
  {
    if i < |ids| {
      assert ids[..i + 1][..i] == ids[..i];
      TitlesStop(title, ids, i + 1);
    } else {
      assert ids[..i] == ids;
    }
  }

  /** The loop over the ids, leaving it at the first exception. */
  method CollectTitles(title: string -> Result<Value>, ids: seq<string>) returns (r: ConfigStore.Partial<seq<Prop>>)
    ensures r == Titles(title, ids)
  {
    var titles := [];
    var i := 0;
    while i < |ids|
      invariant 0 <= i <= |ids|
      invariant Titles(title, ids[..i]) == ConfigStore.Partial(titles, None)
    {
      assert ids[..i + 1][..i] == ids[..i];
      var t := title(ids[i]);
      if t.Err? {
        TitlesStop(title, ids, i + 1);
        return ConfigStore.Partial(titles, Some(t.error));
      }
      titles := SetProp(titles, ids[i], t.value);
      i := i + 1;
    }
    assert ids[..i] == ids;
    return ConfigStore.Partial(titles, None);
  }

  /** What the loop that fills `item.datapoints` leaves there; it runs only when the domain has a payload cache. */
  function DatapointsOf(values: ConfigStore.Values, domain: string, device: string, channel: string,
                        datapoint: string, channelDesc: Value): ConfigStore.Partial<seq<Prop>>
    requires Defined(channelDesc)
  {
    if domain !in values then ConfigStore.Partial([], None)
    else match Iterate(Field(channelDesc, "children"))
      case Err(e) => ConfigStore.Partial([], Some(e))
      case Ok(children) =>
        var prefix := domain + "/status/" + device + "/" + channel + "/";
        ConfigStore.Partial(Neighbours(values[domain], prefix, datapoint, children), None)
  }

  /** What the loop over `channelDesc[key]` leaves in `item[key]`: the titles of `kind`. */
  function TitlesOf(tree: seq<Prop>, key: string, kind: string, channelDesc: Value): ConfigStore.Partial<seq<Prop>>
    requires Defined(channelDesc)
  {
    match Iterate(Field(channelDesc, key))
    case Err(e) => ConfigStore.Partial([], Some(e))
    case Ok(ids) => Titles(id => TitleOf(tree, kind, id), Names(ids))
  }

  /** The eleven fields copied from the device, channel and datapoint descriptors. */
  function DeviceHead(item: seq<Prop>, deviceDesc: Value, channelDesc: Value, datapointDesc: Value): seq<Prop>
    requires Defined(deviceDesc) && Defined(channelDesc) && Defined(datapointDesc)
  {
    var i1 := SetProp(item, "interfaceType", Field(deviceDesc, "interfaceType"));
    var i2 := SetProp(i1, "device", Field(deviceDesc, "address"));
    var i3 := SetProp(i2, "deviceName", Field(deviceDesc, "title"));
    var i4 := SetProp(i3, "deviceType", Field(deviceDesc, "type"));
    var i5 := SetProp(i4, "channel", Field(channelDesc, "address"));
    var i6 := SetProp(i5, "channelName", Field(channelDesc, "title"));
    var i7 := SetProp(i6, "channelType", Field(channelDesc, "type"));
    var i8 := SetProp(i7, "channelIndex", Field(channelDesc, "index"));
    var i9 := SetProp(i8, "datapoint", Field(datapointDesc, "identifier"));
    var i10 := SetProp(i9, "datapointName", Field(datapointDesc, "title"));
    SetProp(i10, "datapointType", Field(datapointDesc, "type"))
  }

  /** `datapointDefault` and `datapointControl`, when the descriptor defines them. */
  function DatapointExtras(item: seq<Prop>, datapointDesc: Value): seq<Prop>
    requires Defined(datapointDesc)
  {
    var d := Field(datapointDesc, "default");
    var c := Field(datapointDesc, "control");
    var i1 := if !d.Undefined? then SetProp(item, "datapointDefault", d) else item;
    if !c.Undefined? then SetProp(i1, "datapointControl", c) else i1
  }

  /**
   * Everything after the range fields: `datapoints`, `rooms` and
   * `functions` are each set to `{}` and then filled by a loop, and
   * `mqtt` comes last; an exception in a loop ends the item there.
   */
  function Rest(item: seq<Prop>, datapoints: ConfigStore.Partial<seq<Prop>>, rooms: ConfigStore.Partial<seq<Prop>>,
                functions: ConfigStore.Partial<seq<Prop>>, mqtt: seq<Prop>): Reply
  {
    var i1 := SetProp(item, "datapoints", Obj(datapoints.value));
    if datapoints.error.Some? then Item(i1, datapoints.error)
    else
      var i2 := SetProp(i1, "rooms", Obj(rooms.value));
      if rooms.error.Some? then Item(i2, rooms.error)
      else
        var i3 := SetProp(i2, "functions", Obj(functions.value));
        if functions.error.Some? then Item(i3, functions.error)
        else Item(SetProp(i3, "mqtt", Obj(mqtt)), None)
  }

  /** When no loop throws, each of the four keys holds what its step computed. */
  lemma RestSpec(item: seq<Prop>, datapoints: ConfigStore.Partial<seq<Prop>>, rooms: ConfigStore.Partial<seq<Prop>>,
                 functions: ConfigStore.Partial<seq<Prop>>, mqtt: seq<Prop>)
    requires datapoints.error.None? && rooms.error.None? && functions.error.None?
    ensures var r := Rest(item, datapoints, rooms, functions, mqtt);
      && r.Item? && r.error.None?
      && Lookup(r.props, "datapoints") == Some(Obj(datapoints.value))
      && Lookup(r.props, "rooms") == Some(Obj(rooms.value))
      && Lookup(r.props, "functions") == Some(Obj(functions.value))
      && Lookup(r.props, "mqtt") == Some(Obj(mqtt))
  {
    var i1 := SetProp(item, "datapoints", Obj(datapoints.value));
    var i2 := SetProp(i1, "rooms", Obj(rooms.value));
    var i3 := SetProp(i2, "functions", Obj(functions.value));
    SetPropGet(item, "datapoints", Obj(datapoints.value), "datapoints");
    SetPropGet(i1, "rooms", Obj(rooms.value), "datapoints");
    SetPropGet(i1, "rooms", Obj(rooms.value), "rooms");
    SetPropGet(i2, "functions", Obj(functions.value), "datapoints");
    SetPropGet(i2, "functions", Obj(functions.value), "rooms");
    SetPropGet(i2, "functions", Obj(functions.value), "functions");
    SetPropGet(i3, "mqtt", Obj(mqtt), "datapoints");
    SetPropGet(i3, "mqtt", Obj(mqtt), "rooms");
    SetPropGet(i3, "mqtt", Obj(mqtt), "functions");
    SetPropGet(i3, "mqtt", Obj(mqtt), "mqtt");
  }

  /** The inner `try` for a device datapoint whose three levels are present. */
  function DeviceDetails(item: seq<Prop>, tree: seq<Prop>, values: ConfigStore.Values, domain: string, device: string,
                         channel: string, datapoint: string, deviceNode: Value, channelNode: Value, datapointNode: Value,
                         pv: Value): (r: Reply)
    requires Defined(deviceNode) && Defined(channelNode)
    ensures r.Item?
  {
    match Get(datapointNode, ".")
    case Err(e) => Item(item, Some(e))
    case Ok(d) =>
      var deviceDesc := Stored(Field(deviceNode, "."));
      var channelDesc := Stored(Field(channelNode, "."));
      var datapointDesc := Stored(d);
      var typed := ValuesByType(DeviceHead(item, deviceDesc, channelDesc, datapointDesc), "datapoint", datapointDesc, ToStr(pv));
      Described(typed, tree, values, domain, device, channel, datapoint, channelDesc, datapointDesc)
  }

  /** The device case once the range fields are in `typed`. */
  function Described(typed: ConfigStore.Partial<seq<Prop>>, tree: seq<Prop>, values: ConfigStore.Values, domain: string,
                     device: string, channel: string, datapoint: string, channelDesc: Value, datapointDesc: Value): (r: Reply)
    requires Defined(channelDesc) && Defined(datapointDesc)
    ensures r.Item?
  {
    if typed.error.Some? then Item(typed.value, typed.error)
    else Rest(DatapointExtras(typed.value, datapointDesc),
              DatapointsOf(values, domain, device, channel, datapoint, channelDesc),
              TitlesOf(tree, "rooms", Constants.ROOM, channelDesc),
              TitlesOf(tree, "functions", Constants.FUNCTION, channelDesc),
              MqttOf(datapointDesc))
  }

  /**
   * The device and virtual device case: the three presence checks, then
   * the details. The reply is `undefined` exactly when a level is
   * missing, and `{domain}` with the exception when a level cannot be read.
   */
  function DeviceReply(item: seq<Prop>, tree: seq<Prop>, values: ConfigStore.Values, domain: string, device: string,
                       channel: string, datapoint: string, pv: Value): (r: Reply)
    ensures r.Skip? <==> Walk(GetProp(tree, domain), [device, channel, datapoint]) == Ok(false)
    ensures Walk(GetProp(tree, domain), [device, channel, datapoint]).Err? ==>
      r == Item(item, Some(Walk(GetProp(tree, domain), [device, channel, datapoint]).error))
  {
    var dom := GetProp(tree, domain);
    WalkStep(dom, [device, channel, datapoint]);
    match Utils.HasProperty(dom, device)
    case Err(e) => Item(item, Some(e))
    case Ok(b0) =>
      if !b0 then Skip
      else
        var deviceNode := Field(dom, device);
        WalkStep(deviceNode, [channel, datapoint]);
        match Utils.HasProperty(deviceNode, channel)
        case Err(e) => Item(item, Some(e))
        case Ok(b1) =>
          if !b1 then Skip
          else
            var channelNode := Field(deviceNode, channel);
            WalkStep(channelNode, [datapoint]);
            match Utils.HasProperty(channelNode, datapoint)
            case Err(e) => Item(item, Some(e))
            case Ok(b2) =>
              if !b2 then Skip
              else DeviceDetails(item, tree, values, domain, device, channel, datapoint, deviceNode, channelNode,
                                 Field(channelNode, datapoint), pv)
  }

  /**
   * The program and system variable case. The reply is `undefined` exactly
   * when the id is missing, and `{domain}` with the exception when the
   * domain cannot be read.
   */
  function IseReply(item: seq<Prop>, tree: seq<Prop>, domain: string, iseId: string, pv: Value): (r: Reply)
    ensures r.Skip? <==> Walk(GetProp(tree, domain), [iseId]) == Ok(false)
    ensures Walk(GetProp(tree, domain), [iseId]).Err? ==>
      r == Item(item, Some(Walk(GetProp(tree, domain), [iseId]).error))
  {
    var dom := GetProp(tree, domain);
    WalkStep(dom, [iseId]);
    match Utils.HasProperty(dom, iseId)
    case Err(e) => Item(item, Some(e))
    case Ok(b) =>
      if !b then Skip
      else match Get(Field(dom, iseId), ".")
        case Err(e) => Item(item, Some(e))
        case Ok(x) =>
          var desc := Stored(x);
          var named := SetProp(SetProp(item, domain, Field(desc, "identifier")), domain + "Name", Field(desc, "title"));
          if domain == Constants.PROGRAM then
            var flags := SetProp(SetProp(named, "active", Field(desc, "active")), "visible", Field(desc, "visible"));
            Item(SetProp(flags, "mqtt", Obj(MqttOf(desc))), None)
          else
            var typed := ValuesByType(SetProp(named, domain + "Type", Field(desc, "type")), domain, desc, ToStr(pv));
            if typed.error.Some? then Item(typed.value, typed.error)
            else Item(SetProp(typed.value, "mqtt", Obj(MqttOf(desc))), None)
  }

  predicate IsDeviceDomain(domain: string) {
    domain == Constants.DEVICE || domain == Constants.VIRTDEV
  }

  predicate IsIseDomain(domain: string) {
    domain == Constants.PROGRAM || domain == Constants.SYSVAR
  }

  /**
   * `prepareReply(domain, topicParts, payloadValue)` on the context store
   * `tree` and its payload cache `values`: `undefined` for the wrong number
   * of topic parts or a level missing from the store, `{domain}` for any
   * other domain.
   */
  function PrepareReply(tree: seq<Prop>, values: ConfigStore.Values, domain: string, parts: seq<string>, pv: Value): (r: Reply)
    ensures !IsDeviceDomain(domain) && !IsIseDomain(domain) ==> r == Item([Prop("domain", Str(domain))], None)
    ensures IsDeviceDomain(domain) || IsIseDomain(domain) ==>
      (r.Skip? <==> |parts| != (if IsDeviceDomain(domain) then 3 else 1) || Walk(GetProp(tree, domain), parts) == Ok(false))
    ensures ((IsDeviceDomain(domain) && |parts| == 3) || (IsIseDomain(domain) && |parts| == 1))
            && Walk(GetProp(tree, domain), parts).Err? ==>
      r == Item([Prop("domain", Str(domain))], Some(Walk(GetProp(tree, domain), parts).error))
  {
    var item := [Prop("domain", Str(domain))];
    if IsDeviceDomain(domain) then
      if |parts| != 3 then Skip
      else
        assert parts == [parts[0], parts[1], parts[2]];
        DeviceReply(item, tree, values, domain, parts[0], parts[1], parts[2], pv)
    else if IsIseDomain(domain) then
      if |parts| != 1 then Skip
      else
        assert parts == [parts[0]];
        IseReply(item, tree, domain, parts[0], pv)
    else Item(item, None)
  }

  /**
   * Walks `node[p0][p1]...` with `hasProperty` at each level: `Ok(true)`
   * when every level is present, `Ok(false)` at the first one missing, and
   * the exception of a level that is undefined or null.
   */
  function Walk(node: Value, path: seq<string>): Result<bool>
    decreases |path|
  {
    if path == [] then Ok(true)
    else match Utils.HasProperty(node, path[0])
      case Err(e) => Err(e)
      case Ok(b) => if !b then Ok(false) else Walk(Field(node, path[0]), path[1..])
  }

  lemma WalkStep(node: Value, path: seq<string>)
    requires path != []
    ensures Walk(node, path) == match Utils.HasProperty(node, path[0])
      case Err(e) => Err(e)
      case Ok(b) => if !b then Ok(false) else Walk(Field(node, path[0]), path[1..])
    ensures |path| == 1 && Utils.HasProperty(node, path[0]) == Ok(true) ==> Walk(node, path) == Ok(true)
  {
    if |path| == 1 {
      assert path[1..] == [];
    }
  }

  /** Every level along `path` below the top that is present is an object. */
  predicate ObjectsAlong(ps: seq<Prop>, path: seq<string>)
    decreases |path|
  {
    |path| <= 1 || (HasKey(ps, path[0]) ==> GetProp(ps, path[0]).Obj? && ObjectsAlong(GetProp(ps, path[0]).props, path[1..]))
  }

  /** In a store whose levels are objects, the presence checks agree with the nested lookup. */
  lemma {:induction false} WalkLookup(ps: seq<Prop>, path: seq<string>)
    requires |path| >= 1 && ObjectsAlong(ps, path)
    ensures Walk(Obj(ps), path) == Ok(JackApi.LookupPath(ps, path).Some?)
    decreases |path|
  {
    if |path| == 1 {
      assert path[1..] == [];
    } else if HasKey(ps, path[0]) {
      WalkLookup(GetProp(ps, path[0]).props, path[1..]);
    }
  }

  /**
   * A stored datapoint, in a store whose levels are objects, gets a reply
   * exactly when it is in the store.
   */
  lemma ReplyForStored(tree: seq<Prop>, values: ConfigStore.Values, domain: string, parts: seq<string>, pv: Value)
    requires (IsDeviceDomain(domain) && |parts| == 3) || (IsIseDomain(domain) && |parts| == 1)
    requires GetProp(tree, domain).Obj? && ObjectsAlong(GetProp(tree, domain).props, parts)
    ensures PrepareReply(tree, values, domain, parts, pv).Skip? <==> JackApi.LookupPath(GetProp(tree, domain).props, parts).None?
  {
    WalkLookup(GetProp(tree, domain).props, parts);
  }

  /** The `datapoints` step, with its loop. */
  method CollectDatapoints(values: ConfigStore.Values, domain: string, device: string, channel: string,
                           datapoint: string, channelDesc: Value) returns (r: ConfigStore.Partial<seq<Prop>>)
    requires Defined(channelDesc)
    ensures r == DatapointsOf(values, domain, device, channel, datapoint, channelDesc)
  {
    if domain !in values {
      return ConfigStore.Partial([], None);
    }
    var children := Iterate(Field(channelDesc, "children"));
    if children.Err? {
      return ConfigStore.Partial([], Some(children.error));
    }
    var ds := CollectNeighbours(values[domain], domain + "/status/" + device + "/" + channel + "/", datapoint, children.value);
    return ConfigStore.Partial(ds, None);
  }

  /** The `rooms` or `functions` step, with its loop. */
  method CollectChannelTitles(tree: seq<Prop>, key: string, kind: string, channelDesc: Value)
    returns (r: ConfigStore.Partial<seq<Prop>>)
    requires Defined(channelDesc)
    ensures r == TitlesOf(tree, key, kind, channelDesc)
  {
    var ids := Iterate(Field(channelDesc, key));
    if ids.Err? {
      return ConfigStore.Partial([], Some(ids.error));
    }
    r := CollectTitles(id => TitleOf(tree, kind, id), Names(ids.value));
  }

  /** `prepareReply` as the statements it runs. */
  method PrepareReplyOf(tree: seq<Prop>, values: ConfigStore.Values, domain: string, parts: seq<string>, pv: Value)
    returns (r: Reply)
    ensures r == PrepareReply(tree, values, domain, parts, pv)
  {
    var item := [Prop("domain", Str(domain))];
    if IsIseDomain(domain) && !IsDeviceDomain(domain) {
      if |parts| != 1 {
        return Skip;
      }
      return IseReply(item, tree, domain, parts[0], pv);
    }
    if !IsDeviceDomain(domain) {
      return Item(item, None);
    }
    if |parts| != 3 {
      return Skip;
    }
    var device, channel, datapoint := parts[0], parts[1], parts[2];
    var dom := GetProp(tree, domain);
    var h0 := Utils.HasProperty(dom, device);
    if h0.Err? {
      return Item(item, Some(h0.error));
    } else if !h0.value {
      return Skip;
    }
    var deviceNode := Field(dom, device);
    var h1 := Utils.HasProperty(deviceNode, channel);
    if h1.Err? {
      return Item(item, Some(h1.error));
    } else if !h1.value {
      return Skip;
    }
    var channelNode := Field(deviceNode, channel);
    var h2 := Utils.HasProperty(channelNode, datapoint);
    if h2.Err? {
      return Item(item, Some(h2.error));
    } else if !h2.value {
      return Skip;
    }
    r := DeviceDetailsOf(item, tree, values, domain, device, channel, datapoint, deviceNode, channelNode,
                         Field(channelNode, datapoint), pv);
  }

  /** The inner `try` of the device case. */
  method DeviceDetailsOf(item: seq<Prop>, tree: seq<Prop>, values: ConfigStore.Values, domain: string, device: string,
                         channel: string, datapoint: string, deviceNode: Value, channelNode: Value, datapointNode: Value,
                         pv: Value) returns (r: Reply)
    requires Defined(deviceNode) && Defined(channelNode)
    ensures r == DeviceDetails(item, tree, values, domain, device, channel, datapoint, deviceNode, channelNode, datapointNode, pv)
  {
    var d := Get(datapointNode, ".");
    if d.Err? {
      return Item(item, Some(d.error));
    }
    var deviceDesc := Stored(Field(deviceNode, "."));
    var channelDesc := Stored(Field(channelNode, "."));
    var datapointDesc := Stored(d.value);
    var typed := ValuesByType(DeviceHead(item, deviceDesc, channelDesc, datapointDesc), "datapoint", datapointDesc, ToStr(pv));
    r := DescribedOf(typed, tree, values, domain, device, channel, datapoint, channelDesc, datapointDesc);
  }

  /** The device case after the range fields, with its loops. */
  method DescribedOf(typed: ConfigStore.Partial<seq<Prop>>, tree: seq<Prop>, values: ConfigStore.Values, domain: string,
                     device: string, channel: string, datapoint: string, channelDesc: Value, datapointDesc: Value)
    returns (r: Reply)
    requires Defined(channelDesc) && Defined(datapointDesc)
    ensures r == Described(typed, tree, values, domain, device, channel, datapoint, channelDesc, datapointDesc)
  {
    if typed.error.Some? {
      return Item(typed.value, typed.error);
    }
    var dps := CollectDatapoints(values, domain, device, channel, datapoint, channelDesc);
    var rooms := CollectChannelTitles(tree, "rooms", Constants.ROOM, channelDesc);
    var fns := CollectChannelTitles(tree, "functions", Constants.FUNCTION, channelDesc);
    r := Rest(DatapointExtras(typed.value, datapointDesc), dps, rooms, fns, MqttOf(datapointDesc));
  }
}
