/**
 * The filter engine of the configuration node (`applyFilter`): decides
 * whether a consumer receives an enriched MQTT status message.
 *
 * A filter is an object whose keys are visited in order.  The `cache` and
 * `change` keys are gates on the payload flags; a topic the consumer has
 * already received skips every other key; every other key compares its
 * value with the same-named field of the enrichment bag ("additions").
 * The filter's `channelIndex` is overwritten in place by its `parseInt`
 * value, so the rewritten filter is part of the result.
 */
module ConfigFilter {
  import opened Js

  datatype Outcome = Accepted | Rejected | Threw

  /** The inputs of one `applyFilter` call besides the filter itself. */
  datatype Context = Context(
    topic: string,
    payload: seq<Prop>,
    additions: Value,
    whitelisted: set<string>,
    test: Matcher)

  /** The outcome and the filter as the call leaves it. */
  datatype Filtered = Filtered(outcome: Outcome, filter: Option<seq<Prop>>)

  datatype Scanned = Scanned(outcome: Outcome, filter: seq<Prop>)

  // ---------------------------------------------------------------------
  // The gates and the value comparison of one attribute
  // ---------------------------------------------------------------------

  /** `!filter.cache && payload.cache` */
  predicate CacheGateRejects(f: seq<Prop>, payload: seq<Prop>) {
    !Truthy(GetProp(f, "cache")) && Truthy(GetProp(payload, "cache"))
  }

  /** `filter.change && !payload.change && !(filter.cache && payload.cache)` */
  predicate ChangeGateRejects(f: seq<Prop>, payload: seq<Prop>) {
    Truthy(GetProp(f, "change")) && !Truthy(GetProp(payload, "change"))
    && !(Truthy(GetProp(f, "cache")) && Truthy(GetProp(payload, "cache")))
  }

  /** A filter value of `''` or `'*'` accepts anything. */
  predicate Wildcard(fv: Value) {
    StrictEq(fv, Str("")) || StrictEq(fv, Str("*"))
  }

  /** The value a filter attribute is compared with: `channelIndex` is read through `parseInt`. */
  function Normalized(attribute: string, fv: Value): Value {
    if attribute == "channelIndex" && !fv.Undefined? then ParseInt(fv) else fv
  }

  function AnyTest(test: Matcher, source: string, items: seq<Value>): (r: bool)
    ensures r <==> exists i :: 0 <= i < |items| && test(source, ToStr(items[i]))
  {
    if items == [] then false
    else test(source, ToStr(items[0])) || AnyTest(test, source, items[1..])
  }

  function AnyIncludes(items: seq<Value>, x: Value): (r: bool)
    ensures r <==> exists i :: 0 <= i < |items| && SameValueZero(items[i], x)
  {
    if items == [] then false
    else SameValueZero(items[0], x) || AnyIncludes(items[1..], x)
  }

  /** The pattern matches the key `k` of `bag` or the value stored under it. */
  predicate KeyOrValueTest(test: Matcher, source: string, bag: seq<Prop>, k: string) {
    test(source, k) || test(source, ToStr(GetProp(bag, k)))
  }

  function AnyKeyOrValue(test: Matcher, source: string, bag: seq<Prop>, keys: seq<string>): (r: bool)
    ensures r <==> exists i :: 0 <= i < |keys| && KeyOrValueTest(test, source, bag, keys[i])
  {
    if keys == [] then false
    else KeyOrValueTest(test, source, bag, keys[0]) || AnyKeyOrValue(test, source, bag, keys[1..])
  }

  /**
   * Whether filter value `fv` accepts the additions' value `av`:
   *  - an array matches when the pattern matches some element, or includes the literal;
   *  - an object matches when the pattern matches some key or value, or has the literal as own key;
   *  - anything else is tested by the pattern, or compared with the literal by `===`.
   * Reading keys of null throws.
   */
  function AttributeMatches(fv: Value, av: Value, test: Matcher): Result<bool> {
    match av
    case Arr(es) =>
      if fv.Pattern? then Ok(AnyTest(test, fv.source, es)) else Ok(AnyIncludes(es, fv))
    case Null => Err(TypeError)
    case Obj(ps) =>
      if fv.Pattern? then Ok(AnyKeyOrValue(test, fv.source, ps, Keys(ps)))
      else HasOwn(av, ToStr(fv))
    case Pattern(_) =>
      if fv.Pattern? then Ok(false) else HasOwn(av, ToStr(fv))
    case _ =>
      if fv.Pattern? then Ok(test(fv.source, ToStr(av))) else Ok(StrictEq(fv, av))
  }

  /** The matching rules of one attribute, case by case. */
  lemma AttributeMatchesCases(fv: Value, av: Value, test: Matcher)
    ensures av.Arr? && fv.Pattern? ==>
      AttributeMatches(fv, av, test) == Ok(exists i :: 0 <= i < |av.elems| && test(fv.source, ToStr(av.elems[i])))
    ensures av.Arr? && !fv.Pattern? ==>
      AttributeMatches(fv, av, test) == Ok(exists i :: 0 <= i < |av.elems| && SameValueZero(av.elems[i], fv))
    ensures av.Obj? && fv.Pattern? ==>
      AttributeMatches(fv, av, test)
      == Ok(exists i :: 0 <= i < |av.props| && KeyOrValueTest(test, fv.source, av.props, av.props[i].key))
    ensures av.Obj? && !fv.Pattern? ==> AttributeMatches(fv, av, test) == Ok(HasKey(av.props, ToStr(fv)))
    ensures !IsObjectType(av) && fv.Pattern? ==> AttributeMatches(fv, av, test) == Ok(test(fv.source, ToStr(av)))
    ensures !IsObjectType(av) && !fv.Pattern? ==> AttributeMatches(fv, av, test) == Ok(StrictEq(fv, av))
    ensures AttributeMatches(fv, av, test).Err? <==> av.Null?
  {
    if av.Obj? && fv.Pattern? {
      var ps := av.props;
      var r := AnyKeyOrValue(test, fv.source, ps, Keys(ps));
      assert r <==> exists i :: 0 <= i < |ps| && KeyOrValueTest(test, fv.source, ps, Keys(ps)[i]);
    }
  }

  // ---------------------------------------------------------------------
  // The loop, as a recursive specification
  // ---------------------------------------------------------------------

  /** What one pass of the loop body leaves: the call returns, or the loop goes on. */
  datatype Step =
    | Stop(outcome: Outcome, filter: seq<Prop>)
    | Next(filter: seq<Prop>, seenCache: bool, seenChange: bool)

  /** `filter.channelIndex = Number.parseInt(filter.channelIndex, 10)` when it is defined. */
  function Rewrite(f: seq<Prop>, a: string): seq<Prop> {
    if a == "channelIndex" && !GetProp(f, a).Undefined? then SetProp(f, a, ParseInt(GetProp(f, a))) else f
  }

  /** `additions[a]` compared with the filter value; reading a field of undefined throws. */
  function Judge(fv: Value, got: Result<Value>, test: Matcher): Result<bool> {
    match got
    case Err(e) => Err(e)
    case Ok(av) => AttributeMatches(fv, av, test)
  }

  /** The comparison of attribute `a` with the additions' field of that name. */
  function Compare(f: seq<Prop>, a: string, c: Context, seenCache: bool, seenChange: bool): Step {
    var f' := Rewrite(f, a);
    match Judge(GetProp(f', a), Get(c.additions, a), c.test)
    case Err(_) => Stop(Threw, f')
    case Ok(b) => if b then Next(f', seenCache, seenChange) else Stop(Rejected, f')
  }

  /** One pass of the loop body, for attribute `a`. */
  function StepAt(f: seq<Prop>, a: string, c: Context, seenCache: bool, seenChange: bool): Step {
    if a == "cache" then
      if CacheGateRejects(f, c.payload) then Stop(Rejected, f) else Next(f, true, seenChange)
    else if a == "change" then
      if ChangeGateRejects(f, c.payload) then Stop(Rejected, f) else Next(f, seenCache, true)
    else if c.topic in c.whitelisted then
      if seenCache && seenChange then Stop(Accepted, f) else Next(f, seenCache, seenChange)
    else if Wildcard(GetProp(f, a)) then
      Next(f, seenCache, seenChange)
    else
      Compare(f, a, c, seenCache, seenChange)
  }

  /**
   * The loop of `applyFilter` from key `i` on: `keys` is the snapshot of
   * `Object.keys(filter)`, `f` the filter as rewritten so far, and the two
   * flags record that the `cache` / `change` key has been passed.
   */
  function Scan(f: seq<Prop>, keys: seq<string>, i: nat, c: Context, seenCache: bool, seenChange: bool): Scanned
    requires i <= |keys|
    decreases |keys| - i
  {
    if i == |keys| then Scanned(Accepted, f)
    else
      match StepAt(f, keys[i], c, seenCache, seenChange)
      case Stop(outcome, f') => Scanned(outcome, f')
      case Next(f', sc, sch) => Scan(f', keys, i + 1, c, sc, sch)
  }

  /** `applyFilter(filter, topic, payload, additions, whitelistedTopics)`; a non-object filter matches. */
  function Apply(filter: Option<seq<Prop>>, c: Context): Filtered {
    match filter
    case None => Filtered(Accepted, None)
    case Some(f) =>
      var r := Scan(f, Keys(f), 0, c, false, false);
      Filtered(r.outcome, Some(r.filter))
  }

  // ---------------------------------------------------------------------
  // One pass of the loop, case by case
  // ---------------------------------------------------------------------

  /** A pass over an attribute that is neither a gate nor a wildcard, for a new topic, is a comparison. */
  lemma StepIsCompare(f: seq<Prop>, a: string, c: Context, seenCache: bool, seenChange: bool)
    requires a != "cache" && a != "change" && c.topic !in c.whitelisted && !Wildcard(GetProp(f, a))
    ensures StepAt(f, a, c, seenCache, seenChange) == Compare(f, a, c, seenCache, seenChange)
  {
  }

  /**
   * A comparison rewrites the filter, then throws, rejects or goes on as
   * the normalised filter value and the additions' field decide.
   */
  lemma CompareVerdict(f: seq<Prop>, a: string, c: Context, seenCache: bool, seenChange: bool)
    ensures var r := Judge(Normalized(a, GetProp(f, a)), Get(c.additions, a), c.test);
      Compare(f, a, c, seenCache, seenChange)
      == if r.Err? then Stop(Threw, Rewrite(f, a))
         else if r.value then Next(Rewrite(f, a), seenCache, seenChange)
         else Stop(Rejected, Rewrite(f, a))
  {
    RewriteGet(f, a, a);
  }

  /** The rewrite touches only `channelIndex`. */
  lemma RewriteGet(f: seq<Prop>, a: string, k: string)
    ensures GetProp(Rewrite(f, a), k) == if k == a then Normalized(a, GetProp(f, a)) else GetProp(f, k)
  {
    if a == "channelIndex" && !GetProp(f, a).Undefined? {
      SetPropGet(f, a, ParseInt(GetProp(f, a)), k);
    }
  }

  /**
   * Every pass leaves the filter as it was or rewritten, sets the flag of
   * the gate it passes, and accepts only at the early exit of a topic
   * already delivered, once both gates were seen.
   */
  lemma StepShape(f: seq<Prop>, a: string, c: Context, seenCache: bool, seenChange: bool)
    ensures StepAt(f, a, c, seenCache, seenChange).filter == f
         || StepAt(f, a, c, seenCache, seenChange).filter == Rewrite(f, a)
    ensures StepAt(f, a, c, seenCache, seenChange).Next? ==>
      StepAt(f, a, c, seenCache, seenChange).seenCache == (seenCache || a == "cache")
      && StepAt(f, a, c, seenCache, seenChange).seenChange == (seenChange || a == "change")
    ensures StepAt(f, a, c, seenCache, seenChange) == Stop(Accepted, f) ==>
      c.topic in c.whitelisted && seenCache && seenChange
    ensures StepAt(f, a, c, seenCache, seenChange).Stop? && StepAt(f, a, c, seenCache, seenChange).outcome == Accepted ==>
      StepAt(f, a, c, seenCache, seenChange) == Stop(Accepted, f)
  {
    if a != "cache" && a != "change" && c.topic !in c.whitelisted && !Wildcard(GetProp(f, a)) {
      StepIsCompare(f, a, c, seenCache, seenChange);
      CompareVerdict(f, a, c, seenCache, seenChange);
    }
  }

  // ---------------------------------------------------------------------
  // The loop as the configuration node runs it
  // ---------------------------------------------------------------------

  /** The comparison of one attribute's filter value `fv` with the additions' value `av`. */
  method MatchValue(fv: Value, av: Value, test: Matcher) returns (r: Result<bool>)
    ensures r == AttributeMatches(fv, av, test)
  {
    if av.Arr? {
      if fv.Pattern? {
        var matched := false;
        for j := 0 to |av.elems|
          invariant matched <==> (exists k :: 0 <= k < j && test(fv.source, ToStr(av.elems[k])))
        {
          if test(fv.source, ToStr(av.elems[j])) {
            matched := true;
          }
        }
        return Ok(matched);
      }
      return Ok(AnyIncludes(av.elems, fv));
    } else if IsObjectType(av) {
      if av.Null? {
        return Err(TypeError);
      }
      if fv.Pattern? {
        var matched := false;
        if av.Obj? {
          var names := Keys(av.props);
          for j := 0 to |names|
            invariant matched <==> exists k :: 0 <= k < j && KeyOrValueTest(test, fv.source, av.props, names[k])
          {
            if test(fv.source, names[j]) || test(fv.source, ToStr(GetProp(av.props, names[j]))) {
              matched := true;
            }
          }
        }
        return Ok(matched);
      }
      return HasOwn(av, ToStr(fv));
    } else if fv.Pattern? {
      return Ok(test(fv.source, ToStr(av)));
    }
    return Ok(StrictEq(fv, av));
  }

  /**
   * The comparison part of the loop body for one attribute: the rewrite of
   * `channelIndex`, the read of the additions' field and the match.
   */
  method CompareAttribute(f: seq<Prop>, attribute: string, c: Context, ghost seenCache: bool, ghost seenChange: bool)
    returns (f': seq<Prop>, threw: bool, matched: bool)
    requires attribute != "cache" && attribute != "change"
    requires c.topic !in c.whitelisted && !Wildcard(GetProp(f, attribute))
    ensures StepAt(f, attribute, c, seenCache, seenChange)
         == if threw then Stop(Threw, f')
            else if matched then Next(f', seenCache, seenChange)
            else Stop(Rejected, f')
  {
    StepIsCompare(f, attribute, c, seenCache, seenChange);
    CompareVerdict(f, attribute, c, seenCache, seenChange);
    RewriteGet(f, attribute, attribute);
    f' := f;
    if attribute == "channelIndex" && !GetProp(f, attribute).Undefined? {
      f' := SetProp(f, attribute, ParseInt(GetProp(f, attribute)));
    }
    var got := Get(c.additions, attribute);
    if got.Err? {
      return f', true, false;
    }
    var r := MatchValue(GetProp(f', attribute), got.value, c.test);
    threw := r.Err?;
    matched := r.Ok? && r.value;
  }

  /** `applyFilter`: the outcome, and the filter as the call leaves it. */
  method ApplyFilter(filter: Option<seq<Prop>>, c: Context) returns (outcome: Outcome, filter': Option<seq<Prop>>)
    ensures Filtered(outcome, filter') == Apply(filter, c)
  {
    outcome := Accepted;
    filter' := filter;
    if filter.None? {
      return;
    }
    var f := filter.value;
    var keys := Keys(f);
    var matched := true;
    var seenCache := false;
    var seenChange := false;
    var i := 0;
    while matched && i < |keys|
      invariant 0 <= i <= |keys|
      invariant matched ==> Scan(f, keys, i, c, seenCache, seenChange) == Scan(filter.value, keys, 0, c, false, false)
      invariant !matched ==> Scanned(Rejected, f) == Scan(filter.value, keys, 0, c, false, false)
      decreases |keys| - i
    {
      ghost var f0, sc0, sch0 := f, seenCache, seenChange;
      var attribute := keys[i];
      if attribute == "cache" {
        if CacheGateRejects(f, c.payload) {
          return Rejected, Some(f);
        }
        seenCache := true;
      } else if attribute == "change" {
        if ChangeGateRejects(f, c.payload) {
          return Rejected, Some(f);
        }
        seenChange := true;
      } else if c.topic in c.whitelisted {
        if seenCache && seenChange {
          break;
        }
      } else if !Wildcard(GetProp(f, attribute)) {
        var threw;
        f, threw, matched := CompareAttribute(f, attribute, c, seenCache, seenChange);
        if threw {
          return Threw, Some(f);
        }
      }
      assert StepAt(f0, attribute, c, sc0, sch0) == if matched then Next(f, seenCache, seenChange) else Stop(Rejected, f);
      i := i + 1;
    }
    outcome := if matched then Accepted else Rejected;
    filter' := Some(f);
  }

  // ---------------------------------------------------------------------
  // Properties
  // ---------------------------------------------------------------------

  /** A filter that is missing or not an object matches everything and is left alone. */
  lemma MissingFilterMatches(c: Context)
    ensures Apply(None, c) == Filtered(Accepted, None)
    ensures forall f :: Apply(Some(f), c).filter.Some?
  {
  }

  /** A pass over an attribute other than `cache`, before `cache` was seen, keeps the gate closed. */
  lemma StepKeepsCacheGate(f: seq<Prop>, a: string, c: Context, seenChange: bool)
    requires a != "cache" && CacheGateRejects(f, c.payload)
    ensures match StepAt(f, a, c, false, seenChange)
      case Stop(outcome, _) => outcome != Accepted
      case Next(f', sc, _) => !sc && CacheGateRejects(f', c.payload)
  {
    StepShape(f, a, c, false, seenChange);
    RewriteGet(f, a, "cache");
  }

  lemma {:induction false} CacheGateScan(f: seq<Prop>, keys: seq<string>, i: nat, c: Context, seenChange: bool)
    requires i <= |keys| && "cache" in keys[i..]
    requires CacheGateRejects(f, c.payload)
    ensures Scan(f, keys, i, c, false, seenChange).outcome != Accepted
    decreases |keys| - i
  {
    if keys[i] != "cache" {
      assert "cache" in keys[i + 1..] by {
        assert keys[i..] == [keys[i]] + keys[i + 1..];
      }
      StepKeepsCacheGate(f, keys[i], c, seenChange);
      match StepAt(f, keys[i], c, false, seenChange)
      case Stop(_, _) =>
      case Next(f', _, sch) => CacheGateScan(f', keys, i + 1, c, sch);
    }
  }

  /** The cache gate: a `cache` key with a falsy value never lets a cached payload through. */
  lemma CacheGate(f: seq<Prop>, c: Context)
    requires HasKey(f, "cache")
    requires !Truthy(GetProp(f, "cache")) && Truthy(GetProp(c.payload, "cache"))
    ensures Apply(Some(f), c).outcome != Accepted
  {
    var i :| 0 <= i < |f| && f[i].key == "cache";
    assert Keys(f)[0..][i] == "cache";
    CacheGateScan(f, Keys(f), 0, c, false);
  }

  /** A pass over an attribute other than `change`, before `change` was seen, keeps the gate closed. */
  lemma StepKeepsChangeGate(f: seq<Prop>, a: string, c: Context, seenCache: bool)
    requires a != "change" && ChangeGateRejects(f, c.payload)
    ensures match StepAt(f, a, c, seenCache, false)
      case Stop(outcome, _) => outcome != Accepted
      case Next(f', _, sch) => !sch && ChangeGateRejects(f', c.payload)
  {
    StepShape(f, a, c, seenCache, false);
    RewriteGet(f, a, "cache");
    RewriteGet(f, a, "change");
  }

  lemma {:induction false} ChangeGateScan(f: seq<Prop>, keys: seq<string>, i: nat, c: Context, seenCache: bool)
    requires i <= |keys| && "change" in keys[i..]
    requires ChangeGateRejects(f, c.payload)
    ensures Scan(f, keys, i, c, seenCache, false).outcome != Accepted
    decreases |keys| - i
  {
    if keys[i] != "change" {
      assert "change" in keys[i + 1..] by {
        assert keys[i..] == [keys[i]] + keys[i + 1..];
      }
      StepKeepsChangeGate(f, keys[i], c, seenCache);
      match StepAt(f, keys[i], c, seenCache, false)
      case Stop(_, _) =>
      case Next(f', sc, _) => ChangeGateScan(f', keys, i + 1, c, sc);
    }
  }

  /**
   * The change gate: a truthy `change` key drops an unchanged payload,
   * unless both the filter's and the payload's `cache` are truthy.
   */
  lemma ChangeGate(f: seq<Prop>, c: Context)
    requires HasKey(f, "change")
    requires Truthy(GetProp(f, "change")) && !Truthy(GetProp(c.payload, "change"))
    requires !(Truthy(GetProp(f, "cache")) && Truthy(GetProp(c.payload, "cache")))
    ensures Apply(Some(f), c).outcome != Accepted
  {
    var i :| 0 <= i < |f| && f[i].key == "change";
    assert Keys(f)[0..][i] == "change";
    ChangeGateScan(f, Keys(f), 0, c, false);
  }

  /** A pass over an attribute other than `cache` does not read the payload's `cache` when the filter has none. */
  lemma StepIgnoresCacheFlag(f: seq<Prop>, a: string, c: Context, b: bool, seenCache: bool, seenChange: bool)
    requires a != "cache" && GetProp(f, "cache") == Undefined
    ensures StepAt(f, a, c, seenCache, seenChange)
         == StepAt(f, a, c.(payload := SetProp(c.payload, "cache", Bool(b))), seenCache, seenChange)
  {
    var c' := c.(payload := SetProp(c.payload, "cache", Bool(b)));
    if a == "change" {
      SetPropGet(c.payload, "cache", Bool(b), "change");
      assert ChangeGateRejects(f, c.payload) == ChangeGateRejects(f, c'.payload);
    } else if c.topic !in c.whitelisted && !Wildcard(GetProp(f, a)) {
      StepIsCompare(f, a, c, seenCache, seenChange);
      StepIsCompare(f, a, c', seenCache, seenChange);
      CompareVerdict(f, a, c, seenCache, seenChange);
      CompareVerdict(f, a, c', seenCache, seenChange);
    }
  }

  lemma {:induction false} NoCacheKeyScan(f: seq<Prop>, keys: seq<string>, i: nat, c: Context, b: bool,
                                          seenCache: bool, seenChange: bool)
    requires i <= |keys| && "cache" !in keys && GetProp(f, "cache") == Undefined
    ensures Scan(f, keys, i, c, seenCache, seenChange)
         == Scan(f, keys, i, c.(payload := SetProp(c.payload, "cache", Bool(b))), seenCache, seenChange)
    decreases |keys| - i
  {
    if i < |keys| {
      StepIgnoresCacheFlag(f, keys[i], c, b, seenCache, seenChange);
      StepShape(f, keys[i], c, seenCache, seenChange);
      RewriteGet(f, keys[i], "cache");
      match StepAt(f, keys[i], c, seenCache, seenChange)
      case Stop(_, _) =>
      case Next(f', sc, sch) => NoCacheKeyScan(f', keys, i + 1, c, b, sc, sch);
    }
  }

  /** Without a `cache` key, the payload's own cache flag does not change the decision. */
  lemma NoCacheKeyIgnoresCacheFlag(f: seq<Prop>, c: Context, b: bool)
    requires !HasKey(f, "cache")
    ensures Apply(Some(f), c) == Apply(Some(f), c.(payload := SetProp(c.payload, "cache", Bool(b))))
  {
    assert "cache" !in Keys(f);
    NoCacheKeyScan(f, Keys(f), 0, c, b, false, false);
  }

  /** Some gate whose key lies at or after index i rejects the payload. */
  predicate GateAhead(f: seq<Prop>, keys: seq<string>, i: nat, payload: seq<Prop>)
    requires i <= |keys|
  {
    ("cache" in keys[i..] && CacheGateRejects(f, payload))
    || ("change" in keys[i..] && ChangeGateRejects(f, payload))
  }

  /** For a topic already delivered, a pass runs the gates and otherwise only checks for the early exit. */
  lemma WhitelistStep(f: seq<Prop>, a: string, c: Context, seenCache: bool, seenChange: bool)
    requires c.topic in c.whitelisted
    ensures StepAt(f, a, c, seenCache, seenChange)
         == if a == "cache" then (if CacheGateRejects(f, c.payload) then Stop(Rejected, f) else Next(f, true, seenChange))
            else if a == "change" then (if ChangeGateRejects(f, c.payload) then Stop(Rejected, f) else Next(f, seenCache, true))
            else if seenCache && seenChange then Stop(Accepted, f)
            else Next(f, seenCache, seenChange)
  {
  }

  /** In a sequence of distinct keys, no key occurs again after its place. */
  lemma NotAgain(keys: seq<string>, p: nat, i: nat)
    requires forall j, k :: 0 <= j < k < |keys| ==> keys[j] != keys[k]
    requires p < i <= |keys|
    ensures keys[p] !in keys[i..]
  {
    forall j | i <= j < |keys| ensures keys[j] != keys[p] {
      assert keys[p] != keys[j];
    }
  }

  lemma {:induction false} WhitelistScan(f: seq<Prop>, keys: seq<string>, i: nat, c: Context,
                                         seenCache: bool, seenChange: bool)
    requires i <= |keys| && c.topic in c.whitelisted
    requires forall j, k :: 0 <= j < k < |keys| ==> keys[j] != keys[k]
    requires seenCache ==> "cache" in keys[..i]
    requires seenChange ==> "change" in keys[..i]
    ensures Scan(f, keys, i, c, seenCache, seenChange)
         == Scanned(if GateAhead(f, keys, i, c.payload) then Rejected else Accepted, f)
    decreases |keys| - i, 1
  {
    if i == |keys| {
      assert keys[i..] == [];
    } else if keys[i] == "cache" || keys[i] == "change" {
      WhitelistGate(f, keys, i, c, seenCache, seenChange);
    } else if seenCache && seenChange {
      WhitelistStep(f, keys[i], c, seenCache, seenChange);
      var p :| 0 <= p < i && keys[..i][p] == "cache";
      var q :| 0 <= q < i && keys[..i][q] == "change";
      NotAgain(keys, p, i);
      NotAgain(keys, q, i);
    } else {
      WhitelistOther(f, keys, i, c, seenCache, seenChange);
    }
  }

  lemma {:induction false} WhitelistGate(f: seq<Prop>, keys: seq<string>, i: nat, c: Context,
                                         seenCache: bool, seenChange: bool)
    requires i < |keys| && c.topic in c.whitelisted && (keys[i] == "cache" || keys[i] == "change")
    requires forall j, k :: 0 <= j < k < |keys| ==> keys[j] != keys[k]
    requires seenCache ==> "cache" in keys[..i]
    requires seenChange ==> "change" in keys[..i]
    ensures Scan(f, keys, i, c, seenCache, seenChange)
         == Scanned(if GateAhead(f, keys, i, c.payload) then Rejected else Accepted, f)
    decreases |keys| - i, 0
  {
    var a := keys[i];
    WhitelistStep(f, a, c, seenCache, seenChange);
    assert keys[i..] == [a] + keys[i + 1..];
    assert keys[..i + 1] == keys[..i] + [a];
    NotAgain(keys, i, i + 1);
    WhitelistScan(f, keys, i + 1, c, seenCache || a == "cache", seenChange || a == "change");
  }

  lemma {:induction false} WhitelistOther(f: seq<Prop>, keys: seq<string>, i: nat, c: Context,
                                          seenCache: bool, seenChange: bool)
    requires i < |keys| && c.topic in c.whitelisted && keys[i] != "cache" && keys[i] != "change"
    requires forall j, k :: 0 <= j < k < |keys| ==> keys[j] != keys[k]
    requires seenCache ==> "cache" in keys[..i]
    requires seenChange ==> "change" in keys[..i]
    requires !(seenCache && seenChange)
    ensures Scan(f, keys, i, c, seenCache, seenChange)
         == Scanned(if GateAhead(f, keys, i, c.payload) then Rejected else Accepted, f)
    decreases |keys| - i, 0
  {
    var a := keys[i];
    WhitelistStep(f, a, c, seenCache, seenChange);
    assert keys[i..] == [a] + keys[i + 1..];
    assert keys[..i + 1] == keys[..i] + [a];
    WhitelistScan(f, keys, i + 1, c, seenCache, seenChange);
  }

  /**
   * For a topic already delivered to the consumer only the gates decide:
   * the attribute values are not consulted, nothing throws and the filter
   * is not rewritten.
   */
  lemma WhitelistedTopicOnlyGates(f: seq<Prop>, c: Context)
    requires DistinctKeys(f) && c.topic in c.whitelisted
    ensures Apply(Some(f), c) == Filtered(
      if (HasKey(f, "cache") && CacheGateRejects(f, c.payload))
         || (HasKey(f, "change") && ChangeGateRejects(f, c.payload))
      then Rejected else Accepted,
      Some(f))
  {
    var keys := Keys(f);
    WhitelistScan(f, keys, 0, c, false, false);
    assert keys[0..] == keys;
    assert HasKey(f, "cache") <==> "cache" in keys;
    assert HasKey(f, "change") <==> "change" in keys;
  }

  /**
   * What attribute `a` of filter `f` decides on its own: gates and
   * wildcards pass, any other value must match the additions' field.
   */
  predicate RuleOk(f: seq<Prop>, a: string, c: Context) {
    a == "cache" || a == "change" || Wildcard(GetProp(f, a))
    || (var r := Judge(Normalized(a, GetProp(f, a)), Get(c.additions, a), c.test); r.Ok? && r.value)
  }

  /** Attribute `a` throws: reading the additions or the keys of a null field fails. */
  predicate RuleThrows(f: seq<Prop>, a: string, c: Context) {
    a != "cache" && a != "change" && !Wildcard(GetProp(f, a))
    && Judge(Normalized(a, GetProp(f, a)), Get(c.additions, a), c.test).Err?
  }

  /** For a new topic whose gates pass, one pass goes on exactly when its attribute's rule holds. */
  lemma StructuralStep(f0: seq<Prop>, f: seq<Prop>, a: string, c: Context, seenCache: bool, seenChange: bool)
    requires c.topic !in c.whitelisted
    requires !CacheGateRejects(f0, c.payload) && !ChangeGateRejects(f0, c.payload)
    requires GetProp(f, a) == GetProp(f0, a)
    requires GetProp(f, "cache") == GetProp(f0, "cache") && GetProp(f, "change") == GetProp(f0, "change")
    ensures StepAt(f, a, c, seenCache, seenChange).Next? <==> RuleOk(f0, a, c)
    ensures StepAt(f, a, c, seenCache, seenChange).Stop? ==>
      StepAt(f, a, c, seenCache, seenChange).outcome != Accepted
      && (StepAt(f, a, c, seenCache, seenChange).outcome == Threw <==> RuleThrows(f0, a, c))
  {
    if a != "cache" && a != "change" && !Wildcard(GetProp(f, a)) {
      StepIsCompare(f, a, c, seenCache, seenChange);
      CompareVerdict(f, a, c, seenCache, seenChange);
    } else {
      assert CacheGateRejects(f, c.payload) == CacheGateRejects(f0, c.payload);
      assert ChangeGateRejects(f, c.payload) == ChangeGateRejects(f0, c.payload);
    }
  }

  /** The filter values still ahead of a pass, and the gates, are those of the original filter. */
  ghost predicate AgreesAhead(f0: seq<Prop>, f: seq<Prop>, keys: seq<string>, i: nat) {
    (forall j :: i <= j < |keys| ==> GetProp(f, keys[j]) == GetProp(f0, keys[j]))
    && GetProp(f, "cache") == GetProp(f0, "cache") && GetProp(f, "change") == GetProp(f0, "change")
  }

  lemma StructuralCarry(f0: seq<Prop>, f: seq<Prop>, f': seq<Prop>, keys: seq<string>, i: nat)
    requires i < |keys| && AgreesAhead(f0, f, keys, i)
    requires forall j, k :: 0 <= j < k < |keys| ==> keys[j] != keys[k]
    requires f' == f || f' == Rewrite(f, keys[i])
    ensures AgreesAhead(f0, f', keys, i + 1)
  {
    forall j | i + 1 <= j < |keys| ensures GetProp(f', keys[j]) == GetProp(f0, keys[j]) {
      assert keys[i] != keys[j];
      RewriteGet(f, keys[i], keys[j]);
    }
    RewriteGet(f, keys[i], "cache");
    RewriteGet(f, keys[i], "change");
  }

  /** The rules of `keys[i..]` all hold. */
  ghost predicate RulesOkFrom(f0: seq<Prop>, keys: seq<string>, i: nat, c: Context)
    decreases |keys| - i
  {
    i >= |keys| || (RuleOk(f0, keys[i], c) && RulesOkFrom(f0, keys, i + 1, c))
  }

  lemma {:induction false} RulesOkFromAll(f0: seq<Prop>, keys: seq<string>, i: nat, c: Context)
    ensures RulesOkFrom(f0, keys, i, c) <==> forall j :: i <= j < |keys| ==> RuleOk(f0, keys[j], c)
    decreases |keys| - i
  {
    if i < |keys| {
      RulesOkFromAll(f0, keys, i + 1, c);
    }
  }

  lemma {:induction false} StructuralScan(f0: seq<Prop>, f: seq<Prop>, keys: seq<string>, i: nat, c: Context,
                                          seenCache: bool, seenChange: bool)
    requires i <= |keys| && c.topic !in c.whitelisted
    requires forall j, k :: 0 <= j < k < |keys| ==> keys[j] != keys[k]
    requires !CacheGateRejects(f0, c.payload) && !ChangeGateRejects(f0, c.payload)
    requires AgreesAhead(f0, f, keys, i)
    ensures Scan(f, keys, i, c, seenCache, seenChange).outcome == Accepted <==> RulesOkFrom(f0, keys, i, c)
    decreases |keys| - i
  {
    if i < |keys| {
      var a := keys[i];
      StructuralStep(f0, f, a, c, seenCache, seenChange);
      StepShape(f, a, c, seenCache, seenChange);
      match StepAt(f, a, c, seenCache, seenChange)
      case Stop(_, _) =>
      case Next(f', sc, sch) =>
        StructuralCarry(f0, f, f', keys, i);
        StructuralScan(f0, f', keys, i + 1, c, sc, sch);
    }
  }

  lemma {:induction false} StructuralThrowScan(f0: seq<Prop>, f: seq<Prop>, keys: seq<string>, i: nat, c: Context,
                                               seenCache: bool, seenChange: bool)
    requires i <= |keys| && c.topic !in c.whitelisted
    requires forall j, k :: 0 <= j < k < |keys| ==> keys[j] != keys[k]
    requires !CacheGateRejects(f0, c.payload) && !ChangeGateRejects(f0, c.payload)
    requires AgreesAhead(f0, f, keys, i)
    requires Scan(f, keys, i, c, seenCache, seenChange).outcome == Threw
    ensures exists j :: i <= j < |keys| && RuleThrows(f0, keys[j], c) && forall k :: i <= k < j ==> RuleOk(f0, keys[k], c)
    decreases |keys| - i
  {
    var a := keys[i];
    StructuralStep(f0, f, a, c, seenCache, seenChange);
    StepShape(f, a, c, seenCache, seenChange);
    match StepAt(f, a, c, seenCache, seenChange)
    case Stop(_, _) =>
      assert RuleThrows(f0, keys[i], c);
    case Next(f', sc, sch) =>
      StructuralCarry(f0, f, f', keys, i);
      StructuralThrowScan(f0, f', keys, i + 1, c, sc, sch);
      var j :| i + 1 <= j < |keys| && RuleThrows(f0, keys[j], c)
        && forall k :: i + 1 <= k < j ==> RuleOk(f0, keys[k], c);
      assert forall k :: i <= k < j ==> RuleOk(f0, keys[k], c);
  }

  /**
   * Structural matching: when neither gate rejects and the topic is new to
   * the consumer, the payload is accepted exactly when every attribute's
   * rule holds.
   */
  lemma StructuralMatch(f: seq<Prop>, c: Context)
    requires DistinctKeys(f) && c.topic !in c.whitelisted
    requires !CacheGateRejects(f, c.payload) && !ChangeGateRejects(f, c.payload)
    ensures Apply(Some(f), c).outcome == Accepted <==> forall j :: 0 <= j < |f| ==> RuleOk(f, f[j].key, c)
  {
    var keys := Keys(f);
    StructuralScan(f, f, keys, 0, c, false, false);
    RulesOkFromAll(f, keys, 0, c);
  }

  /**
   * Under the same conditions the call throws only at the first attribute
   * whose rule does not hold because it fails to evaluate: the attributes
   * before it all match and the later ones are never reached.
   */
  lemma StructuralThrow(f: seq<Prop>, c: Context)
    requires DistinctKeys(f) && c.topic !in c.whitelisted
    requires !CacheGateRejects(f, c.payload) && !ChangeGateRejects(f, c.payload)
    requires Apply(Some(f), c).outcome == Threw
    ensures exists j :: 0 <= j < |f| && RuleThrows(f, f[j].key, c) && forall k :: 0 <= k < j ==> RuleOk(f, f[k].key, c)
  {
    StructuralThrowScan(f, f, Keys(f), 0, c, false, false);
  }

  /**
   * `g` is `f0` after `applyFilter`'s rewriting: the same keys, the same
   * values except `channelIndex`, which may hold its `parseInt` value.
   */
  ghost predicate RewrittenFrom(g: seq<Prop>, f0: seq<Prop>) {
    Keys(g) == Keys(f0)
    && (forall k :: k != "channelIndex" ==> Lookup(g, k) == Lookup(f0, k))
    && (Lookup(g, "channelIndex") == Lookup(f0, "channelIndex")
        || Lookup(g, "channelIndex") == Some(ParseInt(GetProp(f0, "channelIndex"))))
  }

  /** `parseInt` of a `parseInt` result is that result. */
  lemma ParseIntIdempotent(v: Value)
    ensures ParseInt(ParseInt(v)) == ParseInt(v)
  {
    ParseIntFixed(ParseInt(v));
  }

  lemma ParseIntFixed(p: Value)
    requires p.NaN? || p.Num?
    ensures ParseInt(p) == p
  {
    if p.Num? {
      ParseIntRoundTrip(p.n);
    } else {
      ParseIntNaN([]);
    }
  }

  /** Rewriting again keeps a filter rewritten from `f0`. */
  lemma RewriteStays(f0: seq<Prop>, f: seq<Prop>, a: string)
    requires RewrittenFrom(f, f0)
    ensures RewrittenFrom(Rewrite(f, a), f0)
  {
    if a == "channelIndex" && !GetProp(f, a).Undefined? {
      var v := GetProp(f, a);
      var f' := SetProp(f, a, ParseInt(v));
      SetPropKeepsKeys(f, a, ParseInt(v));
      forall k | k != "channelIndex" ensures Lookup(f', k) == Lookup(f0, k) {
        SetPropGet(f, a, ParseInt(v), k);
      }
      SetPropGet(f, a, ParseInt(v), a);
      ParseIntIdempotent(GetProp(f0, a));
    }
  }

  lemma {:induction false} RewriteScan(f0: seq<Prop>, f: seq<Prop>, keys: seq<string>, i: nat, c: Context,
                                       seenCache: bool, seenChange: bool)
    requires i <= |keys| && RewrittenFrom(f, f0)
    ensures RewrittenFrom(Scan(f, keys, i, c, seenCache, seenChange).filter, f0)
    decreases |keys| - i
  {
    if i < |keys| {
      StepShape(f, keys[i], c, seenCache, seenChange);
      RewriteStays(f0, f, keys[i]);
      match StepAt(f, keys[i], c, seenCache, seenChange)
      case Stop(_, _) =>
      case Next(f', sc, sch) => RewriteScan(f0, f', keys, i + 1, c, sc, sch);
    }
  }

  /**
   * The only change `applyFilter` makes to a filter is to replace the
   * value of `channelIndex` by its `parseInt` value; the keys and every
   * other value stay, and a second rewrite gives the same value.
   */
  lemma FilterRewrite(f: seq<Prop>, c: Context)
    ensures RewrittenFrom(Apply(Some(f), c).filter.value, f)
    ensures ParseInt(ParseInt(GetProp(f, "channelIndex"))) == ParseInt(GetProp(f, "channelIndex"))
  {
    RewriteScan(f, f, Keys(f), 0, c, false, false);
    ParseIntIdempotent(GetProp(f, "channelIndex"));
  }

  /**
   * A pattern given for `channelIndex` is turned into NaN before it is
   * used, so it never matches a numeric channel index.
   */
  lemma PatternChannelIndexNeverMatches(source: string, n: int, test: Matcher)
    ensures Normalized("channelIndex", Pattern(source)) == NaN
    ensures AttributeMatches(Normalized("channelIndex", Pattern(source)), Num(n), test) == Ok(false)
  {
    ParseIntPattern(source);
  }
}
