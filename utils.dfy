/**
 * Helpers shared by every node: the own-property test, the JSON test, the
 * MQTT topic-filter syntax check and the key sort of objects.
 */
module Utils {
  import opened Js

  // ---------------------------------------------------------------------
  // hasProperty, isJson
  // ---------------------------------------------------------------------

  /** `hasProperty(obj, name)`: undefined and null throw a TypeError. */
  function HasProperty(obj: Value, name: string): (r: Result<bool>)
    ensures obj.Obj? ==> r == Ok(HasKey(obj.props, name))
    ensures (obj.Undefined? || obj.Null?) <==> r.Err?
    ensures obj.Obj? && r == Ok(true) ==> Lookup(obj.props, name).Some?
  {
    HasOwn(obj, name)
  }

  /**
   * `isJson(message)`: whether `JSON.parse(message.toString())` succeeds;
   * `toString` on undefined or null throws, which also yields false.
   */
  function IsJson(message: Value, parse: string -> Option<Value>): (r: bool)
    ensures r ==> !message.Undefined? && !message.Null? && parse(ToStr(message)).Some?
    ensures message.Str? ==> (r <==> parse(message.s).Some?)
  {
    if message.Undefined? || message.Null? then false else parse(ToStr(message)).Some?
  }

  // ---------------------------------------------------------------------
  // isValidTopic
  // ---------------------------------------------------------------------

  /**
   * The regular expression of `isValidTopic`, compiled to a finite
   * automaton.  The state names what the current `/`-segment holds so far.
   */
  datatype TopicState =
    | SegmentStart   // nothing yet
    | PlusSegment    // exactly "+"
    | PlainSegment   // one or more characters, none of them '#' or '+'
    | HashSegment    // exactly "#"
    | Rejected

  function Step(q: TopicState, c: char): TopicState {
    match q
    case Rejected => Rejected
    case HashSegment => Rejected
    case PlusSegment => if c == '/' then SegmentStart else Rejected
    case PlainSegment =>
      if c == '/' then SegmentStart else if c == '#' || c == '+' then Rejected else PlainSegment
    case SegmentStart =>
      if c == '/' then SegmentStart
      else if c == '+' then PlusSegment
      else if c == '#' then HashSegment
      else PlainSegment
  }

  function Run(q: TopicState, s: string): TopicState
    decreases |s|
  {
    if s == [] then q else Run(Step(q, s[0]), s[1..])
  }

  /** `isValidTopic(topic)`: every state but `Rejected` is accepting. */
  predicate IsValidTopic(topic: string) {
    Run(SegmentStart, topic) != Rejected
  }

  /** A segment without either wildcard character. */
  predicate NoWildcard(seg: string) {
    '#' !in seg && '+' !in seg
  }

  /**
   * The topic-filter rule the expression implements: splitting on '/',
   * each segment is "+" or free of wildcards, and the last one may also be
   * "#" (alone, or after a '/').  Unlike MQTT it admits the empty topic.
   */
  predicate SegmentsValid(segs: seq<string>) {
    forall i :: 0 <= i < |segs| ==>
      segs[i] == "+" || NoWildcard(segs[i]) || (i == |segs| - 1 && segs[i] == "#")
  }

  /** The segment read so far matches the automaton state. */
  predicate Describes(q: TopicState, c: string) {
    match q
    case SegmentStart => c == ""
    case PlusSegment => c == "+"
    case HashSegment => c == "#"
    case PlainSegment => c != "" && NoWildcard(c) && '/' !in c
    case Rejected => false
  }

  lemma {:induction false} RunRejected(s: string)
    ensures Run(Rejected, s) == Rejected
  {
    if s != [] {
      RunRejected(s[1..]);
    }
  }

  lemma {:induction false} SplitPrefix(c: string, s: string)
    requires '/' !in c
    ensures Split(c + s, '/') == [c + Split(s, '/')[0]] + Split(s, '/')[1..]
  {
    if c != [] {
      assert (c + s)[1..] == c[1..] + s;
      assert (c + s)[0] == c[0] != '/';
      SplitPrefix(c[1..], s);
      var r := Split(c[1..] + s, '/');
      var t := Split(s, '/');
      assert r == [c[1..] + t[0]] + t[1..];
      assert c + s != [];
      var whole := Split(c + s, '/');
      assert whole == [[(c + s)[0]] + r[0]] + r[1..];
      assert whole == [[c[0]] + r[0]] + r[1..];
      assert [c[0]] + (c[1..] + t[0]) == c + t[0];
    } else {
      var t := Split(s, '/');
      assert c + s == s && c + t[0] == t[0];
      assert t == [t[0]] + t[1..];
    }
  }

  /** With no '/' left there is one segment, the whole string. */
  predicate Bad(seg: string) {
    !(seg == "+" || NoWildcard(seg) || seg == "#")
  }

  lemma BadExtends(c: string, x: string)
    requires |c| >= 2 && !NoWildcard(c)
    ensures Bad(c + x)
  {
    assert |c + x| >= 2;
    if '#' in c {
      var i :| 0 <= i < |c| && c[i] == '#';
      assert (c + x)[i] == '#';
    } else {
      var i :| 0 <= i < |c| && c[i] == '+';
      assert (c + x)[i] == '+';
    }
  }

  /**
   * The automaton, started in the state that describes the current
   * segment `c`, accepts the rest `s` exactly when `c + s` is a valid
   * topic by segments.
   */
  lemma {:induction false} RunCorrect(q: TopicState, c: string, s: string)
    requires Describes(q, c)
    ensures Run(q, s) != Rejected <==> SegmentsValid(Split(c + s, '/'))
    decreases |s|, 1
  {
    if s == [] {
      SplitPrefix(c, s);
      assert c + s == c;
      assert Split(c + s, '/') == [c];
    } else if s[0] == '/' {
      RunCorrectSlash(q, c, s);
    } else {
      RunCorrectChar(q, c, s);
    }
  }

  /** A segment that is "+" or free of wildcards in front of valid segments keeps them valid. */
  lemma SegmentsValidCons(c: string, tail: seq<string>)
    requires c == "+" || NoWildcard(c)
    requires tail != []
    ensures SegmentsValid([c] + tail) <==> SegmentsValid(tail)
  {
    var segs := [c] + tail;
    if SegmentsValid(tail) {
      forall i | 0 <= i < |segs|
        ensures segs[i] == "+" || NoWildcard(segs[i]) || (i == |segs| - 1 && segs[i] == "#")
      {
        if i > 0 {
          assert segs[i] == tail[i - 1];
        }
      }
    }
    if SegmentsValid(segs) {
      forall i | 0 <= i < |tail|
        ensures tail[i] == "+" || NoWildcard(tail[i]) || (i == |tail| - 1 && tail[i] == "#")
      {
        assert tail[i] == segs[i + 1];
      }
    }
  }

  /** The case of a '/': the current segment is complete. */
  lemma {:induction false} RunCorrectSlash(q: TopicState, c: string, s: string)
    requires Describes(q, c) && s != [] && s[0] == '/'
    ensures Run(q, s) != Rejected <==> SegmentsValid(Split(c + s, '/'))
    decreases |s|, 0
  {
    var segs := Split(c + s, '/');
    SplitPrefix(c, s);
    var tail := Split(s[1..], '/');
    assert Split(s, '/') == [""] + tail;
    assert c + "" == c;
    assert segs == [c] + tail;
    assert Run(q, s) == Run(Step(q, '/'), s[1..]);
    if q == HashSegment {
      RunRejected(s[1..]);
      assert |segs| >= 2 && segs[0] == "#";
      assert !(segs[0] == "+" || NoWildcard(segs[0]));
    } else {
      RunCorrect(SegmentStart, "", s[1..]);
      assert "" + s[1..] == s[1..];
      SegmentsValidCons(c, tail);
    }
  }

  /** The case of any other character: it extends the current segment. */
  lemma {:induction false} RunCorrectChar(q: TopicState, c: string, s: string)
    requires Describes(q, c) && s != [] && s[0] != '/'
    ensures Run(q, s) != Rejected <==> SegmentsValid(Split(c + s, '/'))
    decreases |s|, 0
  {
    var ch := s[0];
    var c' := c + [ch];
    assert c + s == c' + s[1..];
    var q' := Step(q, ch);
    assert Run(q, s) == Run(q', s[1..]);
    if q' == Rejected {
      var segs := Split(c + s, '/');
      SplitPrefix(c', s[1..]);
      assert segs[0] == c' + Split(s[1..], '/')[0];
      RunRejected(s[1..]);
      assert |c'| >= 2 && !NoWildcard(c') by {
        match q
        case SegmentStart => assert false;
        case PlusSegment => assert c'[0] == '+';
        case HashSegment => assert c'[0] == '#';
        case PlainSegment => assert c'[|c|] == ch;
      }
      BadExtends(c', Split(s[1..], '/')[0]);
      assert Bad(segs[0]);
    } else {
      DescribesExtends(q, c, ch);
      RunCorrect(q', c', s[1..]);
    }
  }

  /** A character the automaton does not refuse extends the segment it describes. */
  lemma DescribesExtends(q: TopicState, c: string, ch: char)
    requires Describes(q, c) && ch != '/' && Step(q, ch) != Rejected
    ensures Describes(Step(q, ch), c + [ch])
  {
    var c' := c + [ch];
    if q == PlainSegment {
      assert c'[|c|] == ch;
      forall i | 0 <= i < |c'| ensures c'[i] != '#' && c'[i] != '+' && c'[i] != '/' {
        if i < |c| {
          assert c'[i] == c[i];
        }
      }
    }
  }

  /** `isValidTopic` accepts exactly the topics whose segments are valid. */
  lemma IsValidTopicBySegments(topic: string)
    ensures IsValidTopic(topic) <==> SegmentsValid(Split(topic, '/'))
  {
    RunCorrect(SegmentStart, "", topic);
    assert "" + topic == topic;
  }

  lemma {:induction false} RunAppend(q: TopicState, a: string, b: string)
    ensures Run(q, a + b) == Run(Run(q, a), b)
    decreases |a|
  {
    if a != [] {
      assert (a + b)[0] == a[0] && (a + b)[1..] == a[1..] + b;
      RunAppend(Step(q, a[0]), a[1..], b);
      assert Run(q, a + b) == Run(Step(q, a[0]), a[1..] + b);
      assert Run(q, a) == Run(Step(q, a[0]), a[1..]);
    } else {
      assert a + b == b;
    }
  }

  lemma {:induction false} RunWord(q: TopicState, w: string)
    requires q == SegmentStart || q == PlainSegment
    requires w != [] && '/' !in w && NoWildcard(w)
    ensures Run(q, w) == PlainSegment
    decreases |w|
  {
    if |w| > 1 {
      RunWord(PlainSegment, w[1..]);
    } else {
      assert w[1..] == [];
    }
  }

  lemma RunChar(q: TopicState, c: char)
    ensures Run(q, [c]) == Step(q, c)
  {
    assert [c][1..] == [];
  }

  /** The empty topic is accepted, and so is "#" alone; "##" is not. */
  lemma TopicExamplesHash()
    ensures IsValidTopic("")
    ensures IsValidTopic("#")
    ensures !IsValidTopic("##")
  {
    RunChar(SegmentStart, '#');
    assert "##" == "#" + "#";
    RunAppend(SegmentStart, "#", "#");
    RunChar(HashSegment, '#');
  }

  lemma TopicExamplePlain()
    ensures IsValidTopic("/test/test")
  {
    RunChar(SegmentStart, '/');
    RunChar(PlainSegment, '/');
    RunWord(SegmentStart, "test");
    assert "/test/test" == "/" + ("test" + ("/" + "test"));
    RunAppend(SegmentStart, "/", "test" + ("/" + "test"));
    RunAppend(SegmentStart, "test", "/" + "test");
    RunAppend(PlainSegment, "/", "test");
  }

  lemma TopicTailHash()
    ensures Run(PlusSegment, "/#") == HashSegment
  {
    assert "/#" == "/" + "#";
    RunAppend(PlusSegment, "/", "#");
    RunChar(PlusSegment, '/');
    RunChar(SegmentStart, '#');
  }

  lemma TopicTailPlus()
    ensures Run(PlainSegment, "/+/#") == HashSegment
  {
    assert "/+/#" == "/" + ("+" + "/#");
    RunAppend(PlainSegment, "/", "+" + "/#");
    RunChar(PlainSegment, '/');
    RunAppend(SegmentStart, "+", "/#");
    RunChar(SegmentStart, '+');
    TopicTailHash();
  }

  /** A '+' segment followed by a final '#' segment. */
  lemma TopicExampleWildcards()
    ensures IsValidTopic("status/+/#")
  {
    RunWord(SegmentStart, "status");
    assert "status/+/#" == "status" + "/+/#";
    RunAppend(SegmentStart, "status", "/+/#");
    TopicTailPlus();
  }

  /** '#' before the last segment, or glued to other characters, is refused. */
  lemma TopicExamplesRefused()
    ensures !IsValidTopic("a/#/x")
    ensures !IsValidTopic("a+")
  {
    RunWord(SegmentStart, "a");
    RunChar(PlainSegment, '/');
    RunChar(PlainSegment, '+');
    RunChar(SegmentStart, '#');
    RunChar(HashSegment, '/');
    RunRejected("x");
    assert "a/#/x" == "a" + ("/" + ("#" + ("/" + "x")));
    RunAppend(SegmentStart, "a", "/" + ("#" + ("/" + "x")));
    RunAppend(PlainSegment, "/", "#" + ("/" + "x"));
    RunAppend(SegmentStart, "#", "/" + "x");
    RunAppend(HashSegment, "/", "x");
    assert "a+" == "a" + "+";
    RunAppend(SegmentStart, "a", "+");
  }

  /** A '+' or '#' that is not a whole segment makes a topic invalid. */
  lemma WildcardInsideSegment(topic: string, i: nat)
    requires i < |Split(topic, '/')|
    requires !NoWildcard(Split(topic, '/')[i])
    requires Split(topic, '/')[i] != "+"
    requires Split(topic, '/')[i] != "#" || i < |Split(topic, '/')| - 1
    ensures !IsValidTopic(topic)
  {
    IsValidTopicBySegments(topic);
  }

  // ---------------------------------------------------------------------
  // sortObject
  // ---------------------------------------------------------------------

  /** The default comparison of `Array.prototype.sort` on strings. */
  predicate StrLess(a: string, b: string) {
    if a == [] then b != []
    else if b == [] then false
    else if a[0] != b[0] then a[0] < b[0]
    else StrLess(a[1..], b[1..])
  }

  lemma {:induction false} StrLessIrreflexive(a: string)
    ensures !StrLess(a, a)
  {
    if a != [] {
      StrLessIrreflexive(a[1..]);
    }
  }

  lemma {:induction false} StrLessTotal(a: string, b: string)
    ensures a == b || StrLess(a, b) || StrLess(b, a)
  {
    if a != [] && b != [] && a[0] == b[0] {
      StrLessTotal(a[1..], b[1..]);
      if a[1..] == b[1..] {
        assert a == [a[0]] + a[1..] && b == [b[0]] + b[1..];
      }
    }
  }

  lemma {:induction false} StrLessAsymmetric(a: string, b: string)
    ensures !(StrLess(a, b) && StrLess(b, a))
  {
    if a != [] && b != [] && a[0] == b[0] {
      StrLessAsymmetric(a[1..], b[1..]);
    }
  }

  lemma {:induction false} StrLessTransitive(a: string, b: string, c: string)
    requires StrLess(a, b) && StrLess(b, c)
    ensures StrLess(a, c)
  {
    if a != [] && a[0] == b[0] && b[0] == c[0] {
      StrLessTransitive(a[1..], b[1..], c[1..]);
    }
  }

  predicate StrictlyAscending(ks: seq<string>) {
    forall i, j :: 0 <= i < j < |ks| ==> StrLess(ks[i], ks[j])
  }

  /** `ks.sort()`: insertion sort under the string order. */
  function SortStrings(ks: seq<string>): seq<string> {
    if ks == [] then [] else Insert(ks[0], SortStrings(ks[1..]))
  }

  function Insert(x: string, sorted: seq<string>): seq<string> {
    if sorted == [] then [x]
    else if StrLess(sorted[0], x) then [sorted[0]] + Insert(x, sorted[1..])
    else [x] + sorted
  }

  lemma {:induction false} InsertContents(x: string, sorted: seq<string>)
    ensures multiset(Insert(x, sorted)) == multiset(sorted) + multiset{x}
  {
    if sorted != [] && StrLess(sorted[0], x) {
      InsertContents(x, sorted[1..]);
      assert sorted == [sorted[0]] + sorted[1..];
    }
  }

  /** A bound below `x` and every element is a bound below every element after the insertion. */
  lemma {:induction false} InsertAbove(lo: string, x: string, sorted: seq<string>)
    requires StrLess(lo, x) && forall j :: 0 <= j < |sorted| ==> StrLess(lo, sorted[j])
    ensures forall j :: 0 <= j < |Insert(x, sorted)| ==> StrLess(lo, Insert(x, sorted)[j])
  {
    if sorted != [] && StrLess(sorted[0], x) {
      InsertAbove(lo, x, sorted[1..]);
      var t := Insert(x, sorted[1..]);
      assert Insert(x, sorted) == [sorted[0]] + t;
    }
  }

  lemma {:induction false} InsertSorted(x: string, sorted: seq<string>)
    requires StrictlyAscending(sorted) && x !in sorted
    ensures StrictlyAscending(Insert(x, sorted))
  {
    var r := Insert(x, sorted);
    if sorted != [] && StrLess(sorted[0], x) {
      assert StrictlyAscending(sorted[1..]);
      InsertSorted(x, sorted[1..]);
      InsertAbove(sorted[0], x, sorted[1..]);
      InsertAfterHead(sorted[0], Insert(x, sorted[1..]));
    } else if sorted != [] {
      assert x != sorted[0];
      StrLessTotal(x, sorted[0]);
      forall j | 0 <= j < |sorted| ensures StrLess(x, sorted[j]) {
        if j > 0 {
          StrLessTransitive(x, sorted[0], sorted[j]);
        }
      }
      InsertAfterHead(x, sorted);
    }
  }

  /** A head below every element of an ascending sequence keeps it ascending. */
  lemma InsertAfterHead(h: string, t: seq<string>)
    requires StrictlyAscending(t) && forall j :: 0 <= j < |t| ==> StrLess(h, t[j])
    ensures StrictlyAscending([h] + t)
  {
    var r := [h] + t;
    forall i, j | 0 <= i < j < |r| ensures StrLess(r[i], r[j]) {
      assert r[j] == t[j - 1];
      if i > 0 {
        assert r[i] == t[i - 1];
      }
    }
  }

  predicate Distinct(ks: seq<string>) {
    forall i, j :: 0 <= i < j < |ks| ==> ks[i] != ks[j]
  }

  /** Sorting distinct keys gives them in strictly ascending order, none lost or added. */
  lemma {:induction false} SortStringsCorrect(ks: seq<string>)
    requires Distinct(ks)
    ensures multiset(SortStrings(ks)) == multiset(ks)
    ensures StrictlyAscending(SortStrings(ks))
  {
    if ks != [] {
      assert Distinct(ks[1..]);
      SortStringsCorrect(ks[1..]);
      InsertContents(ks[0], SortStrings(ks[1..]));
      assert ks == [ks[0]] + ks[1..];
      assert ks[0] !in SortStrings(ks[1..]) by {
        forall k | 0 <= k < |ks[1..]| ensures ks[1..][k] != ks[0] {
          assert ks[k + 1] != ks[0];
        }
        assert ks[0] !in multiset(ks[1..]);
      }
      InsertSorted(ks[0], SortStrings(ks[1..]));
    }
  }

  /** One `result[key] = obj[key]` step of the reduce, for each key in turn. */
  function Fill(obj: seq<Prop>, result: seq<Prop>, keys: seq<string>): seq<Prop>
    decreases |keys|
  {
    if keys == [] then result
    else Fill(obj, SetProp(result, keys[0], GetProp(obj, keys[0])), keys[1..])
  }

  /** `sortObject(obj)`: `Object.keys` throws on undefined and null. */
  function SortObject(obj: Value): Result<Value> {
    match OwnKeys(obj)
    case Err(e) => Err(e)
    case Ok(ks) =>
      var fields := if obj.Obj? then obj.props else SpreadProps(obj);
      Ok(Obj(Fill(fields, [], SortStrings(ks))))
  }

  function Pick(obj: seq<Prop>, keys: seq<string>): (r: seq<Prop>)
    ensures |r| == |keys|
    ensures forall i :: 0 <= i < |keys| ==> r[i] == Prop(keys[i], GetProp(obj, keys[i]))
  {
    if keys == [] then [] else [Prop(keys[0], GetProp(obj, keys[0]))] + Pick(obj, keys[1..])
  }

  lemma HasKeyAppend(pre: seq<Prop>, x: Prop, k: string)
    ensures HasKey(pre + [x], k) <==> HasKey(pre, k) || x.key == k
  {
    var pre' := pre + [x];
    if HasKey(pre, k) {
      var i :| 0 <= i < |pre| && pre[i].key == k;
      assert pre'[i] == pre[i];
    }
    if x.key == k {
      assert pre'[|pre|] == x;
    }
    if HasKey(pre', k) {
      var i :| 0 <= i < |pre'| && pre'[i].key == k;
      if i < |pre| {
        assert pre'[i] == pre[i];
      }
    }
  }

  /** After appending the first key, the remaining keys are still fresh. */
  lemma FillPickStep(obj: seq<Prop>, pre: seq<Prop>, keys: seq<string>)
    requires keys != [] && Distinct(keys)
    requires forall j :: 0 <= j < |keys| ==> !HasKey(pre, keys[j])
    ensures SetProp(pre, keys[0], GetProp(obj, keys[0])) == pre + [Prop(keys[0], GetProp(obj, keys[0]))]
    ensures Distinct(keys[1..])
    ensures forall j :: 0 <= j < |keys[1..]| ==> !HasKey(pre + [Prop(keys[0], GetProp(obj, keys[0]))], keys[1..][j])
  {
    var x := Prop(keys[0], GetProp(obj, keys[0]));
    var rest := keys[1..];
    assert !HasKey(pre, keys[0]);
    forall j | 0 <= j < |rest| ensures !HasKey(pre + [x], rest[j]) {
      assert rest[j] == keys[j + 1] && keys[0] != keys[j + 1];
      HasKeyAppend(pre, x, rest[j]);
    }
  }

  /** Assigning keys that `pre` does not have appends them in order. */
  lemma {:induction false} FillPick(obj: seq<Prop>, pre: seq<Prop>, keys: seq<string>)
    requires Distinct(keys)
    requires forall j :: 0 <= j < |keys| ==> !HasKey(pre, keys[j])
    ensures Fill(obj, pre, keys) == pre + Pick(obj, keys)
    decreases |keys|
  {
    if keys == [] {
      assert pre + [] == pre;
    } else {
      FillPickStep(obj, pre, keys);
      FillPick(obj, pre + [Prop(keys[0], GetProp(obj, keys[0]))], keys[1..]);
      PickCons(obj, pre, keys);
    }
  }

  lemma PickCons(obj: seq<Prop>, pre: seq<Prop>, keys: seq<string>)
    requires keys != []
    ensures (pre + [Prop(keys[0], GetProp(obj, keys[0]))]) + Pick(obj, keys[1..]) == pre + Pick(obj, keys)
  {
    var x := Prop(keys[0], GetProp(obj, keys[0]));
    assert Pick(obj, keys) == [x] + Pick(obj, keys[1..]);
  }

  lemma KeysDistinct(ps: seq<Prop>)
    requires DistinctKeys(ps)
    ensures Distinct(Keys(ps))
  {
  }

  lemma AscendingDistinct(ks: seq<string>)
    requires StrictlyAscending(ks)
    ensures Distinct(ks)
  {
    forall i, j | 0 <= i < j < |ks| ensures ks[i] != ks[j] {
      StrLessIrreflexive(ks[i]);
    }
  }

  lemma {:induction false} PickLookup(obj: seq<Prop>, keys: seq<string>, k: string)
    ensures Lookup(Pick(obj, keys), k) == if k in keys then Some(GetProp(obj, k)) else None
  {
    if keys != [] && keys[0] != k {
      PickLookup(obj, keys[1..], k);
      assert k in keys <==> k in keys[1..];
    }
  }

  lemma KeysMembership(ps: seq<Prop>, k: string)
    ensures k in Keys(ps) <==> HasKey(ps, k)
  {
    if k in Keys(ps) {
      var i :| 0 <= i < |ps| && Keys(ps)[i] == k;
    }
  }

  /** On an object, `sortObject` picks the values of the sorted keys. */
  lemma SortObjectPicks(ps: seq<Prop>)
    requires DistinctKeys(ps)
    ensures StrictlyAscending(SortStrings(Keys(ps)))
    ensures multiset(SortStrings(Keys(ps))) == multiset(Keys(ps))
    ensures SortObject(Obj(ps)) == Ok(Obj(Pick(ps, SortStrings(Keys(ps)))))
  {
    var ks := Keys(ps);
    KeysDistinct(ps);
    SortStringsCorrect(ks);
    var sorted := SortStrings(ks);
    AscendingDistinct(sorted);
    FillPick(ps, [], sorted);
    assert [] + Pick(ps, sorted) == Pick(ps, sorted);
    SortObjectOfObj(ps);
  }

  lemma SortObjectOfObj(ps: seq<Prop>)
    ensures SortObject(Obj(ps)) == Ok(Obj(Fill(ps, [], SortStrings(Keys(ps)))))
  {
    assert OwnKeys(Obj(ps)) == Ok(Keys(ps));
  }

  lemma PickSameLookups(ps: seq<Prop>, sorted: seq<string>)
    requires multiset(sorted) == multiset(Keys(ps))
    ensures forall k :: Lookup(Pick(ps, sorted), k) == Lookup(ps, k)
  {
    forall k ensures Lookup(Pick(ps, sorted), k) == Lookup(ps, k) {
      PickLookup(ps, sorted, k);
      KeysMembership(ps, k);
      assert k in sorted <==> k in multiset(sorted);
      assert k in Keys(ps) <==> k in multiset(Keys(ps));
    }
  }

  /**
   * `sortObject` of an object returns the same keys, in strictly ascending
   * order, each mapped to the value it had.
   */
  lemma SortObjectCorrect(ps: seq<Prop>)
    requires DistinctKeys(ps)
    ensures SortObject(Obj(ps)).Ok?
    ensures var r := SortObject(Obj(ps)).value;
      r.Obj? && multiset(Keys(r.props)) == multiset(Keys(ps))
      && StrictlyAscending(Keys(r.props))
      && forall k :: Lookup(r.props, k) == Lookup(ps, k)
  {
    SortObjectPicks(ps);
    var sorted := SortStrings(Keys(ps));
    var p := Pick(ps, sorted);
    assert Keys(p) == sorted;
    PickSameLookups(ps, sorted);
  }

  lemma SortTwoOrder(k1: string, k2: string)
    requires StrLess(k2, k1)
    ensures SortStrings([k1, k2]) == [k2, k1]
  {
    assert SortStrings([k2]) == [k2];
    assert Insert(k1, [k2]) == [k2] + [k1];
  }

  /** Two properties out of order are swapped, each keeping its value. */
  lemma SortTwo(k1: string, v1: Value, k2: string, v2: Value)
    requires StrLess(k2, k1)
    ensures SortObject(Obj([Prop(k1, v1), Prop(k2, v2)])) == Ok(Obj([Prop(k2, v2), Prop(k1, v1)]))
  {
    var ps := [Prop(k1, v1), Prop(k2, v2)];
    StrLessIrreflexive(k1);
    SortObjectOfObj(ps);
    assert Keys(ps) == [k1, k2];
    SortTwoOrder(k1, k2);
    var sorted := [k2, k1];
    FillPick(ps, [], sorted);
    assert k1 != k2 && ps[1..] == [Prop(k2, v2)];
    assert Lookup(ps[1..], k2) == Some(v2);
    assert Lookup(ps, k2) == Some(v2);
    assert GetProp(ps, k1) == v1 && GetProp(ps, k2) == v2;
    assert Pick(ps, sorted) == [Prop(k2, v2), Prop(k1, v1)];
    assert [] + Pick(ps, sorted) == Pick(ps, sorted);
  }

  /** The example `{b: 1, a: 2}` sorts to `{a: 2, b: 1}`. */
  lemma SortObjectExample()
    ensures SortObject(Obj([Prop("b", Num(1)), Prop("a", Num(2))]))
      == Ok(Obj([Prop("a", Num(2)), Prop("b", Num(1))]))
  {
    assert StrLess("a", "b");
    SortTwo("b", Num(1), "a", Num(2));
  }

  /** Concatenation regroups; the queues' logs are proved with it. */
  lemma Associative<T>(a: seq<T>, b: seq<T>, c: seq<T>)
    ensures (a + b) + c == a + (b + c)
  {
  }
}
