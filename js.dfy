/**
 * A small model of the JavaScript values the bridge handles: parsed JSON
 * replies of the VEAP server, MQTT payloads, Node-RED messages and the
 * nested context store.  Objects are insertion-ordered property lists,
 * the order `Object.keys` and `for ... in` enumerate them in (integer-like
 * keys, which JavaScript enumerates first, are not treated specially).
 * Numbers are integers, plus the NaN that `parseInt` produces.  A
 * regular expression is a value of its own kind; what it matches is given
 * by the caller as a predicate on (source, subject).
 */
module Js {

  datatype Option<T> = None | Some(value: T)

  /** A thrown JavaScript exception. */
  datatype JsError = TypeError | Error(message: string)

  datatype Result<T> = Ok(value: T) | Err(error: JsError)

  datatype Value =
    | Undefined
    | Null
    | Bool(b: bool)
    | Num(n: int)
    | NaN
    | Str(s: string)
    | Arr(elems: seq<Value>)
    | Obj(props: seq<Prop>)
    | Pattern(source: string)

  datatype Prop = Prop(key: string, val: Value)

  /** `new RegExp(source).test(subject)`, supplied by the caller. */
  type Matcher = (string, string) -> bool

  // ---------------------------------------------------------------------
  // Truthiness, typeof, equality
  // ---------------------------------------------------------------------

  predicate Truthy(v: Value) {
    match v
    case Undefined => false
    case Null => false
    case Bool(b) => b
    case Num(n) => n != 0
    case NaN => false
    case Str(s) => s != ""
    case Arr(_) => true
    case Obj(_) => true
    case Pattern(_) => true
  }

  /** `typeof v === 'object'` (which includes null, arrays and regular expressions). */
  predicate IsObjectType(v: Value) {
    v.Null? || v.Arr? || v.Obj? || v.Pattern?
  }

  /**
   * `a === b`.  Arrays and objects are references; the values compared by
   * the bridge are always distinct objects, so two of them are never equal.
   */
  predicate StrictEq(a: Value, b: Value) {
    (a.Undefined? && b.Undefined?)
    || (a.Null? && b.Null?)
    || (a.Bool? && b.Bool? && a.b == b.b)
    || (a.Num? && b.Num? && a.n == b.n)
    || (a.Str? && b.Str? && a.s == b.s)
  }

  /** The SameValueZero comparison of `Array.prototype.includes`: like `===`, but NaN equals NaN. */
  predicate SameValueZero(a: Value, b: Value) {
    StrictEq(a, b) || (a.NaN? && b.NaN?)
  }

  lemma StrictEqOnStrings(x: string, v: Value)
    ensures StrictEq(Str(x), v) <==> v == Str(x)
  {
  }

  // ---------------------------------------------------------------------
  // Property lists
  // ---------------------------------------------------------------------

  function Keys(ps: seq<Prop>): (ks: seq<string>)
    ensures |ks| == |ps|
    ensures forall i :: 0 <= i < |ps| ==> ks[i] == ps[i].key
  {
    if ps == [] then [] else [ps[0].key] + Keys(ps[1..])
  }

  predicate HasKey(ps: seq<Prop>, k: string) {
    exists i :: 0 <= i < |ps| && ps[i].key == k
  }

  /** The value of the first property named `k`. */
  function Lookup(ps: seq<Prop>, k: string): (r: Option<Value>)
    ensures r.Some? <==> HasKey(ps, k)
  {
    if ps == [] then None
    else if ps[0].key == k then Some(ps[0].val)
    else Lookup(ps[1..], k)
  }

  /** `o[k]` on a plain object: undefined when absent. */
  function GetProp(ps: seq<Prop>, k: string): Value {
    match Lookup(ps, k)
    case Some(v) => v
    case None => Undefined
  }

  /** `o[k] = v`: an existing property keeps its place, a new one is appended. */
  function SetProp(ps: seq<Prop>, k: string, v: Value): (r: seq<Prop>)
    ensures HasKey(ps, k) ==> |r| == |ps|
    ensures !HasKey(ps, k) ==> r == ps + [Prop(k, v)]
  {
    if ps == [] then [Prop(k, v)]
    else if ps[0].key == k then [Prop(k, v)] + ps[1..]
    else [ps[0]] + SetProp(ps[1..], k, v)
  }

  predicate DistinctKeys(ps: seq<Prop>) {
    forall i, j :: 0 <= i < j < |ps| ==> ps[i].key != ps[j].key
  }

  lemma {:induction false} LookupAt(ps: seq<Prop>, i: nat)
    requires DistinctKeys(ps) && i < |ps|
    ensures Lookup(ps, ps[i].key) == Some(ps[i].val)
  {
    if i > 0 {
      assert ps[0].key != ps[i].key;
      LookupAt(ps[1..], i - 1);
    }
  }

  lemma {:induction false} SetPropGet(ps: seq<Prop>, k: string, v: Value, k': string)
    ensures Lookup(SetProp(ps, k, v), k') == if k' == k then Some(v) else Lookup(ps, k')
  {
    if ps != [] && ps[0].key != k {
      SetPropGet(ps[1..], k, v, k');
    }
  }

  lemma {:induction false} SetPropKeys(ps: seq<Prop>, k: string, v: Value)
    ensures forall k' :: HasKey(SetProp(ps, k, v), k') <==> HasKey(ps, k') || k' == k
  {
    forall k' ensures HasKey(SetProp(ps, k, v), k') <==> HasKey(ps, k') || k' == k {
      SetPropGet(ps, k, v, k');
    }
  }

  /** Replacing the value of an existing key keeps the key order. */
  lemma {:induction false} SetPropKeepsKeys(ps: seq<Prop>, k: string, v: Value)
    requires HasKey(ps, k)
    ensures Keys(SetProp(ps, k, v)) == Keys(ps)
  {
    if ps[0].key != k {
      SetPropKeepsKeys(ps[1..], k, v);
    }
  }

  lemma SetPropDistinct(ps: seq<Prop>, k: string, v: Value)
    requires DistinctKeys(ps)
    ensures DistinctKeys(SetProp(ps, k, v))
  {
    var r := SetProp(ps, k, v);
    if HasKey(ps, k) {
      SetPropKeepsKeys(ps, k, v);
      forall i, j | 0 <= i < j < |r| ensures r[i].key != r[j].key {
        assert r[i].key == Keys(r)[i] == ps[i].key;
        assert r[j].key == Keys(r)[j] == ps[j].key;
      }
    } else {
      forall i, j | 0 <= i < j < |r| ensures r[i].key != r[j].key {
        assert r[i] == ps[i];
        if j < |ps| {
          assert r[j] == ps[j];
        } else {
          assert r[j].key == k;
        }
      }
    }
  }

  /** Setting a property to the value it already has changes nothing. */
  lemma {:induction false} SetPropSame(ps: seq<Prop>, k: string, v: Value)
    requires Lookup(ps, k) == Some(v)
    ensures SetProp(ps, k, v) == ps
  {
    if ps[0].key != k {
      SetPropSame(ps[1..], k, v);
    }
  }

  lemma {:induction false} SetPropTwice(ps: seq<Prop>, k: string, v: Value, w: Value)
    ensures SetProp(SetProp(ps, k, v), k, w) == SetProp(ps, k, w)
  {
    if ps != [] && ps[0].key != k {
      SetPropTwice(ps[1..], k, v, w);
    }
  }

  /** Assigning every property of `src`, in order, onto `dst`. */
  function SetAll(dst: seq<Prop>, src: seq<Prop>): seq<Prop>
    decreases |src|
  {
    if src == [] then dst
    else SetAll(SetProp(dst, src[0].key, src[0].val), src[1..])
  }

  /** `{...a, ...b}` for two objects. */
  function Merge(a: seq<Prop>, b: seq<Prop>): seq<Prop> {
    SetAll(SetAll([], a), b)
  }

  lemma {:induction false} SetAllGet(dst: seq<Prop>, src: seq<Prop>, k: string)
    requires DistinctKeys(src)
    ensures Lookup(SetAll(dst, src), k) == if HasKey(src, k) then Lookup(src, k) else Lookup(dst, k)
    decreases |src|
  {
    if src != [] {
      assert DistinctKeys(src[1..]);
      SetAllGet(SetProp(dst, src[0].key, src[0].val), src[1..], k);
      SetPropGet(dst, src[0].key, src[0].val, k);
      if k == src[0].key {
        forall i | 0 <= i < |src[1..]| ensures src[1..][i].key != k {
          assert src[i + 1].key != src[0].key;
        }
      }
    }
  }

  lemma {:induction false} SetAllDistinct(dst: seq<Prop>, src: seq<Prop>)
    requires DistinctKeys(dst)
    ensures DistinctKeys(SetAll(dst, src))
    decreases |src|
  {
    if src != [] {
      SetPropDistinct(dst, src[0].key, src[0].val);
      SetAllDistinct(SetProp(dst, src[0].key, src[0].val), src[1..]);
    }
  }

  /** Assigning properties that are already in place changes nothing. */
  lemma {:induction false} SetAllPresent(dst: seq<Prop>, src: seq<Prop>)
    requires forall i :: 0 <= i < |src| ==> Lookup(dst, src[i].key) == Some(src[i].val)
    ensures SetAll(dst, src) == dst
    decreases |src|
  {
    if src != [] {
      SetPropSame(dst, src[0].key, src[0].val);
      SetAllPresent(dst, src[1..]);
    }
  }

  /** `{...a, ...b}` reads a key from `b` when `b` has it, and from `a` otherwise. */
  lemma MergeGet(a: seq<Prop>, b: seq<Prop>, k: string)
    requires DistinctKeys(a) && DistinctKeys(b)
    ensures Lookup(Merge(a, b), k) == if HasKey(b, k) then Lookup(b, k) else Lookup(a, k)
  {
    SetAllGet(SetAll([], a), b, k);
    SetAllGet([], a, k);
  }

  lemma MergeDistinct(a: seq<Prop>, b: seq<Prop>)
    ensures DistinctKeys(Merge(a, b))
  {
    SetAllDistinct([], a);
    SetAllDistinct(SetAll([], a), b);
  }

  /**
   * The shallow merge `{...a, ...b}` is idempotent in its second operand:
   * merging the same fresh data twice gives what merging it once gives.
   */
  lemma MergeIdempotent(a: seq<Prop>, b: seq<Prop>)
    requires DistinctKeys(b)
    ensures Merge(Merge(a, b), b) == Merge(a, b)
  {
    var a' := SetAll([], a);
    var m := SetAll(a', b);
    assert m == Merge(a, b);
    SetAllDistinct([], a);
    SetAllDistinct(a', b);
    SetAllPresentSelf(m);
    assert SetAll([], m) == m;
    forall i | 0 <= i < |b| ensures Lookup(m, b[i].key) == Some(b[i].val) {
      SetAllGet(a', b, b[i].key);
      LookupAt(b, i);
      assert HasKey(b, b[i].key);
    }
    SetAllPresent(m, b);
  }

  /** Spreading an object whose keys are distinct rebuilds it unchanged. */
  lemma {:induction false} SetAllPresentSelf(m: seq<Prop>)
    ensures DistinctKeys(m) ==> SetAll([], m) == m
  {
    if DistinctKeys(m) {
      SetAllRebuild([], m);
    }
  }

  lemma {:induction false} SetAllRebuild(pre: seq<Prop>, rest: seq<Prop>)
    requires DistinctKeys(pre + rest)
    ensures SetAll(pre, rest) == pre + rest
    decreases |rest|
  {
    if rest != [] {
      forall i | 0 <= i < |pre| ensures pre[i].key != rest[0].key {
        assert (pre + rest)[i].key != (pre + rest)[|pre|].key;
      }
      assert SetProp(pre, rest[0].key, rest[0].val) == pre + [rest[0]];
      assert pre + [rest[0]] + rest[1..] == pre + rest;
      SetAllRebuild(pre + [rest[0]], rest[1..]);
    }
  }

  // ---------------------------------------------------------------------
  // Numbers and strings
  // ---------------------------------------------------------------------

  predicate IsDigit(c: char) {
    '0' <= c <= '9'
  }

  function DigitChar(d: nat): char
    requires d < 10
  {
    "0123456789"[d]
  }

  function DigitValue(c: char): nat
    requires IsDigit(c)
  {
    (c as int - '0' as int) as nat
  }

  /** The decimal digits of a natural number, without leading zeros. */
  function NatToString(n: nat): (s: string)
    ensures |s| > 0
    ensures forall i :: 0 <= i < |s| ==> IsDigit(s[i])
  {
    if n < 10 then [DigitChar(n)] else NatToString(n / 10) + [DigitChar(n % 10)]
  }

  /** `String(n)` for an integer. */
  function IntToString(n: int): string {
    if n < 0 then "-" + NatToString(-n) else NatToString(n)
  }

  function DigitsValue(s: string): nat
    requires forall i :: 0 <= i < |s| ==> IsDigit(s[i])
  {
    if s == [] then 0 else DigitsValue(s[..|s| - 1]) * 10 + DigitValue(s[|s| - 1])
  }

  lemma {:induction false} NatToStringValue(n: nat)
    ensures DigitsValue(NatToString(n)) == n
  {
    var s := NatToString(n);
    if n >= 10 {
      NatToStringValue(n / 10);
      assert s[..|s| - 1] == NatToString(n / 10);
    }
  }

  /** `String(v)`, the conversion template literals and `RegExp.test` apply. */
  function ToStr(v: Value): string {
    match v
    case Undefined => "undefined"
    case Null => "null"
    case Bool(b) => if b then "true" else "false"
    case Num(n) => IntToString(n)
    case NaN => "NaN"
    case Str(s) => s
    case Arr(es) => JoinElems(es)
    case Obj(_) => "[object Object]"
    case Pattern(src) => if src == "" then "/(?:)/" else "/" + src + "/"
  }

  /** `Array.prototype.join(',')`: undefined and null elements become empty. */
  function JoinElems(es: seq<Value>): string
    decreases es
  {
    if es == [] then ""
    else
      var first := if es[0].Undefined? || es[0].Null? then "" else ToStr(es[0]);
      if |es| == 1 then first else first + "," + JoinElems(es[1..])
  }

  /** White space and line terminators as `parseInt` strips them: the Zs spaces, TAB, VT, FF, BOM, LF, CR, LS and PS. */
  predicate IsWhiteSpace(c: char) {
    c == ' ' || c == '\t' || c == '\n' || c == '\r' || c == '\U{000B}' || c == '\U{000C}'
    || c == '\U{00A0}' || c == '\U{FEFF}' || c == '\U{2028}' || c == '\U{2029}'
    || c == '\U{1680}' || ('\U{2000}' <= c <= '\U{200A}') || c == '\U{202F}' || c == '\U{205F}' || c == '\U{3000}'
  }

  /** `s` without its leading white space. */
  function TrimStart(s: string): string {
    if s != [] && IsWhiteSpace(s[0]) then TrimStart(s[1..]) else s
  }

  /** Trimming leaves a suffix that does not start with white space. */
  lemma {:induction false} TrimStartSuffix(s: string)
    ensures |TrimStart(s)| <= |s| && TrimStart(s) == s[|s| - |TrimStart(s)|..]
    ensures TrimStart(s) != [] ==> !IsWhiteSpace(TrimStart(s)[0])
  {
    if s != [] && IsWhiteSpace(s[0]) {
      TrimStartSuffix(s[1..]);
    }
  }

  /** The longest prefix of `s` made of decimal digits. */
  function DigitPrefix(s: string): (r: string)
    ensures |r| <= |s| && r == s[..|r|]
    ensures forall i :: 0 <= i < |r| ==> IsDigit(r[i])
    ensures |r| < |s| ==> !IsDigit(s[|r|])
  {
    if s != [] && IsDigit(s[0]) then [s[0]] + DigitPrefix(s[1..]) else []
  }

  /** The digits at the start of `b` as a number; NaN when there are none. */
  function ParseUnsigned(b: string): (r: Value)
    ensures r.NaN? || r.Num?
  {
    var digits := DigitPrefix(b);
    if digits == [] then NaN else Num(DigitsValue(digits))
  }

  /** An optional sign, then digits. */
  function ParseSigned(t: string): (r: Value)
    ensures r.NaN? || r.Num?
  {
    if t != [] && t[0] == '-' then
      match ParseUnsigned(t[1..])
      case Num(n) => Num(-n)
      case other => other
    else if t != [] && t[0] == '+' then ParseUnsigned(t[1..])
    else ParseUnsigned(t)
  }

  /** The sign and digits `parseInt` reads from a string after leading white space; NaN when there are no digits. */
  function ParseIntString(s: string): (r: Value)
    ensures r.NaN? || r.Num?
  {
    ParseSigned(TrimStart(s))
  }

  /** `Number.parseInt(v, 10)`: a signed run of digits after leading white space, else NaN. */
  function ParseInt(v: Value): (r: Value)
    ensures r.NaN? || r.Num?
  {
    ParseIntString(ToStr(v))
  }

  lemma {:induction false} DigitPrefixAll(s: string)
    requires forall i :: 0 <= i < |s| ==> IsDigit(s[i])
    ensures DigitPrefix(s) == s
  {
    if s != [] {
      DigitPrefixAll(s[1..]);
    }
  }

  /** A string that starts with neither white space, a sign nor a digit parses to NaN. */
  lemma ParseIntNoDigits(s: string)
    requires s != [] && !IsWhiteSpace(s[0]) && !IsDigit(s[0]) && s[0] != '-' && s[0] != '+'
    ensures ParseIntString(s) == NaN
  {
    assert TrimStart(s) == s;
    assert DigitPrefix(s) == [];
  }

  /** A run of digits parses to the number it spells. */
  lemma ParseUnsignedDigits(ds: string)
    requires ds != [] && forall i :: 0 <= i < |ds| ==> IsDigit(ds[i])
    ensures ParseUnsigned(ds) == Num(DigitsValue(ds))
  {
    DigitPrefixAll(ds);
  }

  /** A string starting with a digit parses without a sign. */
  lemma ParseIntUnsigned(s: string)
    requires s != [] && IsDigit(s[0])
    ensures ParseIntString(s) == ParseUnsigned(s)
  {
    assert TrimStart(s) == s;
  }

  /** The decimal digits of `m` parse back to `m`. */
  lemma ParseUnsignedNat(m: nat)
    ensures ParseUnsigned(NatToString(m)) == Num(m)
  {
    NatToStringValue(m);
    ParseUnsignedDigits(NatToString(m));
  }

  lemma ParseIntNat(m: nat)
    ensures ParseIntString(NatToString(m)) == Num(m)
  {
    ParseUnsignedNat(m);
    ParseIntUnsigned(NatToString(m));
  }

  lemma ParseIntNegNat(m: nat)
    ensures ParseIntString("-" + NatToString(m)) == Num(-(m as int))
  {
    ParseUnsignedNat(m);
    ParseIntMinus(NatToString(m));
  }

  /** A minus sign before digits negates the number they spell. */
  lemma ParseIntMinus(b: string)
    requires ParseUnsigned(b).Num?
    ensures ParseIntString("-" + b) == Num(-ParseUnsigned(b).n)
  {
    var s := "-" + b;
    assert s[0] == '-' && s[1..] == b;
    assert TrimStart(s) == s;
  }

  /** A leading blank, a space of any width included, is skipped before the sign and the digits. */
  lemma ParseIntSkipsBlank(c: char, s: string)
    requires IsWhiteSpace(c)
    ensures ParseIntString([c] + s) == ParseIntString(s)
  {
    assert ([c] + s)[1..] == s;
  }

  /** `parseInt('\u30001', 10)` is 1: the ideographic space is white space. */
  lemma ParseIntIdeographicSpace()
    ensures ParseIntString("\U{3000}1") == Num(1)
  {
    ParseIntSkipsBlank('\U{3000}', "1");
    assert DigitPrefix("1") == "1";
  }

  /**
   * `parseInt(String(n), 10) === n` for every integer: rewriting a filter's
   * channelIndex a second time changes nothing.
   */
  lemma ParseIntRoundTrip(n: int)
    ensures ParseInt(Num(n)) == Num(n)
  {
    if n < 0 {
      ParseIntNegNat(-n);
    } else {
      ParseIntNat(n);
    }
  }

  /** Objects, booleans, NaN and the empty string parse to NaN. */
  lemma ParseIntNaN(ps: seq<Prop>)
    ensures ParseInt(Obj(ps)) == NaN
    ensures ParseInt(Bool(true)) == NaN && ParseInt(Bool(false)) == NaN
    ensures ParseInt(NaN) == NaN
    ensures ParseInt(Str("")) == NaN
  {
    ParseIntNoDigits("[object Object]");
    ParseIntNoDigits("true");
    ParseIntNoDigits("false");
    ParseIntNoDigits("NaN");
  }

  /** A regular expression converts to a string starting with `/`, which parses to NaN. */
  lemma ParseIntPattern(src: string)
    ensures ParseInt(Pattern(src)) == NaN
  {
    ParseIntNoDigits(ToStr(Pattern(src)));
  }

  /** ASCII lower-casing, the part of `toLowerCase` topic keys use. */
  function LowerChar(c: char): char {
    if 'A' <= c <= 'Z' then (c as int + 32) as char else c
  }

  function Lower(s: string): (r: string)
    ensures |r| == |s|
    ensures forall i :: 0 <= i < |s| ==> r[i] == LowerChar(s[i])
  {
    if s == [] then [] else [LowerChar(s[0])] + Lower(s[1..])
  }

  /** `s.split(sep)` for a one-character separator: always at least one part. */
  function Split(s: string, sep: char): (parts: seq<string>)
    ensures |parts| >= 1
    ensures forall i :: 0 <= i < |parts| ==> sep !in parts[i]
  {
    if s == [] then [""]
    else if s[0] == sep then [""] + Split(s[1..], sep)
    else
      var rest := Split(s[1..], sep);
      [[s[0]] + rest[0]] + rest[1..]
  }

  function Join(parts: seq<string>, sep: char): string {
    if parts == [] then ""
    else if |parts| == 1 then parts[0]
    else parts[0] + [sep] + Join(parts[1..], sep)
  }

  lemma {:induction false} SplitJoin(s: string, sep: char)
    ensures Join(Split(s, sep), sep) == s
  {
    if s != [] {
      SplitJoin(s[1..], sep);
      var rest := Split(s[1..], sep);
      if s[0] == sep {
        assert Split(s, sep) == [""] + rest;
      } else {
        var parts := Split(s, sep);
        if |rest| == 1 {
          assert parts == [[s[0]] + rest[0]];
        } else {
          assert parts[1..] == rest[1..];
          assert Join(parts, sep) == [s[0]] + rest[0] + [sep] + Join(rest[1..], sep);
        }
      }
    }
  }

  /** The i-th element of `parts`, or undefined past the end (array destructuring). */
  function PartAt(parts: seq<string>, i: nat): Value {
    if i < |parts| then Str(parts[i]) else Undefined
  }

  // ---------------------------------------------------------------------
  // Property access on arbitrary values
  // ---------------------------------------------------------------------

  /** A canonical array index: digits without a leading zero (except "0" itself). */
  predicate IsIndexKey(k: string) {
    k != [] && (forall i :: 0 <= i < |k| ==> IsDigit(k[i])) && (k[0] == '0' ==> k == "0")
  }

  /** The array index a property key denotes, if it is a canonical index below `len`. */
  function IndexOfKey(k: string, len: nat): (r: Option<nat>)
    ensures r.Some? ==> r.value < len
  {
    if IsIndexKey(k) && DigitsValue(k) < len then Some(DigitsValue(k)) else None
  }

  lemma {:induction false} NatToStringCanonical(n: nat)
    ensures IsIndexKey(NatToString(n))
    ensures n > 0 ==> NatToString(n)[0] != '0'
  {
    if n >= 10 {
      NatToStringCanonical(n / 10);
      assert NatToString(n)[0] == NatToString(n / 10)[0];
    }
  }

  /** The key `String(i)` of an array element denotes element i. */
  lemma IndexOfKeyOfIndex(i: nat, len: nat)
    requires i < len
    ensures IndexOfKey(NatToString(i), len) == Some(i)
  {
    NatToStringCanonical(i);
    NatToStringValue(i);
  }

  /** `v[k]`: reading a property of undefined or null throws. */
  function Get(v: Value, k: string): Result<Value> {
    match v
    case Undefined => Err(TypeError)
    case Null => Err(TypeError)
    case Obj(ps) => Ok(GetProp(ps, k))
    case Arr(es) =>
      if k == "length" then Ok(Num(|es|))
      else (match IndexOfKey(k, |es|)
            case Some(i) => Ok(es[i])
            case None => Ok(Undefined))
    case Str(s) =>
      if k == "length" then Ok(Num(|s|))
      else (match IndexOfKey(k, |s|)
            case Some(i) => Ok(Str([s[i]]))
            case None => Ok(Undefined))
    case _ => Ok(Undefined)
  }

  /** `Object.prototype.hasOwnProperty.call(v, k)`. */
  function HasOwn(v: Value, k: string): Result<bool> {
    match v
    case Undefined => Err(TypeError)
    case Null => Err(TypeError)
    case Obj(ps) => Ok(HasKey(ps, k))
    case Arr(es) => Ok(k == "length" || IndexOfKey(k, |es|).Some?)
    case Str(s) => Ok(k == "length" || IndexOfKey(k, |s|).Some?)
    case Pattern(_) => Ok(k == "lastIndex")
    case _ => Ok(false)
  }

  function IndexKeys(n: nat): (ks: seq<string>)
    ensures |ks| == n
    ensures forall i :: 0 <= i < n ==> ks[i] == NatToString(i)
  {
    if n == 0 then [] else IndexKeys(n - 1) + [NatToString(n - 1)]
  }

  /** `Object.keys(v)`. */
  function OwnKeys(v: Value): Result<seq<string>> {
    match v
    case Undefined => Err(TypeError)
    case Null => Err(TypeError)
    case Obj(ps) => Ok(Keys(ps))
    case Arr(es) => Ok(IndexKeys(|es|))
    case Str(s) => Ok(IndexKeys(|s|))
    case _ => Ok([])
  }

  function IndexProps(es: seq<Value>): (ps: seq<Prop>)
    ensures |ps| == |es|
    ensures forall i :: 0 <= i < |es| ==> ps[i] == Prop(NatToString(i), es[i])
  {
    if es == [] then [] else IndexProps(es[..|es| - 1]) + [Prop(NatToString(|es| - 1), es[|es| - 1])]
  }

  function Chars(s: string): (r: seq<Value>)
    ensures |r| == |s|
    ensures forall i :: 0 <= i < |s| ==> r[i] == Str([s[i]])
  {
    if s == [] then [] else [Str([s[0]])] + Chars(s[1..])
  }

  /** The own enumerable properties `{...v}` copies (nothing for undefined, null and primitives). */
  function SpreadProps(v: Value): seq<Prop> {
    match v
    case Obj(ps) => ps
    case Arr(es) => IndexProps(es)
    case Str(s) => IndexProps(Chars(s))
    case _ => []
  }

  /** `for (const x of v)`: arrays and strings are iterable, anything else throws. */
  function Iterate(v: Value): Result<seq<Value>> {
    match v
    case Arr(es) => Ok(es)
    case Str(s) => Ok(Chars(s))
    case _ => Err(TypeError)
  }

  /** `v[k] = x` in strict mode, for the plain objects of the context store. */
  function Assign(v: Value, k: string, x: Value): Result<Value> {
    match v
    case Obj(ps) => Ok(Obj(SetProp(ps, k, x)))
    case _ => Err(TypeError)
  }

  /** Neither undefined nor null: reading a property of it cannot throw. */
  predicate Defined(v: Value) {
    !v.Undefined? && !v.Null?
  }

  /** `v[k]` on a value that is neither undefined nor null, where reading cannot throw. */
  function Field(v: Value, k: string): Value
    requires Defined(v)
  {
    Get(v, k).value
  }

  /** `a || b`. */
  function Or(a: Value, b: Value): (r: Value)
    ensures Truthy(r) <==> Truthy(a) || Truthy(b)
    ensures Truthy(a) ==> r == a
  {
    if Truthy(a) then a else b
  }

  /** The properties of an object (nothing for any other value). */
  function Inner(v: Value): seq<Prop> {
    if v.Obj? then v.props else []
  }
}
