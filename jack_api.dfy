/**
 * The VEAP client of the configuration node (`JACK`): the defaults of its
 * options, the `~links` search, the capability checks on the server root
 * and the reshaping of the query results into the metadata tree.
 *
 * The HTTP requests are not modelled: every operation receives what its
 * request resolved to (`Ok`) or that it was rejected (`Err`).
 */
module JackApi {
  import opened Js
  import Utils

  const NO_DOMAINS := "No domains found in VAEP server response."
  const NO_EXGDATA := "API does not support ExgDataService. Please upgrade your CCU-Jack!"
  const NO_SEARCH := "API does not support SearchService. Please upgrade your CCU-Jack!"
  const EMPTY_RESPONSE := "Empty response from API"

  // ---------------------------------------------------------------------
  // The constructor
  // ---------------------------------------------------------------------

  datatype Options = Options(host: Value, port: Value, usetls: Value, useauth: Value,
                             username: Value, password: Value, shouldLog: Value)

  /** The options the client keeps: each falsy option falls back to its default. */
  function Defaults(options: seq<Prop>): Options {
    Options(
      Or(GetProp(options, "host"), Str("127.0.0.1")),
      Or(GetProp(options, "port"), Num(2121)),
      Or(GetProp(options, "usetls"), Bool(false)),
      Or(GetProp(options, "useauth"), Bool(false)),
      Or(GetProp(options, "username"), Str("")),
      Or(GetProp(options, "password"), Str("")),
      Or(GetProp(options, "shouldLog"), Bool(false)))
  }

  /** With no options at all: host 127.0.0.1, port 2121, no TLS, no authentication, no logging. */
  lemma DefaultsOfEmpty()
    ensures Defaults([]) == Options(Str("127.0.0.1"), Num(2121), Bool(false), Bool(false), Str(""), Str(""), Bool(false))
  {
  }

  /** A given host and port are kept; other options with them are ignored. */
  lemma DefaultsKeepGiven(options: seq<Prop>, host: string, port: int)
    requires host != "" && port != 0
    requires Lookup(options, "host") == Some(Str(host)) && Lookup(options, "port") == Some(Num(port))
    ensures Defaults(options).host == Str(host) && Defaults(options).port == Num(port)
  {
  }

  // ---------------------------------------------------------------------
  // getLinks
  // ---------------------------------------------------------------------

  /** Whether `getLinks` keeps the href of `link`: its `rel` is `relation` and its href matches. */
  predicate Selects(link: Value, relation: Value, href: string -> bool) {
    !relation.Undefined? && Defined(link)
    && StrictEq(Field(link, "rel"), relation)
    && Field(link, "href").Str? && href(Field(link, "href").s)
  }

  /** The hrefs of the selected links, in link order. */
  function Selected(links: seq<Value>, relation: Value, href: string -> bool): seq<Value> {
    if links == [] then []
    else (if Selects(links[0], relation, href) then [Field(links[0], "href")] else [])
         + Selected(links[1..], relation, href)
  }

  /**
   * The loop of `getLinks` from `links` on, `found` holding the hrefs pushed
   * so far.  Reading `rel` of undefined or null, and calling `match` on an
   * href that is not a string, throw.
   */
  function Collect(links: seq<Value>, relation: Value, href: string -> bool, found: seq<Value>): Result<seq<Value>>
    decreases |links|
  {
    if links == [] then Ok(found)
    else if relation.Undefined? then Collect(links[1..], relation, href, found)
    else if !Defined(links[0]) then Err(TypeError)
    else if !StrictEq(Field(links[0], "rel"), relation) then Collect(links[1..], relation, href, found)
    else
      var h := Field(links[0], "href");
      if !h.Str? then Err(TypeError)
      else if href(h.s) then Collect(links[1..], relation, href, found + [h])
      else Collect(links[1..], relation, href, found)
  }

  /** `getLinks(item, relation, href)`; `href` is the test of the pattern (match-everything by default). */
  function LinksOf(item: Value, relation: Value, href: string -> bool): Result<seq<Value>> {
    match Utils.HasProperty(item, "~links")
    case Err(e) => Err(e)
    case Ok(has) =>
      if !has then Ok([])
      else match Iterate(Field(item, "~links"))
        case Err(e) => Err(e)
        case Ok(links) => Collect(links, relation, href, [])
  }

  /** The default pattern, which matches every href. */
  function AnyHref(): string -> bool {
    h => true
  }

  method GetLinks(item: Value, relation: Value, href: string -> bool) returns (r: Result<seq<Value>>)
    ensures r == LinksOf(item, relation, href)
  {
    var has := Utils.HasProperty(item, "~links");
    if has.Err? {
      return Err(has.error);
    }
    if !has.value {
      return Ok([]);
    }
    var it := Iterate(Field(item, "~links"));
    if it.Err? {
      return Err(it.error);
    }
    var links := it.value;
    var result := [];
    var i := 0;
    while i < |links|
      invariant 0 <= i <= |links|
      invariant Collect(links[i..], relation, href, result) == Collect(links, relation, href, [])
    {
      var link := links[i];
      assert links[i..][0] == link && links[i..][1..] == links[i + 1..];
      if !relation.Undefined? {
        if !Defined(link) {
          return Err(TypeError);
        }
        if StrictEq(Field(link, "rel"), relation) {
          var h := Field(link, "href");
          if !h.Str? {
            return Err(TypeError);
          }
          if href(h.s) {
            result := result + [h];
          }
        }
      }
      i := i + 1;
    }
    assert links[i..] == [];
    return Ok(result);
  }

  /** When the loop completes, it has pushed exactly the selected hrefs, in order. */
  lemma {:induction false} CollectSelected(links: seq<Value>, relation: Value, href: string -> bool, found: seq<Value>)
    requires Collect(links, relation, href, found).Ok?
    ensures Collect(links, relation, href, found).value == found + Selected(links, relation, href)
    decreases |links|
  {
    if links != [] {
      var rest := links[1..];
      if Selects(links[0], relation, href) {
        var h := Field(links[0], "href");
        assert Collect(links, relation, href, found) == Collect(rest, relation, href, found + [h]);
        assert Selected(links, relation, href) == [h] + Selected(rest, relation, href);
        CollectSelected(rest, relation, href, found + [h]);
        Utils.Associative(found, [h], Selected(rest, relation, href));
      } else {
        assert Collect(links, relation, href, found) == Collect(rest, relation, href, found);
        assert Selected(links, relation, href) == Selected(rest, relation, href);
        CollectSelected(rest, relation, href, found);
      }
    }
  }

  /** An href is selected exactly when some link with the relation carries it and it matches. */
  lemma {:induction false} SelectedMembers(links: seq<Value>, relation: Value, href: string -> bool, x: Value)
    ensures x in Selected(links, relation, href)
        <==> exists i :: 0 <= i < |links| && Selects(links[i], relation, href) && Field(links[i], "href") == x
  {
    if links != [] {
      SelectedMembers(links[1..], relation, href, x);
      if x in Selected(links[1..], relation, href) {
        var i :| 0 <= i < |links[1..]| && Selects(links[1..][i], relation, href) && Field(links[1..][i], "href") == x;
        assert links[i + 1] == links[1..][i];
      }
      forall i | 1 <= i < |links| && Selects(links[i], relation, href) && Field(links[i], "href") == x
        ensures x in Selected(links[1..], relation, href)
      {
        assert links[1..][i - 1] == links[i];
      }
    }
  }

  /** `getLinks`: the selected hrefs when the item has `~links`, nothing when it has none. */
  lemma LinksOfSelected(item: Value, relation: Value, href: string -> bool)
    requires LinksOf(item, relation, href).Ok?
    ensures LinksOf(item, relation, href).value
         == if item.Obj? && HasKey(item.props, "~links")
            then Selected(Iterate(GetProp(item.props, "~links")).value, relation, href)
            else []
  {
    if item.Obj? && HasKey(item.props, "~links") {
      CollectSelected(Iterate(GetProp(item.props, "~links")).value, relation, href, []);
    }
  }

  /** Without a relation no link is selected. */
  lemma SelectedWithoutRelation(links: seq<Value>, href: string -> bool)
    ensures Selected(links, Undefined, href) == []
  {
    if links != [] {
      SelectedWithoutRelation(links[1..], href);
    }
  }

  // ---------------------------------------------------------------------
  // getConfig, getDomains
  // ---------------------------------------------------------------------

  /** `link.rel === rel`, and `link.href === href` when an href is asked for. */
  predicate LinkIs(link: Value, rel: string, href: Option<string>)
    requires Defined(link)
  {
    Field(link, "rel") == Str(rel) && (href.None? || Field(link, "href") == Str(href.value))
  }

  predicate AllDefined(links: seq<Value>) {
    forall i :: 0 <= i < |links| ==> Defined(links[i])
  }

  /** `links.some(...)`: stops at the first link that fits; reading `rel` of undefined or null throws. */
  function SomeLink(links: seq<Value>, rel: string, href: Option<string>): (r: Result<bool>) {
    if links == [] then Ok(false)
    else if !Defined(links[0]) then Err(TypeError)
    else if LinkIs(links[0], rel, href) then Ok(true)
    else SomeLink(links[1..], rel, href)
  }

  predicate HasLink(links: seq<Value>, rel: string, href: Option<string>)
    requires AllDefined(links)
  {
    exists i :: 0 <= i < |links| && LinkIs(links[i], rel, href)
  }

  lemma HasLinkCons(links: seq<Value>, rel: string, href: Option<string>)
    requires links != [] && AllDefined(links)
    ensures AllDefined(links[1..])
    ensures HasLink(links, rel, href) <==> LinkIs(links[0], rel, href) || HasLink(links[1..], rel, href)
  {
    assert forall i :: 0 <= i < |links[1..]| ==> links[1..][i] == links[i + 1];
    if HasLink(links, rel, href) && !LinkIs(links[0], rel, href) {
      var i :| 0 <= i < |links| && LinkIs(links[i], rel, href);
      assert LinkIs(links[1..][i - 1], rel, href);
    }
  }

  /** On links that are all objects, `some` is the existential it stands for. */
  lemma {:induction false} SomeLinkExists(links: seq<Value>, rel: string, href: Option<string>)
    requires AllDefined(links)
    ensures SomeLink(links, rel, href) == Ok(HasLink(links, rel, href))
  {
    if links != [] {
      HasLinkCons(links, rel, href);
      SomeLinkExists(links[1..], rel, href);
    }
  }

  /** `root['~links']` for `.some`: only an array has that method. */
  function LinkList(root: Value): Result<seq<Value>> {
    match Get(root, "~links")
    case Err(e) => Err(e)
    case Ok(ls) => if ls.Arr? then Ok(ls.elems) else Err(TypeError)
  }

  /** What the three requests of `getConfig` yield: the given replies, or the stand-ins for a failure. */
  function ConfigReplies(replies: Result<(Value, Value, Value)>): (Value, Value, Value) {
    if replies.Ok? then replies.value else (Obj([Prop("~links", Arr([]))]), Obj([]), Obj([]))
  }

  /**
   * `getConfig`: the root must link a domain, the exchange-data service
   * and the search service, checked in that order; the result is the root
   * and `{vendor, config: config.v}`.
   */
  function GetConfig(replies: Result<(Value, Value, Value)>): (r: Result<(Value, Value)>)
    ensures replies.Err? ==> r == Err(Error(NO_DOMAINS))
  {
    var (root, vendor, config) := ConfigReplies(replies);
    match LinkList(root)
    case Err(e) => Err(e)
    case Ok(links) =>
      match SomeLink(links, "domain", None)
      case Err(e) => Err(e)
      case Ok(hasDomain) =>
        if !hasDomain then Err(Error(NO_DOMAINS))
        else match SomeLink(links, "~service", Some("~exgdata"))
          case Err(e) => Err(e)
          case Ok(hasExgData) =>
            if !hasExgData then Err(Error(NO_EXGDATA))
            else match SomeLink(links, "~service", Some("~query"))
              case Err(e) => Err(e)
              case Ok(hasQuery) =>
                if !hasQuery then Err(Error(NO_SEARCH))
                else match Get(config, "v")
                  case Err(e) => Err(e)
                  case Ok(v) => Ok((root, Obj([Prop("vendor", vendor), Prop("config", v)])))
  }

  /** The order of the capability errors, and the result when all three capabilities are there. */
  lemma GetConfigChecks(root: Value, vendor: Value, config: Value)
    requires LinkList(root).Ok? && AllDefined(LinkList(root).value) && Defined(config)
    ensures var links := LinkList(root).value;
      GetConfig(Ok((root, vendor, config)))
      == if !HasLink(links, "domain", None) then Err(Error(NO_DOMAINS))
         else if !HasLink(links, "~service", Some("~exgdata")) then Err(Error(NO_EXGDATA))
         else if !HasLink(links, "~service", Some("~query")) then Err(Error(NO_SEARCH))
         else Ok((root, Obj([Prop("vendor", vendor), Prop("config", Field(config, "v"))])))
  {
    var links := LinkList(root).value;
    SomeLinkExists(links, "domain", None);
    SomeLinkExists(links, "~service", Some("~exgdata"));
    SomeLinkExists(links, "~service", Some("~query"));
  }

  /** `getDomains`: a failed request or an empty list is the "Empty response" error. */
  function GetDomains(reply: Result<Value>): (r: Result<Value>)
    ensures reply.Err? || reply == Ok(Arr([])) ==> r == Err(Error(EMPTY_RESPONSE))
    ensures reply.Ok? && reply.value.Arr? && reply.value.elems != [] ==> r == reply
  {
    var domains := if reply.Ok? then reply.value else Arr([]);
    match Get(domains, "length")
    case Err(e) => Err(e)
    case Ok(len) => if StrictEq(len, Num(0)) then Err(Error(EMPTY_RESPONSE)) else Ok(domains)
  }

  // ---------------------------------------------------------------------
  // Placing values in nested objects
  // ---------------------------------------------------------------------

  /** `r[p0][p1]...[pn] = x`, creating each missing level as an empty object. */
  function PutPath(r: seq<Prop>, path: seq<string>, x: Value): seq<Prop>
    requires |path| >= 1
    decreases |path|
  {
    if |path| == 1 then SetProp(r, path[0], x)
    else SetProp(r, path[0], Obj(PutPath(Inner(GetProp(r, path[0])), path[1..], x)))
  }

  /** `r[p0][p1]...[pn]`, if every level is there. */
  function LookupPath(r: seq<Prop>, path: seq<string>): Option<Value>
    requires |path| >= 1
    decreases |path|
  {
    if |path| == 1 then Lookup(r, path[0])
    else if HasKey(r, path[0]) then LookupPath(Inner(GetProp(r, path[0])), path[1..])
    else None
  }

  lemma {:induction false} PutPathGet(r: seq<Prop>, p: seq<string>, x: Value, q: seq<string>)
    requires |p| >= 1 && |q| == |p|
    ensures LookupPath(PutPath(r, p, x), q) == if q == p then Some(x) else LookupPath(r, q)
    decreases |p|
  {
    var r' := PutPath(r, p, x);
    SetPropGet(r, p[0], if |p| == 1 then x else Obj(PutPath(Inner(GetProp(r, p[0])), p[1..], x)), q[0]);
    if |p| > 1 {
      SetPropKeys(r, p[0], Obj(PutPath(Inner(GetProp(r, p[0])), p[1..], x)));
      if q[0] == p[0] {
        PutPathGet(Inner(GetProp(r, p[0])), p[1..], x, q[1..]);
        assert q == p <==> q[1..] == p[1..] by {
          if q[1..] == p[1..] {
            assert q == [q[0]] + q[1..] && p == [p[0]] + p[1..];
          }
        }
        if !HasKey(r, p[0]) {
          assert GetProp(r, p[0]) == Undefined;
          LookupPathEmpty(q[1..]);
        }
      }
    }
  }

  lemma {:induction false} LookupPathEmpty(q: seq<string>)
    requires |q| >= 1
    ensures LookupPath([], q) == None
  {
  }

  /** A value with the position it is placed at in the result. */
  datatype Entry = Entry(path: seq<string>, val: Value)

  /** The entries placed one after the other; a later entry at the same path replaces an earlier one. */
  function Place(entries: seq<Entry>): seq<Prop>
    requires forall i :: 0 <= i < |entries| ==> |entries[i].path| >= 1
  {
    if entries == [] then []
    else PutPath(Place(entries[..|entries| - 1]), entries[|entries| - 1].path, entries[|entries| - 1].val)
  }

  /** The value of the last entry at `q`. */
  function LastAt(entries: seq<Entry>, q: seq<string>): Option<Value> {
    if entries == [] then None
    else if entries[|entries| - 1].path == q then Some(entries[|entries| - 1].val)
    else LastAt(entries[..|entries| - 1], q)
  }

  lemma {:induction false} LastAtSpec(entries: seq<Entry>, q: seq<string>)
    ensures LastAt(entries, q).Some? <==> exists i :: 0 <= i < |entries| && entries[i].path == q
    ensures LastAt(entries, q).Some? ==>
      exists i :: 0 <= i < |entries| && entries[i] == Entry(q, LastAt(entries, q).value)
                  && forall j :: i < j < |entries| ==> entries[j].path != q
  {
    if entries != [] {
      var n := |entries| - 1;
      var init := entries[..n];
      LastAtSpec(init, q);
      if entries[n].path == q {
        assert LastAt(entries, q) == Some(entries[n].val);
        assert entries[n] == Entry(q, entries[n].val);
      } else {
        assert LastAt(entries, q) == LastAt(init, q);
        if exists i :: 0 <= i < |entries| && entries[i].path == q {
          var i :| 0 <= i < |entries| && entries[i].path == q;
          assert init[i] == entries[i];
        }
        if LastAt(init, q).Some? {
          var i :| 0 <= i < n && init[i] == Entry(q, LastAt(init, q).value)
                   && forall j :: i < j < n ==> init[j].path != q;
          assert entries[i] == init[i];
          forall j | i < j < |entries| ensures entries[j].path != q {
            if j < n {
              assert entries[j] == init[j];
            }
          }
        }
      }
    }
  }

  /** Looking a path up in the placed entries finds the last entry placed there. */
  lemma {:induction false} PlaceLookup(entries: seq<Entry>, q: seq<string>)
    requires forall i :: 0 <= i < |entries| ==> |entries[i].path| == |q|
    requires |q| >= 1
    ensures LookupPath(Place(entries), q) == LastAt(entries, q)
  {
    if entries == [] {
      LookupPathEmpty(q);
    } else {
      var n := |entries| - 1;
      PlaceLookup(entries[..n], q);
      PutPathGet(Place(entries[..n]), entries[n].path, entries[n].val, q);
    }
  }

  lemma {:induction false} PutPathDistinct(r: seq<Prop>, p: seq<string>, x: Value)
    requires |p| >= 1 && DistinctKeys(r)
    ensures DistinctKeys(PutPath(r, p, x))
  {
    SetPropDistinct(r, p[0], if |p| == 1 then x else Obj(PutPath(Inner(GetProp(r, p[0])), p[1..], x)));
  }

  lemma {:induction false} PlaceDistinct(entries: seq<Entry>)
    requires forall i :: 0 <= i < |entries| ==> |entries[i].path| >= 1
    ensures DistinctKeys(Place(entries))
  {
    if entries != [] {
      var n := |entries| - 1;
      PlaceDistinct(entries[..n]);
      PutPathDistinct(Place(entries[..n]), entries[n].path, entries[n].val);
    }
  }

  // ---------------------------------------------------------------------
  // getDomainResources
  // ---------------------------------------------------------------------

  /** The identifiers of a domain's items and the items keyed by identifier, each wrapped under `'.'`. */
  function Gather(items: seq<Value>): (r: Result<(seq<Value>, seq<Entry>)>)
    ensures r.Ok? ==> forall i :: 0 <= i < |r.value.1| ==> |r.value.1[i].path| == 1
  {
    if items == [] then Ok(([], []))
    else
      var last := items[|items| - 1];
      match Gather(items[..|items| - 1])
      case Err(e) => Err(e)
      case Ok((children, data)) =>
        if !Defined(last) then Err(TypeError)
        else
          var id := Field(last, "identifier");
          Ok((children + [id], data + [Entry([ToStr(id)], Obj([Prop(".", last)]))]))
  }

  /** Every item is read: the children are the identifiers in response order. */
  lemma {:induction false} GatherSpec(items: seq<Value>)
    ensures Gather(items).Ok? <==> AllDefined(items)
    ensures Gather(items).Ok? ==>
      var (children, data) := Gather(items).value;
      |children| == |items| == |data|
      && forall i :: 0 <= i < |items| ==>
           children[i] == Field(items[i], "identifier")
           && data[i] == Entry([ToStr(children[i])], Obj([Prop(".", items[i])]))
  {
    if items != [] {
      var n := |items| - 1;
      GatherSpec(items[..n]);
      assert AllDefined(items) <==> AllDefined(items[..n]) && Defined(items[n]) by {
        if AllDefined(items[..n]) && Defined(items[n]) {
          forall i | 0 <= i < |items| ensures Defined(items[i]) {
            if i < n {
              assert items[i] == items[..n][i];
            }
          }
        }
      }
    }
  }

  /** The wrapped items of one domain, keyed by identifier with the keys sorted. */
  function Resources(data: seq<Entry>): Value
    requires forall i :: 0 <= i < |data| ==> |data[i].path| >= 1
  {
    Utils.SortObject(Obj(Place(data))).value
  }

  /** One domain's reply: its items when it is an array, nothing otherwise. */
  function Grouped(reply: Value): (r: Result<(seq<Value>, seq<Entry>)>)
    ensures r.Ok? ==> forall i :: 0 <= i < |r.value.1| ==> |r.value.1[i].path| == 1
  {
    if reply.Arr? then Gather(reply.elems) else Ok(([], []))
  }

  /** The loop over the replies: `children` lists and sorted resources, keyed by domain. */
  function GroupDomains(domains: seq<Value>, replies: seq<Value>): Result<(seq<Prop>, seq<Prop>)>
    requires |domains| == |replies|
  {
    if domains == [] then Ok(([], []))
    else
      var n := |domains| - 1;
      match GroupDomains(domains[..n], replies[..n])
      case Err(e) => Err(e)
      case Ok((doms, res)) =>
        match Grouped(replies[n])
        case Err(e) => Err(e)
        case Ok((children, data)) =>
          var key := ToStr(domains[n]);
          Ok((SetProp(doms, key, Obj([Prop("children", Arr(children))])), SetProp(res, key, Resources(data))))
  }

  /** `Promise.all(domains.map(request))`: every domain's reply in order, or a rejection. */
  function Fetch(domains: seq<Value>, request: Value -> Result<Value>): (r: Result<seq<Value>>)
    ensures r.Ok? ==> |r.value| == |domains| && forall i :: 0 <= i < |domains| ==> request(domains[i]) == Ok(r.value[i])
    ensures (forall i :: 0 <= i < |domains| ==> request(domains[i]).Ok?) ==> r.Ok?
  {
    if domains == [] then Ok([])
    else match request(domains[0])
      case Err(e) => Err(e)
      case Ok(reply) =>
        match Fetch(domains[1..], request)
        case Err(e) => Err(e)
        case Ok(rest) => Ok([reply] + rest)
  }

  /**
   * `getDomainResources(domains)`: one request per domain; a rejected
   * request, or no domain at all, is the "Empty response" error.
   */
  function GetDomainResources(domains: seq<Value>, replies: Result<seq<Value>>): (r: Result<(Value, Value)>)
    requires replies.Ok? ==> |replies.value| == |domains|
    ensures replies.Err? || domains == [] ==> r == Err(Error(EMPTY_RESPONSE))
  {
    if replies.Err? || domains == [] then Err(Error(EMPTY_RESPONSE))
    else match GroupDomains(domains, replies.value)
      case Err(e) => Err(e)
      case Ok((doms, res)) => Ok((Obj(doms), Obj(res)))
  }

  /**
   * For a domain whose name no other domain shares, its entry in the
   * domain list holds the identifiers of its reply in order; a reply that
   * is not an array gives no children.
   */
  lemma {:induction false} GroupDomainsChildren(domains: seq<Value>, replies: seq<Value>, i: nat)
    requires |domains| == |replies| && i < |domains|
    requires forall j :: 0 <= j < |domains| && j != i ==> ToStr(domains[j]) != ToStr(domains[i])
    requires GroupDomains(domains, replies).Ok?
    ensures Grouped(replies[i]).Ok?
    ensures Lookup(GroupDomains(domains, replies).value.0, ToStr(domains[i]))
         == Some(Obj([Prop("children", Arr(Grouped(replies[i]).value.0))]))
  {
    var n := |domains| - 1;
    GroupDomainsLast(domains, replies);
    var (doms', res') := GroupDomains(domains[..n], replies[..n]).value;
    var (children, data) := Grouped(replies[n]).value;
    var key := ToStr(domains[n]);
    var k := ToStr(domains[i]);
    if i < n {
      assert domains[..n][i] == domains[i] && replies[..n][i] == replies[i];
      assert key != k;
      forall j | 0 <= j < n && j != i ensures ToStr(domains[..n][j]) != ToStr(domains[..n][i]) {
        assert domains[..n][j] == domains[j];
      }
      GroupDomainsChildren(domains[..n], replies[..n], i);
    }
    SetPropGet(doms', key, Obj([Prop("children", Arr(children))]), k);
  }

  /**
   * For a domain whose name no other domain shares, its entry in the
   * resources holds the items of its reply keyed by identifier.
   */
  lemma {:induction false} GroupDomainsResources(domains: seq<Value>, replies: seq<Value>, i: nat)
    requires |domains| == |replies| && i < |domains|
    requires forall j :: 0 <= j < |domains| && j != i ==> ToStr(domains[j]) != ToStr(domains[i])
    requires GroupDomains(domains, replies).Ok?
    ensures Grouped(replies[i]).Ok?
    ensures Lookup(GroupDomains(domains, replies).value.1, ToStr(domains[i]))
         == Some(Resources(Grouped(replies[i]).value.1))
  {
    var n := |domains| - 1;
    var k := ToStr(domains[i]);
    ResourcesLast(domains, replies, k);
    if i < n {
      var ds, rs := domains[..n], replies[..n];
      assert ds[i] == domains[i] && rs[i] == replies[i];
      assert ToStr(domains[n]) != k;
      forall j | 0 <= j < n && j != i ensures ToStr(ds[j]) != ToStr(ds[i]) {
        assert ds[j] == domains[j];
      }
      GroupDomainsResources(ds, rs, i);
    }
  }

  /** Looking a name up in the resources: the last domain's when it is that name, the others' otherwise. */
  lemma ResourcesLast(domains: seq<Value>, replies: seq<Value>, k: string)
    requires |domains| == |replies| > 0 && GroupDomains(domains, replies).Ok?
    ensures var n := |domains| - 1;
      && GroupDomains(domains[..n], replies[..n]).Ok? && Grouped(replies[n]).Ok?
      && Lookup(GroupDomains(domains, replies).value.1, k)
         == if k == ToStr(domains[n]) then Some(Resources(Grouped(replies[n]).value.1))
            else Lookup(GroupDomains(domains[..n], replies[..n]).value.1, k)
  {
    var n := |domains| - 1;
    GroupDomainsLast(domains, replies);
    SetPropGet(GroupDomains(domains[..n], replies[..n]).value.1, ToStr(domains[n]), Resources(Grouped(replies[n]).value.1), k);
  }

  /** The last domain's reply is grouped, and its entries are set on what the others built. */
  lemma GroupDomainsLast(domains: seq<Value>, replies: seq<Value>)
    requires |domains| == |replies| > 0 && GroupDomains(domains, replies).Ok?
    ensures var n := |domains| - 1;
      && GroupDomains(domains[..n], replies[..n]).Ok? && Grouped(replies[n]).Ok?
      && var (doms, res) := GroupDomains(domains[..n], replies[..n]).value;
         var (children, data) := Grouped(replies[n]).value;
         GroupDomains(domains, replies).value
         == (SetProp(doms, ToStr(domains[n]), Obj([Prop("children", Arr(children))])),
             SetProp(res, ToStr(domains[n]), Resources(data)))
  {
  }

  /** The resources of a domain: sorted keys, each identifier's item under `'.'`. */
  lemma ResourcesSpec(items: seq<Value>, id: string)
    requires Gather(items).Ok?
    ensures var res := Resources(Gather(items).value.1);
      res.Obj? && Utils.StrictlyAscending(Keys(res.props))
      && Lookup(res.props, id) == LastAt(Gather(items).value.1, [id])
  {
    var data := Gather(items).value.1;
    PlaceDistinct(data);
    Utils.SortObjectCorrect(Place(data));
    PlaceLookup(data, [id]);
  }

  // ---------------------------------------------------------------------
  // getDeviceChannels
  // ---------------------------------------------------------------------

  /** The third `/`-segment of each link (`/room/1230` gives `1230`). */
  function ThirdSegments(links: seq<Value>): (r: Result<seq<Value>>)
    ensures r.Err? ==> r == Err(TypeError)
  {
    if links == [] then Ok([])
    else if !links[0].Str? then Err(TypeError)
    else match ThirdSegments(links[1..])
      case Err(e) => Err(e)
      case Ok(rest) => Ok([PartAt(Split(links[0].s, '/'), 2)] + rest)
  }

  /** `channel.children`, set to the channel's parameter links only when it has none. */
  function WithChildren(channel: seq<Prop>): Result<seq<Prop>> {
    if Truthy(GetProp(channel, "children")) then Ok(channel)
    else match LinksOf(Obj(channel), Str("parameter"), AnyHref())
      case Err(e) => Err(e)
      case Ok(params) => Ok(SetProp(channel, "children", Arr(params)))
  }

  /** `c[key]`, rebuilt from the ids at the end of the links with relation `rel`. */
  function WithLinkIds(c: seq<Prop>, rel: string, key: string): Result<seq<Prop>> {
    match LinksOf(Obj(c), Str(rel), AnyHref())
    case Err(e) => Err(e)
    case Ok(links) =>
      match ThirdSegments(links)
      case Err(e) => Err(e)
      case Ok(ids) => Ok(SetProp(c, key, Arr(ids)))
  }

  /**
   * A channel as `getDeviceChannels` rewrites it: `children` set to its
   * parameter links only when it has none, `rooms` and `functions` always
   * recomputed from its room and function links.
   */
  function Reshape(channel: seq<Prop>): Result<seq<Prop>> {
    match WithChildren(channel)
    case Err(e) => Err(e)
    case Ok(c1) =>
      match WithLinkIds(c1, "room", "rooms")
      case Err(e) => Err(e)
      case Ok(c2) => WithLinkIds(c2, "function", "functions")
  }

  /** `~path` split at `/`: `/device/<device>/<channel>...` gives the segments after the leading one. */
  function PathParts(item: seq<Prop>): seq<string>
    requires GetProp(item, "~path").Str?
  {
    Split(GetProp(item, "~path").s, '/')
  }

  /** Where one channel is placed: `domain / device / identifier`, wrapped under `'.'`. */
  function ChannelEntry(channel: Value): Result<Entry> {
    if !Defined(channel) then Err(TypeError)
    else if !channel.Obj? || !GetProp(channel.props, "~path").Str? then Err(TypeError)
    else
      var parts := PathParts(channel.props);
      match Reshape(channel.props)
      case Err(e) => Err(e)
      case Ok(c) =>
        Ok(Entry([ToStr(PartAt(parts, 1)), ToStr(PartAt(parts, 2)), ToStr(GetProp(c, "identifier"))],
                 Obj([Prop(".", Obj(c))])))
  }

  function ChannelEntries(channels: seq<Value>): (r: Result<seq<Entry>>)
    ensures r.Ok? ==> |r.value| == |channels| && forall i :: 0 <= i < |r.value| ==> |r.value[i].path| == 3
  {
    if channels == [] then Ok([])
    else
      match ChannelEntries(channels[..|channels| - 1])
      case Err(e) => Err(e)
      case Ok(es) =>
        match ChannelEntry(channels[|channels| - 1])
        case Err(e) => Err(e)
        case Ok(e) => Ok(es + [e])
  }

  /** `deviceChannels.length > 0`, for the lengths a reply can have. */
  predicate NonEmpty(len: Value) {
    len.Num? && len.n > 0
  }

  /** What a list request yields for the reshaping: the reply, or `[]` when it was rejected. */
  function ListReply(reply: Result<Value>): Value {
    if reply.Ok? then reply.value else Arr([])
  }

  /** `getDeviceChannels`: the channels grouped by domain and device, domains sorted. */
  function DeviceChannelsOf(reply: Result<Value>): (r: Result<Value>)
    ensures reply.Err? || reply == Ok(Arr([])) ==> r == Err(Error(EMPTY_RESPONSE))
  {
    var channels := ListReply(reply);
    match Get(channels, "length")
    case Err(e) => Err(e)
    case Ok(len) =>
      if !NonEmpty(len) then Err(Error(EMPTY_RESPONSE))
      else match Iterate(channels)
        case Err(e) => Err(e)
        case Ok(cs) =>
          match ChannelEntries(cs)
          case Err(e) => Err(e)
          case Ok(es) => Utils.SortObject(Obj(Place(es)))
  }

  method ThirdSegmentsOf(links: seq<Value>) returns (r: Result<seq<Value>>)
    ensures r == ThirdSegments(links)
  {
    var ids := [];
    var i := 0;
    while i < |links|
      invariant 0 <= i <= |links|
      invariant ThirdSegments(links).Ok? <==> ThirdSegments(links[i..]).Ok?
      invariant ThirdSegments(links).Ok? ==> ThirdSegments(links).value == ids + ThirdSegments(links[i..]).value
    {
      assert links[i..][1..] == links[i + 1..];
      if !links[i].Str? {
        return Err(TypeError);
      }
      ids := ids + [PartAt(Split(links[i].s, '/'), 2)];
      i := i + 1;
    }
    assert links[i..] == [] && ThirdSegments(links[i..]) == Ok([]) && ids + [] == ids;
    return Ok(ids);
  }

  method ReshapeChannel(channel: seq<Prop>) returns (r: Result<seq<Prop>>)
    ensures r == Reshape(channel)
  {
    var c := channel;
    if !Truthy(GetProp(c, "children")) {
      var params := GetLinks(Obj(c), Str("parameter"), AnyHref());
      if params.Err? {
        return Err(params.error);
      }
      c := SetProp(c, "children", Arr(params.value));
    }
    var roomLinks := GetLinks(Obj(c), Str("room"), AnyHref());
    if roomLinks.Err? {
      return Err(roomLinks.error);
    }
    var rooms := ThirdSegmentsOf(roomLinks.value);
    if rooms.Err? {
      return Err(rooms.error);
    }
    c := SetProp(c, "rooms", Arr(rooms.value));
    var functionLinks := GetLinks(Obj(c), Str("function"), AnyHref());
    if functionLinks.Err? {
      return Err(functionLinks.error);
    }
    var functions := ThirdSegmentsOf(functionLinks.value);
    if functions.Err? {
      return Err(functions.error);
    }
    c := SetProp(c, "functions", Arr(functions.value));
    return Ok(c);
  }

  method ChannelEntryOf(channel: Value) returns (r: Result<Entry>)
    ensures r == ChannelEntry(channel)
  {
    if !Defined(channel) || !channel.Obj? || !GetProp(channel.props, "~path").Str? {
      return Err(TypeError);
    }
    var parts := PathParts(channel.props);
    var c := ReshapeChannel(channel.props);
    if c.Err? {
      return Err(c.error);
    }
    return Ok(Entry([ToStr(PartAt(parts, 1)), ToStr(PartAt(parts, 2)), ToStr(GetProp(c.value, "identifier"))],
                    Obj([Prop(".", Obj(c.value))])));
  }

  method GetDeviceChannels(reply: Result<Value>) returns (r: Result<Value>)
    ensures r == DeviceChannelsOf(reply)
  {
    var channels := ListReply(reply);
    var len := Get(channels, "length");
    if len.Err? {
      return Err(len.error);
    }
    if !NonEmpty(len.value) {
      return Err(Error(EMPTY_RESPONSE));
    }
    var it := Iterate(channels);
    if it.Err? {
      return Err(it.error);
    }
    var placed := CollectChannels(it.value);
    if placed.Err? {
      return Err(placed.error);
    }
    return Utils.SortObject(Obj(placed.value));
  }

  /** The loop of `getDeviceChannels` over the channels: each is placed at its path, until one fails. */
  method CollectChannels(cs: seq<Value>) returns (r: Result<seq<Prop>>)
    ensures r == match ChannelEntries(cs) case Err(e) => Err(e) case Ok(es) => Ok(Place(es))
  {
    var result := [];
    var placed := [];
    var i := 0;
    while i < |cs|
      invariant 0 <= i <= |cs|
      invariant ChannelEntries(cs[..i]) == Ok(placed)
      invariant result == Place(placed)
    {
      var e := ChannelEntryOf(cs[i]);
      ChannelStep(cs, i, placed);
      if e.Err? {
        return Err(e.error);
      }
      PlaceSnoc(placed, e.value);
      result := PutPath(result, e.value.path, e.value.val);
      placed := placed + [e.value];
      i := i + 1;
    }
    assert cs[..i] == cs;
    return Ok(result);
  }

  /** One step of the loop over the channels: the next one is placed, or its error is the whole list's. */
  lemma ChannelStep(cs: seq<Value>, i: nat, placed: seq<Entry>)
    requires i < |cs| && ChannelEntries(cs[..i]) == Ok(placed)
    ensures ChannelEntry(cs[i]).Ok? ==> ChannelEntries(cs[..i + 1]) == Ok(placed + [ChannelEntry(cs[i]).value])
    ensures ChannelEntry(cs[i]).Err? ==> ChannelEntries(cs) == Err(ChannelEntry(cs[i]).error)
  {
    var pre := cs[..i + 1];
    assert pre[..i] == cs[..i] && pre[i] == cs[i];
    var e := ChannelEntry(cs[i]);
    if e.Err? {
      assert ChannelEntries(pre) == Err(e.error);
      ChannelEntriesPrefixErr(cs, i + 1);
    } else {
      assert ChannelEntries(pre) == Ok(placed + [e.value]);
    }
  }

  /** Placing one more entry puts it at its path in what the earlier ones built. */
  lemma PlaceSnoc(placed: seq<Entry>, e: Entry)
    requires forall i :: 0 <= i < |placed| ==> |placed[i].path| >= 1
    requires |e.path| >= 1
    ensures Place(placed + [e]) == PutPath(Place(placed), e.path, e.val)
  {
    assert (placed + [e])[..|placed|] == placed;
  }

  /** Once a prefix of the channels fails, the whole list fails with the same error. */
  lemma {:induction false} ChannelEntriesPrefixErr(cs: seq<Value>, i: nat)
    requires 0 < i <= |cs| && ChannelEntries(cs[..i]).Err?
    ensures ChannelEntries(cs) == ChannelEntries(cs[..i])
    decreases |cs| - i
  {
    if i < |cs| {
      assert cs[..i + 1][..i] == cs[..i];
      ChannelEntriesPrefixErr(cs, i + 1);
    } else {
      assert cs[..i] == cs;
    }
  }

  /**
   * In the result of `getDeviceChannels`, `domain / device / identifier`
   * holds the last channel placed there, wrapped under `'.'`; the domains
   * are sorted.
   */
  lemma DeviceChannelsPlaced(reply: Result<Value>, q: seq<string>)
    requires |q| == 3
    requires DeviceChannelsOf(reply).Ok?
    ensures var r := DeviceChannelsOf(reply).value;
      var es := ChannelEntries(Iterate(ListReply(reply)).value).value;
      r.Obj? && Utils.StrictlyAscending(Keys(r.props)) && LookupPath(r.props, q) == LastAt(es, q)
  {
    var es := ChannelEntries(Iterate(ListReply(reply)).value).value;
    PlaceDistinct(es);
    Utils.SortObjectCorrect(Place(es));
    var r := DeviceChannelsOf(reply).value;
    SameLookupsSamePath(Place(es), r.props, q);
    PlaceLookup(es, q);
  }

  /** Two objects with the same top-level lookups agree on every path. */
  lemma SameLookupsSamePath(a: seq<Prop>, b: seq<Prop>, q: seq<string>)
    requires |q| >= 1
    requires forall k :: Lookup(a, k) == Lookup(b, k)
    ensures LookupPath(a, q) == LookupPath(b, q)
  {
    assert Lookup(a, q[0]) == Lookup(b, q[0]);
  }

  /** The channel stored by `getDeviceChannels`: what its entry holds. */
  lemma ChannelEntryShape(channel: Value)
    requires ChannelEntry(channel).Ok?
    ensures channel.Obj?
    ensures var c := Reshape(channel.props).value;
      var parts := PathParts(channel.props);
      ChannelEntry(channel)
      == Ok(Entry([ToStr(PartAt(parts, 1)), ToStr(PartAt(parts, 2)), ToStr(GetProp(c, "identifier"))],
                  Obj([Prop(".", Obj(c))])))
  {
  }

  lemma WithChildrenSpec(channel: seq<Prop>, k: string)
    requires WithChildren(channel).Ok?
    ensures var c := WithChildren(channel).value;
      GetProp(c, k)
      == if k == "children" && !Truthy(GetProp(channel, "children"))
         then Arr(LinksOf(Obj(channel), Str("parameter"), AnyHref()).value)
         else GetProp(channel, k)
  {
    if !Truthy(GetProp(channel, "children")) {
      SetPropGet(channel, "children", Arr(LinksOf(Obj(channel), Str("parameter"), AnyHref()).value), k);
    }
  }

  lemma WithLinkIdsSpec(c: seq<Prop>, rel: string, key: string, k: string)
    requires WithLinkIds(c, rel, key).Ok?
    ensures GetProp(WithLinkIds(c, rel, key).value, k)
         == if k == key then Arr(ThirdSegments(LinksOf(Obj(c), Str(rel), AnyHref()).value).value) else GetProp(c, k)
  {
    SetPropGet(c, key, Arr(ThirdSegments(LinksOf(Obj(c), Str(rel), AnyHref()).value).value), k);
  }

  /** `children` is defaulted only when missing; `rooms` and `functions` are always recomputed from the links. */
  lemma ReshapeSpec(channel: seq<Prop>, k: string)
    requires Reshape(channel).Ok?
    ensures var c := Reshape(channel).value;
      var c1 := WithChildren(channel).value;
      var c2 := WithLinkIds(c1, "room", "rooms").value;
      GetProp(c, k)
      == if k == "functions" then Arr(ThirdSegments(LinksOf(Obj(c2), Str("function"), AnyHref()).value).value)
         else if k == "rooms" then Arr(ThirdSegments(LinksOf(Obj(c1), Str("room"), AnyHref()).value).value)
         else if k == "children" && !Truthy(GetProp(channel, "children"))
         then Arr(LinksOf(Obj(channel), Str("parameter"), AnyHref()).value)
         else GetProp(channel, k)
  {
    var c1 := WithChildren(channel).value;
    var c2 := WithLinkIds(c1, "room", "rooms").value;
    WithLinkIdsSpec(c2, "function", "functions", k);
    WithLinkIdsSpec(c1, "room", "rooms", k);
    WithChildrenSpec(channel, k);
  }

  /** Room and function ids are the third `/`-segment of each link, in link order. */
  lemma {:induction false} ThirdSegmentsSpec(links: seq<Value>)
    requires ThirdSegments(links).Ok?
    ensures |ThirdSegments(links).value| == |links|
    ensures forall i :: 0 <= i < |links| ==> links[i].Str? && ThirdSegments(links).value[i] == PartAt(Split(links[i].s, '/'), 2)
  {
    if links != [] {
      ThirdSegmentsSpec(links[1..]);
      forall i | 1 <= i < |links| ensures links[i].Str? && ThirdSegments(links).value[i] == PartAt(Split(links[i].s, '/'), 2) {
        assert links[1..][i - 1] == links[i];
      }
    }
  }

  // ---------------------------------------------------------------------
  // getChannelDatapoints
  // ---------------------------------------------------------------------

  /** Where one datapoint is placed: `domain / device / channel / identifier`, wrapped under `'.'`. */
  function DatapointEntry(datapoint: Value): Result<Entry> {
    if !Defined(datapoint) then Err(TypeError)
    else if !datapoint.Obj? || !GetProp(datapoint.props, "~path").Str? then Err(TypeError)
    else
      var parts := PathParts(datapoint.props);
      Ok(Entry([ToStr(PartAt(parts, 1)), ToStr(PartAt(parts, 2)), ToStr(PartAt(parts, 3)),
                ToStr(GetProp(datapoint.props, "identifier"))],
               Obj([Prop(".", datapoint)])))
  }

  function DatapointEntries(datapoints: seq<Value>): (r: Result<seq<Entry>>)
    ensures r.Ok? ==> |r.value| == |datapoints| && forall i :: 0 <= i < |r.value| ==> |r.value[i].path| == 4
  {
    if datapoints == [] then Ok([])
    else
      match DatapointEntries(datapoints[..|datapoints| - 1])
      case Err(e) => Err(e)
      case Ok(es) =>
        match DatapointEntry(datapoints[|datapoints| - 1])
        case Err(e) => Err(e)
        case Ok(e) => Ok(es + [e])
  }

  /** `getChannelDatapoints`: the datapoints nested by domain, device and channel, domains sorted. */
  function ChannelDatapointsOf(reply: Result<Value>): (r: Result<Value>)
    ensures reply.Err? || reply == Ok(Arr([])) ==> r == Err(Error(EMPTY_RESPONSE))
  {
    var datapoints := ListReply(reply);
    match Get(datapoints, "length")
    case Err(e) => Err(e)
    case Ok(len) =>
      if !NonEmpty(len) then Err(Error(EMPTY_RESPONSE))
      else match Iterate(datapoints)
        case Err(e) => Err(e)
        case Ok(ds) =>
          match DatapointEntries(ds)
          case Err(e) => Err(e)
          case Ok(es) => Utils.SortObject(Obj(Place(es)))
  }

  method GetChannelDatapoints(reply: Result<Value>) returns (r: Result<Value>)
    ensures r == ChannelDatapointsOf(reply)
  {
    var datapoints := ListReply(reply);
    var len := Get(datapoints, "length");
    if len.Err? {
      return Err(len.error);
    }
    if !NonEmpty(len.value) {
      return Err(Error(EMPTY_RESPONSE));
    }
    var it := Iterate(datapoints);
    if it.Err? {
      return Err(it.error);
    }
    var ds := it.value;
    var result := [];
    var placed := [];
    var i := 0;
    while i < |ds|
      invariant 0 <= i <= |ds|
      invariant DatapointEntries(ds[..i]) == Ok(placed)
      invariant result == Place(placed)
    {
      var e := DatapointEntry(ds[i]);
      DatapointStep(ds, i, placed);
      if e.Err? {
        return Err(e.error);
      }
      PlaceSnoc(placed, e.value);
      result := PutPath(result, e.value.path, e.value.val);
      placed := placed + [e.value];
      i := i + 1;
    }
    assert ds[..i] == ds;
    return Utils.SortObject(Obj(result));
  }

  /** One step of the loop over the datapoints: the next one is placed, or its error is the whole list's. */
  lemma DatapointStep(ds: seq<Value>, i: nat, placed: seq<Entry>)
    requires i < |ds| && DatapointEntries(ds[..i]) == Ok(placed)
    ensures DatapointEntry(ds[i]).Ok? ==> DatapointEntries(ds[..i + 1]) == Ok(placed + [DatapointEntry(ds[i]).value])
    ensures DatapointEntry(ds[i]).Err? ==> DatapointEntries(ds) == Err(DatapointEntry(ds[i]).error)
  {
    var pre := ds[..i + 1];
    assert pre[..i] == ds[..i] && pre[i] == ds[i];
    var e := DatapointEntry(ds[i]);
    if e.Err? {
      assert DatapointEntries(pre) == Err(e.error);
      DatapointEntriesPrefixErr(ds, i + 1);
    } else {
      assert DatapointEntries(pre) == Ok(placed + [e.value]);
    }
  }

  lemma {:induction false} DatapointEntriesPrefixErr(ds: seq<Value>, i: nat)
    requires 0 < i <= |ds| && DatapointEntries(ds[..i]).Err?
    ensures DatapointEntries(ds) == DatapointEntries(ds[..i])
    decreases |ds| - i
  {
    if i < |ds| {
      assert ds[..i + 1][..i] == ds[..i];
      DatapointEntriesPrefixErr(ds, i + 1);
    } else {
      assert ds[..i] == ds;
    }
  }

  /** In the result of `getChannelDatapoints`, each path holds the last datapoint placed there. */
  lemma ChannelDatapointsPlaced(reply: Result<Value>, q: seq<string>)
    requires |q| == 4
    requires ChannelDatapointsOf(reply).Ok?
    ensures var r := ChannelDatapointsOf(reply).value;
      var es := DatapointEntries(Iterate(ListReply(reply)).value).value;
      r.Obj? && Utils.StrictlyAscending(Keys(r.props)) && LookupPath(r.props, q) == LastAt(es, q)
  {
    var es := DatapointEntries(Iterate(ListReply(reply)).value).value;
    PlaceDistinct(es);
    Utils.SortObjectCorrect(Place(es));
    var r := ChannelDatapointsOf(reply).value;
    SameLookupsSamePath(Place(es), r.props, q);
    PlaceLookup(es, q);
  }
}
