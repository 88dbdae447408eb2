# A verified model of node-red-contrib-ccu-jack

node-red-contrib-ccu-jack connects Node-RED flows to a HomeMatic CCU through
the CCU-Jack add-on. CCU-Jack offers two interfaces. The first is a
VEAP/HTTP interface that describes the CCU's object tree: domains, devices,
channels, datapoints, programs and system variables. The second is an MQTT
interface that carries the live values.

The **configuration node** (`jack-config`) does the main work:

- it fetches the object tree in five stages into its *context store*;
- it keeps the latest MQTT status payload of every topic, with `cache` and
  `change` flags;
- it enriches each incoming status message with the metadata of its
  datapoint;
- it offers the result to every registered consumer, through that
  consumer's *filter*.

Three kinds of consumer node sit on top of it:

- the **event node** (`jack-event`);
- the **value node** (`jack-value`), which asks for cached values one
  message at a time;
- the **bridge node** (`jack-bridge`), which feeds MQTT messages from the
  flow into the configuration node in arrival order.

Around these sit the VEAP client (`lib/jack.js`), the network discovery of
CCUs (`lib/discover.js`), a logger and a few helpers.

The project models that code in Dafny, file by file:

| Dafny file | module | models |
|---|---|---|
| `js.dfy` | `Js` | the JavaScript semantics the code relies on: values, objects as ordered property lists, property assignment, spread, `split`, `toLowerCase`, `parseInt` |
| `utils.dfy` | `Utils` | `lib/utils.js`: `hasProperty`, `isJson`, `isValidTopic`, `sortObject` |
| `constants.dfy` | `Constants` | `lib/constants.js` |
| `logger.dfy` | `Logger` | `lib/logger.js`, as a class whose console is the list of lines written |
| `jack_api.dfy` | `JackApi` | `lib/jack.js`: `getLinks`, `getConfig`, `getDomains`, `getDomainResources`, `getDeviceChannels`, `getChannelDatapoints` |
| `config_store.dfy` | `ConfigStore` | the context store: the five stages of `start` and `savePayload` |
| `config_filter.dfy` | `ConfigFilter` | `applyFilter` |
| `config_reply.dfy` | `ConfigReply` | `getPayloadFromMessage`, `topicReplace`, `prepareReply` |
| `config_events.dfy` | `ConfigEvents` | the consumer registry, the status broadcast, the fan-out of `onMessage` and the answer of `onInput`, on values |
| `jack_config.dfy` | `JackConfig` | the configuration node as a class whose methods change its fields as the handlers do |
| `jack_event.dfy`, `jack_value.dfy`, `jack_bridge.dfy` | `JackEvent`, `JackValue`, `JackBridge` | the three consumer nodes, as classes driving a `JackConfig.ConfigNode` |
| `discover.dfy` | `Discover` | the decoding of discovery replies and the list of devices found |

## Modelling choices

- **JavaScript values.** A value is `Js.Value`: undefined, null, a boolean,
  an integer, NaN, a string, an array, a regular expression (by its source
  text) or an object. An object is a list of properties in insertion order.
  An assignment replaces a key in place or appends it, as V8 does for
  string keys.
- **Functions passed in.** Three things the code gets from its environment
  are parameters of the model:
  - `JSON.parse` is a function `string -> Option<Value>`;
  - matching a regular expression is a `Matcher`;
  - the current time is an integer `now`.
- **HTTP and sockets.** The replies of the VEAP server are given to the
  model as `Result` values. The same holds for the replies of the UDP
  discovery and the outcome of its TCP checks.
- **Event emitter.** The configuration node's `EventEmitter` is modelled by
  two fields: a count of listeners per event id, and the log of every
  `emit`. A consumer receives what is emitted on its own ids.
- **Imperative code stays imperative.** Loops in the source are methods
  with loops. Each method is proved equal to a function over values, and
  the properties are proved about that function. Objects whose fields the
  handlers update are classes. These are the configuration node, the three
  consumer nodes, the logger and a discovery run.

## Where the model follows the code rather than the documentation

- `savePayload` marks a payload for a topic never seen before with
  `cache = true, change = false`. It does not look at the packet's `retain`
  flag.
- `getConfig` returns `[root, {vendor, config}]`. The test file also
  mocks a `refresh` request, which this version of `lib/jack.js` does not
  make.
- `prepareReply` returns `undefined` in two cases only: a wrong number of
  topic parts, or a store level that `hasProperty` reports missing. For any
  other domain it returns `{domain}`. An exception caught inside it keeps
  the fields set so far.
- The event node calls `register` and `subscribe` with its callback in the
  event-type position. Because of that, `subscribe` refuses, and the node is
  never sent a status or an event (`JackEvent.NothingReachesEventNode`).
- The bridge keeps its subscriptions in a `Set`. The disconnect and close
  branches test `rootDomains.length`, which a `Set` does not have. So those
  branches never send anything.

## Model

| member | source | states |
|---|---|---|
| Js.StrictEqOnStrings | nodes/jack-config.js:648-669 | `===` against a string holds exactly for that string |
| Js.Keys | nodes/jack-config.js:643 | `Object.keys` lists the property names in property order |
| Js.Lookup | nodes/jack-config.js:768 | reading a property finds a value exactly when the object has the key |
| Js.SetProp | nodes/jack-config.js:473-487 | assigning keeps the place of an existing key and appends a new one |
| Js.SetPropGet | nodes/jack-config.js:473-487 | after an assignment the key holds the new value and every other key is unchanged |
| Js.SetPropKeys | nodes/jack-config.js:473-487 | an assignment adds exactly its key |
| Js.SetPropKeepsKeys | nodes/jack-config.js:675 | assigning an existing key keeps the key order |
| Js.SetPropDistinct | nodes/jack-config.js:473-487 | an assignment never makes a key appear twice |
| Js.SetPropSame | nodes/jack-config.js:675 | assigning a key the value it already has changes nothing |
| Js.SetPropTwice | nodes/jack-config.js:473-487 | a second assignment to the same key overrides the first |
| Js.SetAllGet | nodes/jack-config.js:751 | after a spread a key holds the spread source's value, if it has the key, and the target's otherwise |
| Js.MergeGet | nodes/jack-config.js:165-168 | in `{...a, ...b}` a key holds `b`'s value when `b` has it, and `a`'s otherwise |
| Js.MergeDistinct | nodes/jack-config.js:165-168 | a merged object has distinct keys |
| Js.MergeIdempotent | nodes/jack-config.js:191-194 | merging the same data a second time changes nothing |
| Js.NatToStringValue | nodes/jack-config.js:675 | the decimal text of a number spells that number |
| Js.ParseIntNoDigits | nodes/jack-config.js:675 | text starting with neither blank (every Unicode space separator, TAB, VT, FF, BOM or line terminator), digit nor sign parses to NaN |
| Js.ParseIntSkipsBlank | nodes/jack-config.js:675 | a leading blank of any of those kinds is skipped before the sign and the digits |
| Js.ParseIntIdeographicSpace | nodes/jack-config.js:675 | text led by an ideographic space and then a digit parses to that digit |
| Js.ParseIntNat | nodes/jack-config.js:675 | the decimal text of a natural number parses back to it |
| Js.ParseIntNegNat | nodes/jack-config.js:675 | the same for a negative number |
| Js.ParseIntRoundTrip | nodes/jack-config.js:675 | `parseInt` of an integer is that integer |
| Js.ParseIntNaN | nodes/jack-config.js:675 | objects, booleans, NaN and the empty string parse to NaN |
| Js.ParseIntPattern | nodes/jack-config.js:675 | a regular expression parses to NaN |
| Js.Lower | nodes/jack-config.js:404 | lower-casing keeps the length and maps each character |
| Js.Split | nodes/jack-config.js:724 | `split` gives at least one part, and no part holds the separator |
| Js.SplitJoin | nodes/jack-config.js:724 | joining the parts of a split with the separator gives back the string |
| Js.IndexKeys | nodes/jack-config.js:692 | the keys of an array are the decimal texts of its indices |
| Js.IndexProps | nodes/jack-config.js:692-693 | an array read as an object holds each element under its index |
| Js.Or | nodes/jack-config.js:754-758 | `a or b` is truthy exactly when one of them is, and is `a` when `a` is truthy |
| Utils.HasProperty | nodes/lib/utils.js:9-11 | on an object, the own-key test; undefined and null (and only they) throw |
| Utils.IsJson | nodes/lib/utils.js:18-25 | true only when `toString` succeeds and the parse succeeds; on a string, exactly when the parse succeeds |
| Utils.RunCorrect | nodes/lib/utils.js:32-34 | from a state describing the current segment, the automaton accepts the rest exactly when all segments are valid |
| Utils.RunCorrectSlash | nodes/lib/utils.js:32-34 | the '/' case of that equivalence: the current segment is complete |
| Utils.RunCorrectChar | nodes/lib/utils.js:32-34 | the case of any other character: it extends the current segment |
| Utils.SegmentsValidCons | nodes/lib/utils.js:33 | a '+' or wildcard-free segment in front keeps the validity of the segments after it, both ways |
| Utils.IsValidTopicBySegments | nodes/lib/utils.js:32-34 | `isValidTopic` accepts a topic if and only if each '/'-segment is '+' or free of wildcards, with a lone '#' allowed last |
| Utils.WildcardInsideSegment | nodes/lib/utils.js:33 | a '+' or '#' that is not a whole segment (or a '#' before the last) makes the topic invalid |
| Utils.TopicExamplesHash | test/lib/utils.spec.js:24-26 | the empty topic and "#" are accepted, "##" is refused |
| Utils.TopicExamplePlain | test/lib/utils.spec.js:20-22 | "/test/test" is accepted |
| Utils.TopicExampleWildcards | nodes/lib/utils.js:33 | "status/+/#" is accepted |
| Utils.TopicExamplesRefused | nodes/lib/utils.js:33 | "a/#/x" and "a+" are refused |
| Utils.StrLessIrreflexive | nodes/lib/utils.js:44 | the default sort order is irreflexive |
| Utils.StrLessTotal | nodes/lib/utils.js:44 | the default sort order is total on distinct strings |
| Utils.StrLessAsymmetric | nodes/lib/utils.js:44 | the default sort order is asymmetric |
| Utils.StrLessTransitive | nodes/lib/utils.js:44 | the default sort order is transitive |
| Utils.InsertContents | nodes/lib/utils.js:44 | inserting adds exactly the one key |
| Utils.InsertSorted | nodes/lib/utils.js:44 | inserting a new key into an ascending list keeps it ascending |
| Utils.SortStringsCorrect | nodes/lib/utils.js:43-44 | sorting distinct keys is a permutation into strictly ascending order |
| Utils.FillPick | nodes/lib/utils.js:46 | assigning fresh keys one by one appends them in order, each with the object's value |
| Utils.PickLookup | nodes/lib/utils.js:46 | the picked object has a key exactly when it is among the keys, with the object's value |
| Utils.SortObjectPicks | nodes/lib/utils.js:41-48 | `sortObject` of an object is its sorted keys, each with its value |
| Utils.SortObjectCorrect | nodes/lib/utils.js:41-48 | `sortObject` keeps the same keys in strictly ascending order with the same values |
| Utils.SortObjectExample | test/lib/utils.spec.js:28-30 | `{b, a}` sorts to `{a, b}` with the values kept |
| Utils.SortTwo | nodes/lib/utils.js:41-48 | two properties out of order are swapped with their values |
| Constants.StatusName | nodes/jack-config.js:362 | a code has a status name exactly when it is one of the seven status codes |
| Logger.NormalLevel | nodes/lib/logger.js:20 | the level kept is the given number when it lies between SILENT and ALL, and DEBUG otherwise |
| Logger.NormalTag | nodes/lib/logger.js:21 | the tag kept is the given string, or "Logger" |
| Logger.Logger.constructor | nodes/lib/logger.js:19-22 | a new logger keeps the normalised level and tag and has written nothing |
| Logger.Logger.LogAt | nodes/lib/logger.js:45-58 | a line with the level's name, the tag and the message is written exactly when the gate lets the level through |
| Logger.Logger.Fatal | nodes/lib/logger.js:64-66 | writes a `fatal` line exactly when FATAL passes the gate |
| Logger.Logger.Error | nodes/lib/logger.js:72-74 | writes an `error` line exactly when ERROR passes the gate |
| Logger.Logger.Warn | nodes/lib/logger.js:80-82 | writes a `warn` line exactly when WARN passes the gate |
| Logger.Logger.Info | nodes/lib/logger.js:88-90 | writes an `info` line exactly when INFO passes the gate |
| Logger.Logger.Debug | nodes/lib/logger.js:96-98 | writes a `debug` line exactly when DEBUG passes the gate |
| Logger.Logger.Trace | nodes/lib/logger.js:104-106 | writes a `trace` line exactly when TRACE passes the gate |
| Logger.GateExtremes | nodes/lib/logger.js:45-47 | a SILENT logger writes nothing, and one at ALL writes at every named level |
| Logger.GateMonotone | nodes/lib/logger.js:45-47 | whatever a logger writes, a logger with a higher level writes too |
| Logger.NamesInvertLevels | nodes/lib/logger.js:9-12 | every level but SILENT is printed under its own name in lower case |
| Logger.NameAt | nodes/lib/logger.js:9-12 | the same, for one level of the table |
| Logger.NamesOnlyLevels | nodes/lib/logger.js:9-12 | the printed names name levels of the table and nothing else, and SILENT has none |
| JackApi.DefaultsOfEmpty | nodes/lib/jack.js:33-41 | with no options the client uses 127.0.0.1, port 2121, no TLS, no authentication, no logging |
| JackApi.DefaultsKeepGiven | nodes/lib/jack.js:33-41 | a given (truthy) host and port are kept as given |
| JackApi.GetLinks | nodes/lib/jack.js:52-61 | the loop computes `getLinks`, with the throws of reading `rel` of undefined or null and of `match` on a non-string href |
| JackApi.CollectSelected | nodes/lib/jack.js:56-59 | when the loop completes, it has pushed exactly the selected hrefs, in link order |
| JackApi.SelectedMembers | nodes/lib/jack.js:57-58 | an href is in the result exactly when some link with the relation carries it and it matches the pattern |
| JackApi.LinksOfSelected | nodes/lib/jack.js:52-61 | `getLinks` gives the selected hrefs of `~links`, and `[]` for an item without `~links` |
| JackApi.SelectedWithoutRelation | nodes/lib/jack.js:57 | without a relation no link is selected |
| JackApi.HasLinkCons | nodes/lib/jack.js:83-89 | a link list has a fitting link exactly when its first link fits or the rest has one |
| JackApi.SomeLinkExists | nodes/lib/jack.js:83-89 | on defined links, `some` is the existential it stands for |
| JackApi.GetConfig | nodes/lib/jack.js:70-93 | a failed request falls back to an empty link list and so to the "No domains" error |
| JackApi.GetConfigChecks | nodes/lib/jack.js:83-92 | the domain, exchange-data and search capabilities are checked in that order, each with its own message; with all three the result is the root and `{vendor, config: config.v}` |
| JackApi.GetDomains | nodes/lib/jack.js:100-112 | a failed request or an empty list is the "Empty response" error; a non-empty list is returned as it came |
| JackApi.PutPathGet | nodes/lib/jack.js:194-203 | after a nested assignment, looking up the same path gives the value and any other path of that depth is unchanged |
| JackApi.LastAtSpec | nodes/lib/jack.js:179-205 | the last entry at a path exists exactly when some entry has that path, and no later entry has it |
| JackApi.PlaceLookup | nodes/lib/jack.js:179-205 | looking a path up in the placed entries finds the last entry placed there |
| JackApi.PlaceDistinct | nodes/lib/jack.js:194-203 | placing entries never makes a key appear twice |
| JackApi.GatherSpec | nodes/lib/jack.js:145-149 | a domain's items are all read exactly when none is undefined or null; the children are the identifiers in order and each item is wrapped under `.` at its identifier |
| JackApi.Fetch | nodes/lib/jack.js:125-134 | `Promise.all` gives every domain's reply in order, and succeeds when every request succeeds |
| JackApi.GetDomainResources | nodes/lib/jack.js:120-158 | a rejected request or no domain at all is the "Empty response" error |
| JackApi.GroupDomainsChildren | nodes/lib/jack.js:140-151 | a domain whose name is unique gets `{children}` with its reply's identifiers; a reply that is not an array gives none |
| JackApi.GroupDomainsResources | nodes/lib/jack.js:140-153 | a domain whose name is unique gets its reply's resources, sorted |
| JackApi.ResourcesSpec | nodes/lib/jack.js:148-152 | a domain's resources have strictly ascending keys and each identifier holds the last item with that identifier |
| JackApi.ThirdSegments | nodes/lib/jack.js:184-191 | the only failure of taking the third segments is the TypeError of a link that is not a string |
| JackApi.ThirdSegmentsSpec | nodes/lib/jack.js:184-191 | room and function ids are the third `/`-segment of each link, in link order |
| JackApi.WithChildrenSpec | nodes/lib/jack.js:182 | `children` is set to the parameter links only when the channel has none, other fields stay |
| JackApi.WithLinkIdsSpec | nodes/lib/jack.js:183-192 | the rebuilt key holds the ids of the links with that relation, other fields stay |
| JackApi.ReshapeSpec | nodes/lib/jack.js:182-192 | a reshaped channel recomputes `rooms` and `functions` from its links and defaults `children`; every other field stays |
| JackApi.ReshapeChannel | nodes/lib/jack.js:182-192 | the method computes the reshaped channel |
| JackApi.ThirdSegmentsOf | nodes/lib/jack.js:184-187 | the loop computes the third segments |
| JackApi.ChannelEntryOf | nodes/lib/jack.js:180-203 | the method computes where one channel is placed |
| JackApi.ChannelEntries | nodes/lib/jack.js:179-205 | when every channel is read, there is one entry per channel, each at a three-part path |
| JackApi.ChannelEntryShape | nodes/lib/jack.js:180-203 | a channel is placed at `domain / device / identifier`, wrapped under `.` |
| JackApi.DeviceChannelsOf | nodes/lib/jack.js:165-209 | a rejected request or an empty list is the "Empty response" error |
| JackApi.GetDeviceChannels | nodes/lib/jack.js:165-209 | the method computes `getDeviceChannels` |
| JackApi.CollectChannels | nodes/lib/jack.js:179-205 | the loop places every channel at its path, or stops with the first channel's error |
| JackApi.ChannelEntriesPrefixErr | nodes/lib/jack.js:179-205 | once a prefix of the channels throws, the whole loop throws the same error |
| JackApi.DeviceChannelsPlaced | nodes/lib/jack.js:165-209 | the result has sorted domains and at each `domain / device / identifier` the last channel placed there |
| JackApi.DatapointEntries | nodes/lib/jack.js:230-252 | when every datapoint is read, there is one entry per datapoint, each at a four-part path |
| JackApi.ChannelDatapointsOf | nodes/lib/jack.js:216-256 | a rejected request or an empty list is the "Empty response" error |
| JackApi.GetChannelDatapoints | nodes/lib/jack.js:216-256 | the loop computes `getChannelDatapoints` |
| JackApi.DatapointEntriesPrefixErr | nodes/lib/jack.js:230-252 | once a prefix of the datapoints throws, the whole loop throws the same error |
| JackApi.ChannelDatapointsPlaced | nodes/lib/jack.js:216-256 | the result has sorted domains and at each `domain / device / channel / identifier` the last datapoint placed there |
| ConfigStore.ClassifyFlags | nodes/jack-config.js:469-488 | a saved payload is flagged `cache` exactly when its topic is new and `change` exactly when it replaces a different value |
| ConfigStore.ClassifyUpdated | nodes/jack-config.js:475-481 | a changed value carries the previous record's value and timestamp as `vP` and `tsP` |
| ConfigStore.ClassifyKeeps | nodes/jack-config.js:466-492 | every other field of the payload, the value among them, is stored as it came |
| ConfigStore.SavedOnlyThatEntry | nodes/jack-config.js:467-489 | saving creates the domain map on first use and changes this topic's record only, to the classified payload |
| ConfigStore.ResentIsNoChange | nodes/jack-config.js:471-474 | a value sent twice is, the second time, neither cached nor a change |
| ConfigStore.WithConfigGet | nodes/jack-config.js:144-151 | stage 1 sets `.`, `.vendor`, `ts` and `status` and keeps every other key of the tree |
| ConfigStore.PushIdentifiersSpec | nodes/jack-config.js:157-159 | `rootDomains` is only appended to, with the identifiers in order; it stops exactly at the first undefined or null domain |
| ConfigStore.ResourcesReplace | nodes/jack-config.js:165-168 | each domain's resources replace its subtree, other keys stay |
| ConfigStore.DescribeOneSpec | nodes/jack-config.js:179-184 | one descriptor succeeds exactly when the domain's subtree is an object, which gains `.`; the rest of the tree is unchanged |
| ConfigStore.DescriptorGet | nodes/jack-config.js:180-183 | the descriptor is the domain's fields overridden by its children entry |
| ConfigStore.DescribeUntouched | nodes/jack-config.js:179-184 | keys that are no domain's identifier keep their subtree through the loop |
| ConfigStore.MergeDeviceSpec | nodes/jack-config.js:189-196 | one device succeeds exactly when the domain's subtree is an object; the device becomes its stored fields overridden by the fetched channels, nothing else changes |
| ConfigStore.MergedDeviceGet | nodes/jack-config.js:191-194 | the merged device keeps each stored field the channels do not override |
| ConfigStore.MergeDomainDevicesUntouched | nodes/jack-config.js:190-195 | the devices loop of one domain leaves every other top-level key unchanged |
| ConfigStore.MergeDevicesUntouched | nodes/jack-config.js:189-196 | domains the channel reply does not list keep their subtree through stage 4 |
| ConfigStore.MergeChannelSpec | nodes/jack-config.js:201-210 | one channel succeeds exactly when the domain and device subtrees are objects; the channel becomes its stored fields overridden by the datapoints, nothing else changes |
| ConfigStore.LaterStages | nodes/jack-config.js:161-210 | stages 3 to 5 never change the root domains |
| ConfigStore.StartKeepsRootDomains | nodes/jack-config.js:130-221 | whatever stage fails, `rootDomains` only grows |
| ConfigStore.StartNeedsHostAndPort | nodes/jack-config.js:138 | without a host nothing is requested, nothing changes, and the error is "Invalid host or port" |
| ConfigStore.StartWithoutServer | nodes/jack-config.js:142 | a rejected configuration request stops `start` with the "No domains" error before the tree is touched |
| ConfigFilter.AnyTest | nodes/jack-config.js:679-685 | the pattern loop over an array matches exactly when the pattern matches some element |
| ConfigFilter.AnyIncludes | nodes/jack-config.js:686 | `includes` holds exactly when some element is SameValueZero-equal to the filter value |
| ConfigFilter.AnyKeyOrValue | nodes/jack-config.js:690-696 | the pattern loop over an object matches exactly when the pattern matches some key or the value under it |
| ConfigFilter.AttributeMatchesCases | nodes/jack-config.js:678-706 | an array is matched element-wise or by `includes`, an object by key or value or by own key, anything else by the pattern or by `===`; the only throw is on a null field |
| ConfigFilter.MatchValue | nodes/jack-config.js:678-706 | the method computes the comparison of one attribute |
| ConfigFilter.StepIsCompare | nodes/jack-config.js:648-676 | an attribute that is no gate and no wildcard, for a new topic, is compared |
| ConfigFilter.CompareVerdict | nodes/jack-config.js:674-706 | a comparison first rewrites `channelIndex`, then throws, rejects or goes on as the match decides |
| ConfigFilter.RewriteGet | nodes/jack-config.js:674-676 | the rewrite changes only the value of `channelIndex`, to its `parseInt` value |
| ConfigFilter.StepShape | nodes/jack-config.js:645-707 | a pass leaves the filter alone or rewritten, records the gate it passes, and accepts early only for a topic already delivered once both gates were seen |
| ConfigFilter.CompareAttribute | nodes/jack-config.js:674-706 | the method computes one comparison pass |
| ConfigFilter.ApplyFilter | nodes/jack-config.js:637-711 | the method computes `applyFilter`: the outcome and the filter as the call leaves it |
| ConfigFilter.MissingFilterMatches | nodes/jack-config.js:638-642 | a missing or non-object filter matches and is left alone |
| ConfigFilter.StepKeepsCacheGate | nodes/jack-config.js:645-707 | before the `cache` key is reached, a failing cache gate stays failing and nothing accepts |
| ConfigFilter.CacheGateScan | nodes/jack-config.js:645-708 | a loop that still has the `cache` key ahead, with a failing cache gate, never accepts |
| ConfigFilter.CacheGate | nodes/jack-config.js:648-650 | a filter with a falsy `cache` never passes a cached payload |
| ConfigFilter.StepKeepsChangeGate | nodes/jack-config.js:645-707 | before the `change` key is reached, a failing change gate stays failing and nothing accepts |
| ConfigFilter.ChangeGateScan | nodes/jack-config.js:645-708 | a loop that still has the `change` key ahead, with a failing change gate, never accepts |
| ConfigFilter.ChangeGate | nodes/jack-config.js:656-658 | a truthy `change` drops an unchanged payload unless both `cache` flags are truthy |
| ConfigFilter.StepIgnoresCacheFlag | nodes/jack-config.js:645-707 | a pass over another key does not depend on the payload's `cache` when the filter has none |
| ConfigFilter.NoCacheKeyScan | nodes/jack-config.js:645-708 | a loop without a `cache` key does not depend on the payload's `cache` |
| ConfigFilter.NoCacheKeyIgnoresCacheFlag | nodes/jack-config.js:637-711 | without a `cache` key the payload's cache flag does not change the result |
| ConfigFilter.WhitelistStep | nodes/jack-config.js:648-667 | for a topic already delivered a pass runs the gates and otherwise only checks for the early exit |
| ConfigFilter.NotAgain | nodes/jack-config.js:643 | a key of `Object.keys` does not occur again later |
| ConfigFilter.WhitelistScan | nodes/jack-config.js:645-708 | for a topic already delivered the rest of the loop rejects exactly when a gate still ahead fails |
| ConfigFilter.WhitelistGate | nodes/jack-config.js:648-662 | the same, at a gate key |
| ConfigFilter.WhitelistOther | nodes/jack-config.js:664-667 | the same, at any other key |
| ConfigFilter.WhitelistedTopicOnlyGates | nodes/jack-config.js:637-711 | for a topic already delivered only the two gates decide; nothing throws and the filter is not rewritten |
| ConfigFilter.StructuralStep | nodes/jack-config.js:645-707 | for a new topic with passing gates a pass goes on exactly when its attribute's rule holds, and throws exactly when the rule fails to evaluate |
| ConfigFilter.StructuralCarry | nodes/jack-config.js:674-676 | the filter values still ahead are those of the original filter after a pass |
| ConfigFilter.RulesOkFromAll | nodes/jack-config.js:645 | the recursive conjunction of rules is the universal one |
| ConfigFilter.StructuralScan | nodes/jack-config.js:645-708 | the rest of the loop accepts exactly when every rule ahead holds |
| ConfigFilter.StructuralThrowScan | nodes/jack-config.js:645-708 | a throwing rest of the loop has a first rule that throws, with every rule before it holding |
| ConfigFilter.StructuralMatch | nodes/jack-config.js:637-711 | with passing gates and a new topic, the payload is accepted exactly when every attribute's rule holds |
| ConfigFilter.StructuralThrow | nodes/jack-config.js:637-711 | under the same conditions a throw comes from the first failing attribute, every earlier attribute having matched |
| ConfigFilter.ParseIntIdempotent | nodes/jack-config.js:675 | `parseInt` of a `parseInt` result is that result |
| ConfigFilter.ParseIntFixed | nodes/jack-config.js:675 | `parseInt` keeps NaN and integers |
| ConfigFilter.RewriteStays | nodes/jack-config.js:674-676 | rewriting again keeps a filter rewritten from the original |
| ConfigFilter.RewriteScan | nodes/jack-config.js:645-708 | the loop leaves a filter rewritten from the original |
| ConfigFilter.FilterRewrite | nodes/jack-config.js:637-711 | the only change to the filter is the `parseInt` of `channelIndex`, the same keys and other values stay, and the rewrite is idempotent |
| ConfigFilter.PatternChannelIndexNeverMatches | nodes/jack-config.js:674-675 | a pattern given for `channelIndex` becomes NaN and never matches a numeric index |
| ConfigReply.PayloadOf | nodes/jack-config.js:437-457 | a string becomes `{v}`, an object (null included) is kept, undefined and an unparsable string form give `{}`, anything else is its JSON parse |
| ConfigReply.PayloadOfString | nodes/jack-config.js:441-442 | a string message always gives a payload that has `v` holding that string |
| ConfigReply.IndexOf | nodes/jack-config.js:407 | the index found is the first occurrence at or after the start, and none means no occurrence |
| ConfigReply.TopicReplace | nodes/jack-config.js:397-419 | a falsy topic or a non-object message comes back unchanged; a null message throws; otherwise the result is a string |
| ConfigReply.TopicReplaceOf | nodes/jack-config.js:397-419 | the method computes `topicReplace` |
| ConfigReply.LowerBagOf | nodes/jack-config.js:402-405 | the loop builds the lower-cased bag of message fields |
| ConfigReply.SubstituteOf | nodes/jack-config.js:408-416 | the loop replaces each template in turn |
| ConfigReply.NoPlaceholders | nodes/jack-config.js:407 | a topic without `$` has no template match |
| ConfigReply.ReplaceAllAbsent | nodes/jack-config.js:414 | a string without `$` is not changed by the replacement |
| ConfigReply.SubstituteNothing | nodes/jack-config.js:408 | with no match the topic stays as it is |
| ConfigReply.TopicWithoutTemplate | nodes/jack-config.js:397-419 | a topic without `$` is returned as it is |
| ConfigReply.ReplaceAllPrefix | nodes/jack-config.js:414 | text without `$` before a template passes through the replacement unchanged |
| ConfigReply.ReplaceAllShort | nodes/jack-config.js:414 | text shorter than the template is not changed |
| ConfigReply.PlaceholdersPrefix | nodes/jack-config.js:407 | the template scan skips text without `$` |
| ConfigReply.PlaceholderAt | nodes/jack-config.js:407-410 | a single template yields exactly its key |
| ConfigReply.IndexOfFirst | nodes/jack-config.js:407 | the first occurrence is the one found |
| ConfigReply.TopicOneTemplate | nodes/jack-config.js:397-419 | one template between plain text is replaced by the message field of the same lower-cased name, or by nothing |
| ConfigReply.LowerBagAbsent | nodes/jack-config.js:402-414 | a key no field lower-cases to is not in the bag, so it is replaced by nothing |
| ConfigReply.LowerBagLast | nodes/jack-config.js:402-405 | the bag holds, under a lower-cased name, the last field with that name |
| ConfigReply.Stored | nodes/jack-config.js:545-547 | `x or {}` is `x` when truthy and `{}` otherwise, and always a defined truthy value |
| ConfigReply.SuffixesDiffer | nodes/jack-config.js:507-518 | the four range keys of one base are distinct |
| ConfigReply.ValuesByTypeThrows | nodes/jack-config.js:510-512 | `getValuesByType` throws exactly for an ENUM without a value list |
| ConfigReply.ValuesByTypeFrame | nodes/jack-config.js:503-526 | no key but the four range keys is touched |
| ConfigReply.ValuesByTypeBool | nodes/jack-config.js:505-508 | ALARM and BOOL give the two value names, each falling back to its bound |
| ConfigReply.ValuesByTypeEnum | nodes/jack-config.js:510-513 | ENUM gives the value list and the list's entry for the payload value |
| ConfigReply.ValuesByTypeNumber | nodes/jack-config.js:515-519 | FLOAT and INTEGER give the minimum and the maximum |
| ConfigReply.ValuesByTypeOther | nodes/jack-config.js:504-525 | every other type leaves the item as it is |
| ConfigReply.TopicsSpec | nodes/jack-config.js:528-533 | `mqtt` holds get, set and status exactly when the topic is truthy, and nothing else |
| ConfigReply.NeighboursSpec | nodes/jack-config.js:563-573 | `datapoints` holds the value of every sibling, other than the datapoint and `$MASTER`, whose cached payload has `v`, and nothing else |
| ConfigReply.ShownSnoc | nodes/jack-config.js:565-572 | a sibling is shown among all children exactly when it is among all but the last or is the last |
| ConfigReply.CollectNeighbours | nodes/jack-config.js:565-572 | the loop computes `datapoints` |
| ConfigReply.Names | nodes/jack-config.js:576-581 | each id is used by its string form, in order |
| ConfigReply.TitlesComplete | nodes/jack-config.js:575-583 | the title loop completes exactly when every id has a title |
| ConfigReply.TitlesGet | nodes/jack-config.js:575-583 | after it completes, each id holds its title, and no other key is there |
| ConfigReply.TitlesStop | nodes/jack-config.js:576-586 | once the loop throws, the later ids change nothing |
| ConfigReply.CollectTitles | nodes/jack-config.js:576-578 | the loop computes the titles |
| ConfigReply.RestSpec | nodes/jack-config.js:563-585 | when no loop throws, `datapoints`, `rooms`, `functions` and `mqtt` hold what their steps computed |
| ConfigReply.DeviceDetails | nodes/jack-config.js:544-591 | the device details always give an item |
| ConfigReply.Described | nodes/jack-config.js:559-585 | the device case after the range fields always gives an item |
| ConfigReply.DeviceReply | nodes/jack-config.js:537-593 | the reply is undefined exactly when a store level is missing, and `{domain}` with the exception when a level cannot be read |
| ConfigReply.IseReply | nodes/jack-config.js:594-620 | the reply is undefined exactly when the id is missing, and `{domain}` with the exception when the domain cannot be read |
| ConfigReply.PrepareReply | nodes/jack-config.js:500-627 | other domains give `{domain}`; device, program and system variable replies are undefined exactly for a wrong number of topic parts or a missing level; a failing level check gives `{domain}` with the exception |
| ConfigReply.PrepareReplyOf | nodes/jack-config.js:500-627 | the method computes `prepareReply` |
| ConfigReply.DeviceDetailsOf | nodes/jack-config.js:544-591 | the method computes the device details |
| ConfigReply.DescribedOf | nodes/jack-config.js:559-585 | the method computes the device case after the range fields |
| ConfigReply.CollectDatapoints | nodes/jack-config.js:563-573 | the method computes `datapoints`, only when the domain has a payload cache |
| ConfigReply.CollectChannelTitles | nodes/jack-config.js:575-583 | the method computes `rooms` or `functions` |
| ConfigReply.WalkStep | nodes/jack-config.js:541-543 | the presence checks proceed level by level, stop at the first missing one and pass on a throw |
| ConfigReply.WalkLookup | nodes/jack-config.js:541-543 | in a store whose levels are objects, the presence checks agree with the nested lookup |
| ConfigReply.ReplyForStored | nodes/jack-config.js:536-620 | in such a store a datapoint gets a reply exactly when it is stored |
| ConfigEvents.SubscriptionIdInjective | nodes/jack-config.js:240 | subscription ids of one event type differ between children, and one child's ids differ between event types |
| ConfigEvents.Without | nodes/jack-config.js:267 | deleting a consumer leaves exactly the other consumers, in order |
| ConfigEvents.WithoutRegistry | nodes/jack-config.js:264-271 | deleting a consumer keeps the registration order consistent with the records |
| ConfigEvents.WithoutDistinct | nodes/jack-config.js:267 | the order without a consumer still has no repetition |
| ConfigEvents.RegisterRegistry | nodes/jack-config.js:242-248 | registering keeps the order consistent; a new id is appended, a known one keeps its place |
| ConfigEvents.RegisterRebroadcast | nodes/jack-config.js:237-257 | the broadcast that ends `register` reaches the new consumer exactly when it registered for status events |
| ConfigEvents.FilterOf | nodes/jack-config.js:293 | the stored filter is the child's filter when truthy and `{}` otherwise, and is always truthy |
| ConfigEvents.FirstInvalid | nodes/jack-config.js:320-327 | the loop stops at the first key outside the twenty allowed properties, all keys before it being allowed |
| ConfigEvents.FilterAllowedSpec | nodes/jack-config.js:297-327 | the check accepts exactly the filters whose every own key is an allowed property |
| ConfigEvents.EmptyFilterAllowed | nodes/jack-config.js:293-327 | the empty filter passes, and so does a number, which has no own keys |
| ConfigEvents.StatusEvents | nodes/jack-config.js:364-374 | a broadcast sends at most one event per consumer, each carrying the status report |
| ConfigEvents.StatusEventsSpec | nodes/jack-config.js:364-374 | a broadcast reaches exactly the consumers holding their status id, and nobody else |
| ConfigEvents.StatusEventsOnce | nodes/jack-config.js:364-374 | no consumer gets two status events from one broadcast |
| ConfigEvents.Admission | nodes/jack-config.js:721-734 | an admitted message has a valid topic `domain/status/...` on a known root domain and a payload that owns `v` |
| ConfigEvents.AdmissionAccepts | nodes/jack-config.js:721-734 | such a message is admitted with its domain, levels and payload |
| ConfigEvents.AdmissionEmptyTopic | nodes/jack-config.js:724-728 | an empty topic is never admitted |
| ConfigEvents.AdmissionUnknownDomain | nodes/jack-config.js:727-728 | a topic whose first level is not a root domain is refused |
| ConfigEvents.TailDistinct | nodes/jack-config.js:752-761 | the fields after the spread have distinct keys |
| ConfigEvents.ReplyTailDistinct | nodes/jack-config.js:752-761 | the same holds for the tail of a saved record |
| ConfigEvents.ReplyFields | nodes/jack-config.js:748-762 | the reply's value, previous value, qos, retain, timestamps, status, flags and source come from the saved record, with defaults `now` and 0, and the item cannot override them |
| ConfigEvents.SetAllAt | nodes/jack-config.js:751 | a field of a spread object with distinct keys holds its value afterwards |
| ConfigEvents.ReplyCarriesItem | nodes/jack-config.js:751 | every other field of the item reaches the reply unchanged |
| ConfigEvents.MessageReply | nodes/jack-config.js:736-762 | the reply fails exactly when the user context stores a device message without an item, or the packet is missing |
| ConfigEvents.DeliverTo | nodes/jack-config.js:765-778 | a pass keeps the set of consumers |
| ConfigEvents.Deliver | nodes/jack-config.js:764-779 | the loop keeps the set of consumers and emits at most one event per consumer visited |
| ConfigEvents.DeliverToFrame | nodes/jack-config.js:765-778 | a pass changes only the consumer it visits, never a subscription, and at most adds the topic to a whitelist |
| ConfigEvents.DeliverToEvent | nodes/jack-config.js:767-777 | a pass emits at most the reply on the consumer's event id, only when it holds it, and whitelists the topic exactly when it emits |
| ConfigEvents.DeliverSnoc | nodes/jack-config.js:764-779 | the loop over one more consumer is a pass after the loop |
| ConfigEvents.DeliverStep | nodes/jack-config.js:764-779 | the same, for a prefix of the order |
| ConfigEvents.DeliverFrame | nodes/jack-config.js:764-779 | the loop changes no subscription, each whitelist at most gains the topic, and consumers not visited are untouched |
| ConfigEvents.DeliverEvents | nodes/jack-config.js:764-779 | every event of the loop is the reply, sent to a visited consumer holding its event id |
| ConfigEvents.NotReached | nodes/jack-config.js:764-779 | a consumer the loop has not reached is sent nothing |
| ConfigEvents.DeliverWhitelist | nodes/jack-config.js:774-777 | after the loop a whitelist holds the topic exactly when it did before or the reply was sent to that consumer |
| ConfigEvents.DeliverVisit | nodes/jack-config.js:764-779 | up to and including its own pass, a consumer gains the topic in its whitelist exactly when it is sent the reply |
| ConfigEvents.DistinctSplit | nodes/jack-config.js:764 | a consumer occurs once in the iteration order |
| ConfigEvents.DeliverRest | nodes/jack-config.js:764-779 | the passes after a consumer's own leave its record and its events alone |
| ConfigEvents.DeliverOnce | nodes/jack-config.js:764-779 | the loop emits to each consumer at most once |
| ConfigEvents.DeliverStopped | nodes/jack-config.js:771-781 | once a filter has thrown, the rest of the loop does nothing |
| ConfigEvents.Additions | nodes/jack-config.js:737-771 | the bag the filters see is an object exactly when an item was built |
| ConfigEvents.EmptyFilterReceives | nodes/jack-config.js:767-777 | a consumer with an empty filter receives every message that reaches it |
| ConfigEvents.InputTarget | nodes/jack-config.js:797-823 | an invalid or non-five-level topic and a missing packet fail; a target has a known root domain and truthy device, channel and datapoint |
| ConfigEvents.InputReply | nodes/jack-config.js:795-848 | a failing target check is the reply's error |
| ConfigEvents.InputRecord | nodes/jack-config.js:825-848 | a reply exists exactly when the status item is cached and `prepareReply` gives an item |
| ConfigEvents.InputRecordFields | nodes/jack-config.js:834-848 | the reply carries the cached value and flags and `source: 'onInput'` |
| ConfigEvents.InputFromStatusTopic | nodes/jack-config.js:804-818 | a device status topic names its own levels, whatever the packet says |
| ConfigEvents.StatusItemOfTopic | nodes/jack-config.js:826 | the status item looked up for a status topic's levels is that topic |
| ConfigEvents.InputAnswerSpec | nodes/jack-config.js:850-863 | `onInput` answers at most once: the reply on the value id or the error on the error id, only when held, and it throws exactly for an unknown consumer |
| JackConfig.ConfigNode.constructor | nodes/jack-config.js:27-91 | a new node is BLANK, with an empty context store, no root domains, no consumers, no listeners and nothing emitted |
| JackConfig.ConfigNode.SetStatus | nodes/jack-config.js:358-375 | a valid status code becomes the status and is stamped with its name and time; every consumer holding its status id is sent the current status; nothing else changes |
| JackConfig.ConfigNode.Register | nodes/jack-config.js:237-257 | a child gets a fresh record holding only this subscription, with an empty filter and whitelist, and a listener; status is rebroadcast; a missing child is refused with no change |
| JackConfig.ConfigNode.Unsubscribe | nodes/jack-config.js:348-351 | corrected: the emitter drops the id's listeners and the call returns true |
| JackConfig.ConfigNode.Deregister | nodes/jack-config.js:264-271 | corrected: a registered child loses the listeners of all its subscriptions and its record; an unknown child is refused; the outcome is ConfigEvents.Deregistered |
| ConfigEvents.Deregistered | nodes/jack-config.js:264-271 | corrected: the registry after deregistering keeps every other consumer's record and order entry and every listener not of the child's subscriptions; an unknown child changes nothing |
| ConfigEvents.DeregisteredRegistry | nodes/jack-config.js:264-271 | corrected: deregistering keeps the order and the records consistent |
| ConfigEvents.RemoveListener | nodes/jack-config.js:348-351 | the emitter's `removeListener` throws a TypeError exactly when no listener function is passed; otherwise it keeps the ids and every other id's count |
| ConfigEvents.DeregisterAsWrittenThrows | nodes/jack-config.js:264-271 | as written, deregistering a child with any subscription throws a TypeError and leaves order, records and listeners as they were |
| ConfigEvents.DeregisterAfterRegister | nodes/jack-config.js:237-271 | a child just registered for status events is still registered after `deregister`, which throws |
| JackConfig.ConfigNode.Subscribe | nodes/jack-config.js:285-341 | refused without a child, without a callback or with a filter naming a property not allowed; otherwise a registered child with a non-empty id gains the subscription and the filter, and the emitter gains a listener in every case |
| JackConfig.ConfigNode.SavePayload | nodes/jack-config.js:466-492 | the payload, classified against the record it replaces, becomes the topic's record in the cache |
| JackConfig.ConfigNode.Start | nodes/jack-config.js:130-221 | the status goes to CONNECTING, the store is filled by the requests, and the status ends CONNECTED, or ERROR when the discovery or a request failed, with both status broadcasts emitted; root domains only grow |
| JackConfig.ConfigNode.Connect | nodes/jack-config.js:137-221 | after the discovery the staged requests give the store and the root domains, which only grow; the status ends CONNECTED exactly when no stage failed, else ERROR, and that status is broadcast; the registry and the payload cache stay |
| JackConfig.ConfigNode.Close | nodes/jack-config.js:883-890 | the status goes to NOTCONNECTED and the consumers are told |
| JackConfig.ConfigNode.OnMessage | nodes/jack-config.js:720-785 | a message that is not admitted changes nothing; an admitted one is saved, and unless the reply fails it is offered to every consumer in order, as `Deliver` defines |
| JackConfig.ConfigNode.Broadcast | nodes/jack-config.js:764-779 | the loop over the consumers updates the records and emits the events `Deliver` defines |
| JackConfig.ConfigNode.OnInput | nodes/jack-config.js:795-867 | the request is answered from the cache as `InputAnswer` defines, and only the event log changes |
| JackConfig.StatusEventsOf | nodes/jack-config.js:364-374 | the loop of `setStatus` emits the events `StatusEvents` defines |
| JackConfig.DeliverAll | nodes/jack-config.js:764-779 | the loop of `onMessage` gives what `Deliver` defines |
| JackConfig.Visit | nodes/jack-config.js:765-778 | one pass gives what `DeliverTo` defines |
| JackConfig.CheckFilter | nodes/jack-config.js:320-327 | the loop accepts exactly when no key is outside the allowed properties |
| JackConfig.FirstInvalidAt | nodes/jack-config.js:322-326 | the check stops at the first key not allowed |
| JackConfig.FirstInvalidNone | nodes/jack-config.js:322-327 | with every key allowed the check runs to the end |
| JackEvent.Commas | nodes/jack-event.js:66 | `replaceAll(',', '\|')` keeps the length and turns every comma, and only a comma, into a bar |
| JackEvent.AttributeFilter | nodes/jack-event.js:63-69 | a `strs` list becomes the pattern of its alternatives, `re` the pattern of the raw text, anything else the configured value; it throws exactly for a `strs` value that is not a string |
| JackEvent.BuildFilter | nodes/jack-event.js:35-70 | the loop builds the event filter |
| JackEvent.BuildStopped | nodes/jack-event.js:41-70 | once an attribute throws, the construction throws the same |
| JackEvent.FailsSnoc | nodes/jack-event.js:41-70 | some attribute fails among all exactly when one does among all but the last, or the last does |
| JackEvent.AddsSnoc | nodes/jack-event.js:41-70 | the same for an attribute that adds a key |
| JackEvent.BuildThrows | nodes/jack-event.js:41-70 | construction throws exactly when some truthy `strs` attribute is not a string |
| JackEvent.BuildKeys | nodes/jack-event.js:35-70 | the filter has the three fixed properties and the renamed truthy attributes, and nothing else |
| JackEvent.BuildValue | nodes/jack-event.js:59-69 | a truthy attribute that no later one overrides holds its filter value |
| JackEvent.BuildFixed | nodes/jack-event.js:35-39 | attributes never overwrite the three fixed properties |
| JackEvent.RenamedAt | nodes/jack-event.js:41-63 | every renamed attribute is an allowed filter property and not a fixed one |
| JackEvent.EventFilterFixed | nodes/jack-event.js:35-39 | `domain`, `change` and `cache` are copied from the configuration |
| JackEvent.EventFilterAllowed | nodes/jack-event.js:35-72 | every event filter passes the filter check of `subscribe` |
| JackEvent.EventFilterRooms | nodes/jack-event.js:42-44 | with both `room` and `rooms` set, the later `rooms` wins |
| JackEvent.Retitled | nodes/jack-event.js:72-75 | with topic `*` the message keeps its topic, otherwise the topic is the expanded template; no other field changes |
| JackEvent.EventNode.constructor | nodes/jack-event.js:12-23 | a new node is not connected and has an empty filter |
| JackEvent.EventNode.Start | nodes/jack-event.js:25-75 | the node is registered under an id made of the callback's text, with a fresh record, every other record kept, appended to the order when new, and one listener; `register`'s status broadcast is emitted; the subscription is refused; the filter is the one built |
| JackEvent.EventNode.Close | nodes/jack-event.js:77-79 | corrected: every close deregisters the node, leaving the registry ConfigEvents.Deregistered describes and nothing else changed |
| JackEvent.NothingReachesEventNode | nodes/jack-event.js:25-33 | a consumer filed under the callback's text holds neither the status nor the event id, so it is sent neither |
| JackValue.BuildFilter | nodes/jack-value.js:61-75 | the loop builds the value filter, which exists only with `cache` configured |
| JackValue.BuildKeys | nodes/jack-value.js:62-75 | the filter has the three fixed properties and the truthy attributes, and nothing else |
| JackValue.BuildValues | nodes/jack-value.js:62-75 | a truthy attribute holds its filter value, and the fixed properties keep the configured ones |
| JackValue.ValueFilterSpec | nodes/jack-value.js:61-75 | with `cache` set, the filter has `domain`, `change` and `cache` from the configuration and `device`, `channelIndex` and `datapoint` exactly when set, each with its filter value |
| JackValue.ValueFilterAllowed | nodes/jack-value.js:61-77 | the value filter passes the filter check of `subscribe` |
| JackValue.Default | nodes/jack-value.js:34-37 | a destructuring default applies only where the message has nothing |
| JackValue.PacketParts | nodes/jack-value.js:31-40 | each part of the request packet is the message's own, or the configured one when it has none |
| JackValue.LookupFirst | nodes/jack-value.js:31-38 | reading a field finds its first property |
| JackValue.AnswersSpec | nodes/jack-value.js:26-52 | each queued message gets at most one answer, on the node's VALUE or ERROR id; a node subscribed to both gets one per message; an unknown node gets none |
| JackValue.AnswersAppend | nodes/jack-value.js:43-44 | answering two queues in turn is answering their concatenation |
| JackValue.OnEvent | nodes/jack-value.js:77-80 | an event is forwarded, retitled, exactly when it comes from the cache |
| JackValue.OnValue | nodes/jack-value.js:83-86 | every reply is forwarded retitled, with its payload |
| JackValue.SubscribeChild | nodes/jack-config.js:329-334 | a registered node with a non-empty id gains the subscription and its filter, the other records stay, the emitter gains one listener, and nothing else changes |
| JackValue.SubscribeValues | nodes/jack-value.js:83-90 | the value and error subscriptions add both ids and the filter to the node's record only, and one listener for each |
| JackValue.SubscribeAll | nodes/jack-value.js:61-90 | the event (with a filter), value and error subscriptions add exactly those ids and the filter to the node's record only, and one listener for each |
| JackValue.ValueRecord | nodes/jack-value.js:54-90 | a value node's record holds its status id, and with an id also its value and error ids, and its event id when it has a filter |
| JackValue.ValueNode.constructor | nodes/jack-value.js:12-24 | a new node is open, not connected, without a filter and with an empty queue |
| JackValue.ValueNode.Start | nodes/jack-value.js:54-90 | after creation the node's record is ValueRecord and every other record stays; a new node is appended to the order; the emitter gains the status listener and one per subscription; `register`'s status broadcast, which reaches the node itself, is emitted; nothing else in the configuration node changes |
| JackValue.ValueNode.AnswerOldest | nodes/jack-value.js:26-44 | the oldest message is answered and dropped, unless `onInput` throws, when it stays queued; the configuration node's state is unchanged but for the events |
| JackValue.ValueNode.Drain | nodes/jack-value.js:26-52 | while connected the whole queue is answered in order, or nothing when `onInput` throws |
| JackValue.ValueNode.Input | nodes/jack-value.js:92-100 | a message is queued, and a queue that was empty is drained at once |
| JackValue.ValueNode.OnStatus | nodes/jack-value.js:54-59 | the node is connected exactly while the status is CONNECTED, and then drains |
| JackValue.ValueNode.Close | nodes/jack-value.js:102-107 | corrected: the first close deregisters the node, leaving the registry ConfigEvents.Deregistered describes; a later one changes nothing; status, store and emitted events stay |
| JackBridge.RootOf | nodes/jack-bridge.js:90-95 | a domain adds `<domain>/#` exactly when it is a string naming one of the four root kinds |
| JackBridge.CollectRoots | nodes/jack-bridge.js:88-96 | the loop over `message.domains` adds the subscriptions as a set does |
| JackBridge.AddRootsGrows | nodes/jack-bridge.js:95 | the set keeps what it had, in its order, and holds each subscription once |
| JackBridge.AddRootsMembers | nodes/jack-bridge.js:88-96 | the set gains exactly the subscriptions of root-kind domains |
| JackBridge.OnlyRootKinds | nodes/jack-bridge.js:90-95 | every collected subscription names one of the four root kinds |
| JackBridge.ContextOf | nodes/jack-bridge.js:84 | the context is sent exactly when it is truthy |
| JackBridge.BranchOf | nodes/jack-bridge.js:122-158 | the MQTT branch is taken only without a truthy action or status |
| JackBridge.Reply | nodes/jack-bridge.js:123-149 | only the action and status branches answer; `getSubscriptions` gets the subscriptions request and `__get` the echo with the connection state |
| JackBridge.EffectsSplit | nodes/jack-bridge.js:62-66 | handing a queue over is handing its first message over, then the rest |
| JackBridge.EffectsAppend | nodes/jack-bridge.js:53-74 | handing over one queue and then another is handing over their concatenation |
| JackBridge.NotAdmittedNoEffect | nodes/jack-config.js:720-734 | a message the configuration node does not admit changes nothing and emits nothing |
| JackBridge.Hand | nodes/jack-bridge.js:59-62 | one `onMessage` call changes the store and the event log as its contract says, and nothing it only reads |
| JackBridge.BridgeNode.constructor | nodes/jack-bridge.js:33-37 | a new node is open and not connected, with an empty status, no subscriptions, an empty queue and nothing sent |
| JackBridge.BridgeNode.Start | nodes/jack-bridge.js:76 | the node registers for status events only: a fresh record, every other record kept, appended to the order when new, one listener, and `register`'s status broadcast emitted |
| JackBridge.BridgeNode.HandOldest | nodes/jack-bridge.js:57-66 | the oldest message is handed to `onMessage` and dropped; a node that has let go of its configuration node throws and keeps it |
| JackBridge.BridgeNode.Drain | nodes/jack-bridge.js:53-74 | while connected the whole queue is handed over in order, each call seeing the earlier saves |
| JackBridge.BridgeNode.Input | nodes/jack-bridge.js:118-160 | actions and status requests are answered and change nothing else; an MQTT message that satisfies the queueing rule is queued, and a queue holding exactly one message is drained |
| JackBridge.BridgeNode.OnStatus | nodes/jack-bridge.js:76-116 | the status is shown; the node is connected exactly at CONNECTED, announces CONNECTING, and at CONNECTED adds the root subscriptions, announces them and drains; any other status sends nothing |
| JackBridge.BridgeNode.Close | nodes/jack-bridge.js:162-171 | corrected: nothing is sent and the first close deregisters the node, leaving the registry ConfigEvents.Deregistered describes; a later one changes nothing; status, store and emitted events stay |
| Discover.RequestObjects | nodes/lib/discover.js:25-36 | each request pair becomes an `{id, port}` object, in order |
| Discover.DefaultRequests | nodes/lib/discover.js:25-36 | the default request list has ten entries |
| Discover.SettingsOf | nodes/lib/discover.js:20-36 | reading the options throws exactly for `null`; the time-out and the request list used are always truthy |
| Discover.SettingsDefaults | nodes/lib/discover.js:20-36 | options that are not an object give a 1200 ms time-out and the default request list |
| Discover.SettingsGiven | nodes/lib/discover.js:24-36 | a truthy time-out or request list is used as given, a falsy one takes the default |
| Discover.IndexOfNul | nodes/lib/discover.js:54-56 | the index is the first NUL at or after the start, or -1 when there is none |
| Discover.Slice | nodes/lib/discover.js:59-61 | an in-range slice is those bytes; an empty or inverted range, or a start past the end, gives nothing |
| Discover.Decode | nodes/lib/discover.js:53-64 | a reply is decoded exactly when it starts with the five-byte header |
| Discover.IndexOfNulAt | nodes/lib/discover.js:54-56 | a NUL with none before it from the start is the one found |
| Discover.IndexOfNulSlice | nodes/lib/discover.js:54-56 | the same, stated on the slice between |
| Discover.DecodeFields | nodes/lib/discover.js:53-61 | a reply whose NULs sit at the type, serial and version ends decodes to exactly those three fields, the version starting three bytes after the serial's NUL |
| Discover.DecodeLayout | nodes/lib/discover.js:53-61 | a reply laid out as header, type, NUL, serial, NUL, three bytes, version, NUL decodes to its fields |
| Discover.DecodeWithoutVersion | nodes/lib/discover.js:56-61 | a reply that ends right after the serial's NUL has an empty version |
| Discover.InterfacesSpec | nodes/lib/discover.js:74-79 | an id holds the port and state of its last check outcome |
| Discover.InterfacesKeys | nodes/lib/discover.js:74-79 | `interfaces` has exactly the ids of the check outcomes |
| Discover.BuildInterfaces | nodes/lib/discover.js:74-79 | the loop builds `interfaces`, keyed by exactly the checked ids |
| Discover.Discovery.constructor | nodes/lib/discover.js:42-43 | a discovery starts with nothing found |
| Discover.Discovery.OnReply | nodes/lib/discover.js:51-84 | a reply without the header, or from an address seen before, is ignored; otherwise its address and its decoded device with every check outcome are appended |
| Discover.FoundOnce | nodes/lib/discover.js:67-68 | each address is found at most once |

## Left out

- Node-RED runtime: `createNode`, `this.status`, `this.error`, `this.log`, `done`, `RED.util.cloneMessage` and the duplicate-bridge warning of `eachNode` are not modelled. They are logging, badges and message copying with no effect on the modelled state.
- `setContext`, the `userStore` and the global context are not modelled. They write copies of the store for other flows and the editor.
- A `TypeError`'s message is not modelled. The model keeps that the error was raised, not its text. The type of a thrown value is not modelled either: `start` throws the bare string 'Invalid host or port' (nodes/jack-config.js:137), which the model raises as an `Error` with that text; the catch only sets ERROR and logs, so no state depends on it.
- The HTTP admin endpoint of the configuration node and the editor files are not modelled. They belong to the editor, not to the runtime.
- Event emitter: listeners are counted and callbacks are not run. A consumer's callback runs synchronously inside `emit`; the model records the emitted message instead.
- Aliasing: a payload object shared between the cache and the reply is modelled as a value. Later in-place changes to it do not reach other holders.
- Objects: integer-like keys, which JavaScript lists first, keep insertion order in the model. Properties inherited through the prototype are not modelled.
- Js.Lower: lower-cases ASCII letters only. `toLowerCase` (nodes/jack-config.js:404) folds every Unicode letter and can change a string's length, so two keys that differ only in a non-ASCII letter's case are distinct in the model.
- Utils.StrLess: compares code points. The default sort (nodes/lib/utils.js:44) compares UTF-16 code units; the two orders differ only when a character above U+FFFF is compared with one from U+E000 to U+FFFF.
- Numbers are integers. Fractional values, `Infinity` and `-0` are left out.
- A non-string `topic` of a message the bridge or a value node receives is treated as absent; the code would go on with its string form.
- ConfigReply.NeighboursSpec: `onInput` converts the packet's device, channel index and datapoint to strings, as the template literals that use them do. The one strict comparison, `child === datapoint` in the neighbour list (nodes/jack-config.js:566), is modelled on the string form, so a numeric `packet.datapoint` is left out of its own neighbour list in the model but listed in the code.
- Filters: array and `RegExp` filter values hold only the patterns built by the event and value nodes. The escaping of `$` and other special characters in `topicReplace`'s dynamically built pattern is not modelled; the model replaces the literal `${key}`. Errors of the `RegExp` constructor on invalid configured text are not modelled.
- A `length > 0` test is modelled for numeric lengths only.
- `Buffer` messages are not modelled: `getPayloadFromMessage` sees strings, objects and other primitives.
- HTTP requests, their timeouts, TLS and authentication are not modelled. Each request is a given result.
- Discovery: the UDP and TCP sockets, the 1200 ms time-out, sending the probe and UTF-8 decoding of the fields (kept as bytes) are not modelled.
- Discover.Discovery.OnReply: devices are appended in the order their addresses first replied. In the code a device is pushed after its port checks finish, so two replies whose checks overlap can be pushed in the other order.
- Logger: the time stamp (`now`) and the console formatting of a line are not modelled. A line keeps its level name, tag and message.
- Bridge: the `connect` and `disconnect` actions and the `autoConnect` test are not modelled. `connect` calls `jack.start`, which restarts the whole configuration node (`JackConfig.ConfigNode.Start`). `disconnect` calls `jack.stop`, which the configuration node does not define, so it throws a TypeError.
- Bridge: `getValues`, `getValuesFlat` and `getValuesDeep` call `getAllValues`, which the configuration node does not define. They throw before sending, and the model sends nothing for them.
- Bridge: the queue-depth badge and its 500 ms timer (`reportDepth`) are not modelled. They only update the badge.
- Value node: the ERROR callback only calls `this.error`, so it is not modelled.
- JackValue.ValueNode.Drain, JackBridge.BridgeNode.Drain: one `now` is used for a whole drain. The code reads the clock once per message.
- JackConfig.ConfigNode.Start: the discovery result is a boolean `discovered`, and the stages after it are given as replies. The asynchronous interleaving of other handlers with a running `start` is not modelled.

## Findings

| source | as written | input that shows it | evidently intended | confidence | as-written member | corrected member |
|---|---|---|---|---|---|---|
| nodes/jack-config.js:348-351 | `unsubscribe` calls `this.events.removeListener(subscriptionId)` without a listener; Node's emitter checks the listener first and throws a TypeError, so `deregister` (lines 264-271) throws at the first subscription and never removes the child | any registered child, for example one just registered for status events, handed to `deregister` when it closes | the subscription's listeners are removed and the child's record is deleted | not executed | ConfigEvents.DeregisterAsWrittenThrows | JackConfig.ConfigNode.Deregister |
