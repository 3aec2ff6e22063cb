# serene-python-client core, modelled in Dafny

This project covers three pieces of the Serene Python client: the conversion of a Karma alignment graph, the local state of an `Octopus`, and the memoising endpoint objects.

- **Karma conversion** (`convert_karma_graph`, module `KarmaGraph`). The alignment JSON becomes a directed multigraph with dense node and edge numbering and the two id tables. The labels of terminal links are propagated onto their target nodes.
- **Octopus state** (module `OctopusElement`, class `Octopus`):
  - constructor validation;
  - hydration by `update`;
  - the `add` and `remove` mutators;
  - `check_modeling_props`, by way of module `ModelingProps`.
- **Pattern table** (module `Patterns`). This is the in-memory part of `get_patterns`: `uri_lookup` and `edge_lines` are built, each `__variable_mapping` is parsed, edge ids are resolved, and the rows are built and sorted.
- **Endpoints** (module `Endpoints`):
  - the int-or-object dispatch of `_apply`;
  - the memoised `items` and `get`, with an `lru_cache(maxsize=32)` recency list and a counter of server calls;
  - the `decache` wrapper;
  - the first-match `get` of the ontology and octopus endpoints;
  - the checks and defaults of `OctopusEndpoint.upload`.

Module `PyStrings` gives the Python `str` operations the client uses: `split`, `strip`, `replace` with one character, and `startswith`. It also defines a `Join`; the core never calls `str.join`, and `Join` serves only to state the round trips of `Split`. Module `Common` holds `Option`, `Result`, `Outcome` and one `Error` constructor per kind of exception raised.

The source's loops are methods. Each one is proved equal to a specification function:
- `ConvertKarmaGraph` to `Convert`;
- `BuildGraphLines` to `RowsOf`;
- `Endpoint.Items` to `ItemsStep`.

The properties the client relies on are lemmas about those functions. The endpoint state is a `CacheState`. Each call is a step function on it, and `class Endpoint` realises those steps with fields updated in place.

Several things in the source become parameters:
- the server is an abstract key sequence plus a map from key to blob;
- `get_label` and `get_prefix` are string functions;
- the endpoint lookups that `Octopus.update` makes are functions returning a `Result`;
- `ModelType.values()` and `SamplingStrategy.values()` are sets;
- the training status is a boolean.

Two records stand for objects fetched from the server. `Endpoints.Entity` is what an endpoint's `items` and `get` return. `OctopusElement.Element` is an SSD or ontology as an octopus holds it. The model does not connect the two: the lookups given to `Octopus.Update` are not tied to `Endpoint.Get`.

`add` and `remove` clear `stored` but keep `_id`, so an octopus can be local and still carry the id of its stored copy. `Octopus.Valid` therefore asks only that a stored octopus have an id, and `OctopusElement.AddKeepsId` shows the local-with-id case.

## Model

| member | source | states |
|---|---|---|
| PyStrings.JoinSplit | serene/elements/octopus.py:402 | joining the parts of `s.split(sep)` with `sep` gives back `s`: the split loses no character |
| PyStrings.SplitJoin | serene/elements/octopus.py:402 | splitting parts joined by a separator gives back exactly those parts, provided no part holds the separator's first character |
| PyStrings.StripSpec | serene/elements/octopus.py:318 | `strip()` yields a slice of the string with only whitespace outside it, and the slice neither starts nor ends with whitespace |
| PyStrings.RemoveCharSpec | serene/elements/octopus.py:315 | `replace(c, "")` removes every `c` and keeps every other character as many times as it occurs; a string without `c` is unchanged |
| PyStrings.RemoveCharAppend | serene/elements/octopus.py:315 | removal keeps the order of the other characters: on a concatenation it is the concatenation of the removals, and a single character other than `c` is kept |
| KarmaGraph.LastIndexMapIsLastIndex | serene/elements/octopus.py:383-401 | the table built by `d[id] = cur_id` over a counter holds exactly the listed ids, each mapped to the last position where it occurs |
| KarmaGraph.DistinctIdsIndexDensely | serene/elements/octopus.py:383-396 | with distinct ids, every id maps to its own 0-based array position |
| KarmaGraph.InitialNodesSpec | serene/elements/octopus.py:386-396 | the node pass raises exactly when some InternalNode has no label URI; otherwise record `i` holds the attributes of node `i` |
| KarmaGraph.EdgesOfSpec | serene/elements/octopus.py:398-411 | the link pass raises exactly when some link's edge cannot be built; otherwise edge `i` is the edge of link `i` under key `i` |
| KarmaGraph.PropagateUntouched | serene/elements/octopus.py:412-416 | a node that no DataPropertyLink or ClassInstanceLink targets keeps its attributes |
| KarmaGraph.PropagateAllAppend | serene/elements/octopus.py:399-416 | links act one after the other: the effect of `a + b` is that of `b` applied after `a` |
| KarmaGraph.LastWriteWins | serene/elements/octopus.py:412-416 | after all links, a node carries the label, lab and prefix its source had when the last terminal link into it was processed, joined with that link's label by "---", and its own kind |
| KarmaGraph.KindKept | serene/elements/octopus.py:412-416 | the writes of terminal links never change a node's ClassNode/DataNode kind |
| KarmaGraph.ConvertKarmaGraph | serene/elements/octopus.py:369-421 | the two counter loops that fill `node_map`, `link_map` and the graph return exactly the graph and tables of `Convert`, or the exception it raises |
| KarmaGraph.AddNodes | serene/elements/octopus.py:383-396 | the node loop yields one attribute record per node, in order, and `node_map` maps each node id to its last position; it raises at the first InternalNode without a URI |
| KarmaGraph.LinkEdge | serene/elements/octopus.py:401-410 | the loop-body step for one link computes `EdgeOf`; what that edge is, and when it raises, is proved in `ConvertIndexing` and `ConvertFails` |
| KarmaGraph.Relabel | serene/elements/octopus.py:412-416 | a terminal link overwrites its target's label, lab and prefix from its source's current attributes; other links change nothing |
| KarmaGraph.AddLinks | serene/elements/octopus.py:398-416 | the link loop yields edge `i` for link `i`, `link_map` of last positions, and the node attributes the links propagate in order; it raises at the first bad link |
| KarmaGraph.AddLink | serene/elements/octopus.py:399-416 | one pass of the link loop extends `link_map`, the edge list and the propagation by link `curId`, or ends the loop with that link's error |
| KarmaGraph.ConvertIndexing | serene/elements/octopus.py:383-411 | nodes and links are numbered by array position (the last position for a repeated id); edge `i` has key `i` and runs from `node_map[source]` to `node_map[target]` of the three-way split of link `i`'s id, with that link's type, weight and uri label |
| KarmaGraph.ConvertFails | serene/elements/octopus.py:386-411 | the conversion raises exactly when an InternalNode lacks its label URI, or a link id does not split into three parts whose ends are node ids |
| KarmaGraph.ConvertNodeAttrs | serene/elements/octopus.py:389-394 | an InternalNode becomes a ClassNode with `label = get_label(uri)`, `lab = get_label(id)`, `prefix = get_prefix(uri)`; any other node a DataNode with three empty fields; the kind survives propagation and an untargeted node keeps these attributes |
| KarmaGraph.ConvertPropagatesLabels | serene/elements/octopus.py:412-416 | the last terminal link `j` into node `i` gives it its source's label and lab after links `0..j-1`, joined to the link label by "---", and the source's prefix |
| KarmaGraph.SplitLinkId | serene/elements/octopus.py:402 | an id "source---uri---target" whose parts hold no dash splits into exactly those three parts |
| KarmaGraph.ExampleLinkResolves | serene/elements/octopus.py:402 | the worked example's link id "n1---ex:name---n2" splits into "n1", "ex:name", "n2", both of them node ids |
| KarmaGraph.ExampleConverts | serene/elements/octopus.py:369-421 | the worked example converts without raising, whatever `get_label` and `get_prefix` are |
| KarmaGraph.ExampleEdge | serene/elements/octopus.py:398-411 | the worked example has one edge, from node 0 to node 1, labelled `get_label("ex:name")` |
| KarmaGraph.PersonNameExample | serene/elements/octopus.py:386-416 | in the worked example, n1 is labelled "Person" and the data node n2 "Person---name" |
| Patterns.UriLookupSpec | serene/elements/octopus.py:293-298 | `uri_lookup` holds exactly the alignIds of the alignment edges, each mapped to the key of the last edge carrying it |
| Patterns.BuildUriLookup | serene/elements/octopus.py:295-298 | the loop over the alignment edges builds `UriLookup` |
| Patterns.EdgeLinesSpec | serene/elements/octopus.py:300-308 | an id is in `edge_lines` exactly when a record with that id has a known alignId, and it maps to that alignId's key for the last such record; unknown alignIds are skipped |
| Patterns.BuildEdgeLines | serene/elements/octopus.py:301-308 | the loop over `edges.json` records builds `EdgeLines` |
| Patterns.ResolveEdgesKnown | serene/elements/octopus.py:317-323 | every edge key collected for a pattern is a value of `edge_lines` |
| Patterns.ResolveEdgesExact | serene/elements/octopus.py:317-323 | the collected edge keys are exactly `edge_lines[value]` for the `__e` entries whose value is in `edge_lines`: one key per such entry, in entry order, and none from any other entry |
| Patterns.ResolveEdgesFails | serene/elements/octopus.py:317-323 | collecting raises exactly when some entry whose key starts with `__e` has no `=value` (the IndexError of `pos[1]`); ids not in `edge_lines` are skipped |
| Patterns.ResolveEntries | serene/elements/octopus.py:317-323 | the inner loop over the mapping entries appends the edge keys of `ResolveEdges` |
| Patterns.RowOfSpec | serene/elements/octopus.py:315-328 | a row is `[id, support, len(edges), sorted(edges)]`: it counts the resolved edges, and lists them ascending with the same multiset |
| Patterns.GraphLine | serene/elements/octopus.py:314-328 | the loop-body step for one graph record computes `RowOf`; what the row holds is proved in `RowOfSpec` |
| Patterns.RowsOfSpec | serene/elements/octopus.py:310-328 | `graph_lines` holds record `i`'s row at position `i`, and building it raises exactly when some record's row raises |
| Patterns.BuildGraphLines | serene/elements/octopus.py:311-328 | the outer loop over `graphs.json` records builds `RowsOf` |
| Patterns.AddGraphLine | serene/elements/octopus.py:313-328 | one pass of the outer loop appends record `i`'s row, or ends the loop with its error |
| Patterns.SortNatsSpec | serene/elements/octopus.py:328 | `sorted(edges)` is ascending and a permutation of `edges` |
| Patterns.LexLessTotal | serene/elements/octopus.py:330 | Python's `<` on integer lists is total up to equality |
| Patterns.LexNotLessTransitive | serene/elements/octopus.py:330 | not-less on integer lists is transitive, so a sort by it is well defined |
| Patterns.SortRowsSorted | serene/elements/octopus.py:330 | after `graph_lines.sort(key=lambda x: x[3])` no row's edge list is less than an earlier row's |
| Patterns.SortRowsStable | serene/elements/octopus.py:330 | the sort is stable: rows with equal edge lists keep their input order |
| Patterns.GetPatterns | serene/elements/octopus.py:266-330 | the table `get_patterns` builds, or the exception it raises, is `PatternTable` |
| Patterns.PatternTableSpec | serene/elements/octopus.py:266-330 | a table is built only for a stored, trained octopus with a session whose alignment converts; it is a permutation of the per-record rows, sorted by edge list, stable for equal edge lists |
| ModelingProps.PropInRangeAgrees | serene/elements/octopus.py:538-554 | for (0, inf) and [0, 1], Python's chained comparison passes exactly the finite values in range; a value out of range or NaN raises ValueError, a non-number TypeError |
| ModelingProps.CheckAllSpec | serene/elements/octopus.py:541-565 | a sequence of checks passes exactly when every check passes, and otherwise raises for the first failing check |
| ModelingProps.CheckModelingPropsSpec | serene/elements/octopus.py:537-565 | `check_modeling_props` raises exactly when one of the seven listed keys is present with an unacceptable value, naming the first in check order; non-dict props and absent keys pass |
| ModelingProps.NonFiniteRejected | serene/elements/octopus.py:559-562 | infinity and NaN are rejected even for the counts, whose upper bound `inf` is open |
| OctopusElement.ValidateInit | serene/elements/octopus.py:106-116 | the constructor check passes exactly when both the model type and the resampling strategy are allowed, and reports the model type first |
| OctopusElement.FetchAllSpec | serene/elements/octopus.py:162-163 | the list comprehension over the JSON ids raises exactly when some lookup does; otherwise entry `i` is the value fetched for id `i` |
| OctopusElement.IndexOf | serene/elements/octopus.py:201 | the first position holding the value |
| OctopusElement.RemoveFirstSpec | serene/elements/octopus.py:201-205 | `list.remove(x)` drops exactly one copy of `x`, its first occurrence, and keeps the rest in order |
| OctopusElement.UpdateOutcome | serene/elements/octopus.py:162-165 | `update` completes exactly when every SSD, every ontology and the matcher can be fetched |
| OctopusElement.Octopus.constructor | serene/elements/octopus.py:118-143 | a new octopus holds its arguments, with no id, not stored, and no matcher, state or dates |
| OctopusElement.Octopus.Create | serene/elements/octopus.py:106-143 | `Octopus(...)` raises ValueError for a model type or resampling strategy outside the allowed sets; otherwise it yields a fresh, unstored octopus with no id holding the arguments |
| OctopusElement.Octopus.Update | serene/elements/octopus.py:145-177 | afterwards the octopus is stored under `json['id']`; on success the lists hold one fetched entry per id, in order, and the settings come from the JSON and the fetched matcher; a failing fetch raises and leaves the assignments made before it |
| OctopusElement.Octopus.MarkStored | serene/elements/octopus.py:154-159 | stored becomes true, the id is the JSON's, and the name, description and dates are copied |
| OctopusElement.Octopus.Describe | serene/elements/octopus.py:155-158 | the name, description and two dates are copied from the JSON and nothing else changes |
| OctopusElement.Octopus.AdoptJson | serene/elements/octopus.py:165-168 | the matcher, modelling properties, semantic type map and state are set and nothing else changes |
| OctopusElement.Octopus.AdoptMatcher | serene/elements/octopus.py:171-175 | the feature config, model type, resampling strategy, bag count and bag size are copied from the matcher and nothing else changes |
| OctopusElement.Octopus.Add | serene/elements/octopus.py:179-193 | an SSD (ontology) is appended to the end of its list and stored becomes false, the other list kept; any other value raises ValueError with nothing changed |
| OctopusElement.Octopus.Remove | serene/elements/octopus.py:195-209 | the first copy of an SSD (ontology) is removed and stored becomes false; an absent value raises with stored already false and the list unchanged; any other value raises with nothing changed |
| OctopusElement.Octopus.CheckModelingProps | serene/elements/octopus.py:537-565 | the octopus's properties pass exactly when every listed key that is present holds an acceptable value |
| OctopusElement.AddThenRemove | serene/elements/octopus.py:179-209 | adding then removing one SSD leaves the octopus unstored with the same SSDs as a multiset, and in the same order when the SSD was not already listed |
| OctopusElement.AddedLastRemovesFirst | serene/elements/octopus.py:185-201 | removing an appended value gives back the list only when it held no earlier copy; otherwise the earlier copy is removed |
| OctopusElement.AddKeepsId | serene/elements/octopus.py:179-193 | adding an SSD or ontology to a stored octopus leaves it not stored but with its server id unchanged |
| Endpoints.ApplyKey | serene/endpoints.py:57-76 | `_apply` calls `func` with an exact-`int` argument, or with the `id` of an instance of the base type; anything else raises TypeError without a call |
| Endpoints.FetchItemsSpec | serene/endpoints.py:172-178 | the `items` loop yields one object per key, in key order, each built from its key's blob by a later API call than the previous one; it raises exactly when the server lacks a listed key |
| Endpoints.ItemsStepFetches | serene/endpoints.py:222-230 | an uncached `items` makes one `keys()` call and one call per key (two for ontologies) and caches a tuple of distinct fresh objects in server key order |
| Endpoints.ItemsCachedRead | serene/endpoints.py:169-178 | reading `items` again with no clear in between returns the identical tuple and makes no API call, whatever the server now holds |
| Endpoints.FindById | serene/endpoints.py:328-334 | the first position whose object has the key, or none when no object has it |
| Endpoints.SearchFindsFirst | serene/endpoints.py:501-507 | the ontology `get`, and an uncached octopus `get`, return the first object of `items` with the given id and raise when there is none or `items` raises |
| Endpoints.CachedValid | serene/endpoints.py:500 | storing a `get` result keeps at most 32 keys, evicts the least recently used key when full, and keeps every other cached entry |
| Endpoints.GetStepValid | serene/endpoints.py:407-413 | every `get` keeps the cache within 32 keys with an exact, duplicate-free recency list |
| Endpoints.GetCachedRead | serene/endpoints.py:215-218 | a memoised `get` that succeeded answers the same key again with the identical object and no API call, whatever the server holds now |
| Endpoints.RemoveClearsItemsFirst | serene/endpoints.py:31-40 | `decache` drops the `items` memo before the mutation runs, even when `_apply` then raises TypeError; in that case nothing is deleted and no call is made |
| Endpoints.StaleGetAfterRemove | serene/endpoints.py:38 | `decache` clears only `items`: after `remove` deletes a key, a memoised `get` of that key still returns the old object while `items` is fetched afresh |
| Endpoints.UploadRequestSpec | serene/endpoints.py:457-480 | upload posts exactly when every SSD and every ontology is stored; otherwise it raises for the first unstored SSD, checked before any ontology, then the first unstored ontology; the post lists the ids in order and defaults a `None` name, description and model type to "unknown", "" and "randomForest" |
| Endpoints.UploadAsWrittenNeverSucceeds | serene/endpoints.py:482 | as written, every upload that passes the checks posts and then raises TypeError |
| Endpoints.OctopusItemsAsWrittenFails | serene/endpoints.py:511-519 | as written, octopus `items` yields a tuple only for an empty server, while the modelled loop yields one object per key whenever the server holds every key |
| Endpoints.Endpoint.constructor | serene/endpoints.py:49-55 | a new endpoint has no memoised `items`, an empty `get` cache and no API calls |
| Endpoints.Endpoint.Items | serene/endpoints.py:338-346 | the cached `items` property makes exactly the state change and returns exactly the result of `ItemsStep` |
| Endpoints.Endpoint.FetchKeys | serene/endpoints.py:416-426 | the loop over `keys()` in `items` computes `FetchItems` |
| Endpoints.Endpoint.Search | serene/endpoints.py:328-334 | the loop of `get` over `items` returns the first object with the key, or raises, as `SearchStep` says |
| Endpoints.Endpoint.FetchItem | serene/endpoints.py:164-167 | an uncached `get` of a dataset, model or SSD makes one `item` call and builds an object from its blob, or raises for an absent key |
| Endpoints.Endpoint.CacheResult | serene/endpoints.py:407 | a `get` result is stored under its key as the most recently used, evicting the least recently used when 32 keys are cached |
| Endpoints.Endpoint.Get | serene/endpoints.py:500-507 | `get` behaves as `GetStep`: ontologies search every time, the other endpoints answer a cached key from the cache, and cache only a result that did not raise |
| Endpoints.Endpoint.Decache | serene/endpoints.py:23-41 | only the `items` memo is dropped |
| Endpoints.Endpoint.Remove | serene/endpoints.py:484-491 | `remove` drops the `items` memo, then either raises TypeError from `_apply` or deletes the key on the server, which fails for a key it does not hold |
| Endpoints.Endpoint.Upload | serene/endpoints.py:448-482 | the `items` memo is dropped; an unstored dependency raises before any post and changes nothing else; otherwise one post is made and the octopus is stored under the response id, holding the fetched SSDs, ontologies and matcher settings when every fetch succeeds |

## Left out

- HTTP traffic: `_api.keys/item/post/delete/owl_file` act on an abstract server. The server state after a `post` is a parameter of `Upload`, and "delete" fails (as a `ServerError`) for a key the server does not hold or for an object whose id is `None`.
- JSON parsing, `convert_datetime` and `ModelState`: the octopus JSON is a record whose dates and state are raw strings. The KeyError for a missing JSON field is not modelled.
- File I/O in `get_patterns`: reading `edges.json` and `graphs.json` (given as record sequences), writing the CSV, the `octopus_api.patterns` call and `serene_path` handling. `GetPatterns` returns the rows rather than the path.
- `train` and `_get_state`: these poll the server with `time.sleep`. The status check in `get_patterns` takes the training status as a boolean.
- `predict` and `matcher_predict` only relay to the server. `OctopusScore` and `SSDResult` are passive holders. `get_alignment` fetches the alignment from the server (`octopus_api.alignment`); its result is the `KarmaData` parameter of `GetPatterns`.
- `mappings`: it depends on `SSD` internals, which are not part of this model. The same holds for `show` and every `print` and `logging` call. `logging.warning` is called with extra arguments and no format placeholder; logging reports that error itself and does not raise, so a missing alignId or edge id is simply skipped.
- The `upload` and `update` of the dataset, ontology and SSD endpoints, and the `columns` property: these read files or objects that are not part of this model. Their `items`, `get` and `remove` are modelled, by endpoint kind.
- `decache`: the ValueError for a receiver that is not an `IdentifiableEndpoint` is not modelled, because every endpoint class is one.
- `lru_cache`: it is shared per class and keyed on `(self, key)`. Each endpoint has its own cache here. The hydrated objects are `Entity` records, and identity is a stamp: the API call that built the object.
- Classes that are not part of this model: `SSD`, `Ontology`, `Model`, `DataSet` and `utils` (`get_label`, `get_prefix`). SSD and ontology values are records compared by value in `remove`. `ModelType.values()` and `SamplingStrategy.values()` are set parameters.
- `OctopusElement.Octopus.Update`: the endpoint `get`s it calls are functions, so their effect on the other endpoints' caches is not modelled.
- Python's default arguments of `Octopus.__init__`: `Create` takes every argument explicitly.
- A `bool` passed to `_apply` is `OtherArg` (its type is not exactly `int`). Any other Python value is one of the three `Arg` cases.
- networkx: the graph is a sequence of node records and a sequence of edges. `uri_lookup` visits the edges in link order. That order matters only when two edges share an alignId, which the conversion rules out unless two links have the same id.
- `sorted` and `list.sort` are insertion sorts `SortNats` and `SortRows`. They are proved sorted, a permutation, and stable (for the rows); Timsort itself is not modelled.
- Patterns.ResolveEdges: its own contract states only the length bound. The meaning of the edge list is in `ResolveEdgesExact`, `ResolveEdgesKnown`, `ResolveEdgesFails` and `RowOfSpec`.
- Add, Remove and UploadRequest: the SSD and ontology lists, and the elements in them, are values. `__init__` keeps the caller's list objects and `add`/`remove` change them in place, so in Python the caller's list changes too; the model does not capture that aliasing. Each element's `stored` flag is also frozen when the element enters the octopus. `OctopusEndpoint.upload` reads each element's current flag, so an SSD uploaded after `add` posts in Python, while `UploadRequest` on the held copy reports it as unstored.
- networkx: the model assumes the networkx 1.x API that the graph calls are written for (`add_node(..., attr_dict=...)`, `add_edge(..., attr_dict=...)` and `g.node[...]` at serene/elements/octopus.py:395, 410 and 414-416). Under networkx 2.x, `attr_dict=` would be stored as one attribute named `attr_dict`, and from 2.4 on `g.node` no longer exists, so the relabelling would raise. Neither behaviour is modelled.
- ResolveEdgesKnown: states only that each collected key is a value of `edge_lines`; which keys are collected, and in what order, is stated by `ResolveEdgesExact`.
- RemoveCharSpec: states membership and character counts, not order; the order is stated by `RemoveCharAppend`.

## Findings

| source | as written | input that shows it | evidently intended | confidence | as-written member | corrected member |
|---|---|---|---|---|---|---|
| serene/endpoints.py:482 | `octopus.update(response, self._session)` passes 2 of the 6 parameters of `Octopus.update` (serene/elements/octopus.py:145), which raises TypeError after the octopus has been posted | an octopus whose `ssds` and `ontologies` are both `[]` | the octopus is updated from the response through the session's endpoints and returned | high; not executed | Endpoints.UploadAsWritten, Endpoints.UploadAsWrittenNeverSucceeds | Endpoints.Endpoint.Upload |
| serene/endpoints.py:517 | `Octopus().update(blob, self._session)` has the same arity error, so octopus `items`, and with it `OctopusEndpoint.get`, raises for any server listing an octopus | a server listing one key whose blob exists | `items` yields one octopus per key, in key order | high; not executed | Endpoints.OctopusItemsAsWritten, Endpoints.OctopusItemsAsWrittenFails | Endpoints.FetchItems, Endpoints.FetchItemsSpec |
