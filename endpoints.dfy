/**
 * The endpoint objects of the client: the int-or-object key dispatch of
 * `_apply`, the memoised `items` and `get` reads over an abstract server,
 * the `decache` wrapper of the mutating calls, the first-match `get` of
 * the ontology and octopus endpoints, and the checks `OctopusEndpoint.upload`
 * makes before it posts.
 *
 * The memo state of an endpoint is a `CacheState`; the functions below
 * say how each call transforms it, and `class Endpoint` realises them
 * with fields updated in place.
 */
module Endpoints {
  import opened Common
  import OctopusElement

  /** The `_base_type` of each endpoint: the class of object it serves. */
  datatype EntityKind = DataSetKind | ModelKind | OntologyKind | SsdKind | OctopusKind

  // ------------------------------------------------------------------ _apply

  /**
   * An argument given to `remove`: a value whose type is exactly `int`, an
   * object of some endpoint class with its `id`, or anything else
   * (including `bool`, whose type is not exactly `int`).
   */
  datatype Arg = IntArg(i: int) | ObjectArg(kind: EntityKind, id: Option<int>) | OtherArg

  /**
   * `_apply(func, value)`: the key `func` is called with, or the
   * TypeError raised without calling it.
   */
  function ApplyKey(baseType: EntityKind, v: Arg): (r: Result<Option<int>>)
    ensures r.Ok? <==> v.IntArg? || (v.ObjectArg? && v.kind == baseType)
    ensures v.IntArg? ==> r == Ok(Some(v.i))
    ensures v.ObjectArg? && v.kind == baseType ==> r == Ok(v.id)
    ensures r.Err? ==> r.error == IllegalType
  {
    match v
    case IntArg(i) => Ok(Some(i))
    case ObjectArg(k, id) => if k == baseType then Ok(id) else Err(IllegalType)
    case OtherArg => Err(IllegalType)
  }

  // -------------------------------------------------------------- the server

  /** The JSON the server returns for one object, reduced to its id and the rest. */
  datatype Blob = Blob(id: int, fields: string)

  /** The server behind one endpoint: what `keys()` lists, and what `item(k)` returns. */
  datatype Server = Server(keys: seq<int>, blobs: map<int, Blob>)

  /** `s` without any copy of `k`. */
  function Without(s: seq<int>, k: int): (r: seq<int>)
    ensures |r| <= |s| && (k in s ==> |r| < |s|)
    ensures forall x :: x in r <==> x in s && x != k
  {
    if s == [] then []
    else
      assert s == [s[0]] + s[1..];
      (if s[0] == k then [] else [s[0]]) + Without(s[1..], k)
  }

  predicate Distinct(s: seq<int>)
  {
    forall i, j :: 0 <= i < j < |s| ==> s[i] != s[j]
  }

  lemma {:induction false} WithoutDistinct(s: seq<int>, k: int)
    requires Distinct(s)
    ensures Distinct(Without(s, k))
    decreases |s|
  {
    if s != [] {
      WithoutDistinct(s[1..], k);
      assert s[0] !in s[1..] by {
        forall j | 0 <= j < |s[1..]| ensures s[1..][j] != s[0] { assert s[1..][j] == s[j + 1]; }
      }
    }
  }

  /** The server once it has deleted `k`. */
  function Deleted(srv: Server, k: int): (r: Server)
    ensures k !in r.keys && k !in r.blobs
  {
    Server(Without(srv.keys, k), srv.blobs - {k})
  }

  // ------------------------------------------------------ hydrated objects

  /**
   * A local object built from a server blob.  `stamp` is the API call
   * that produced it: two objects with different stamps are different
   * Python objects, and returning the same entity means returning the
   * identical object.
   */
  datatype Entity = Entity(id: int, fields: string, stamp: nat)

  function Hydrate(b: Blob, stamp: nat): Entity
  {
    Entity(b.id, b.fields, stamp)
  }

  /** API calls per key in `items`: `owl_file` and `item` for ontologies, `item` otherwise. */
  function CallsPerKey(kind: EntityKind): nat
  {
    if kind == OntologyKind then 2 else 1
  }

  /** The objects built so far (or the error raised), and the call counter afterwards. */
  datatype Fetched = Fetched(result: Result<seq<Entity>>, calls: nat)

  /**
   * The loop of `items` over `keys`, starting with the call counter at
   * `calls`: each key costs `CallsPerKey` calls and yields one object; a
   * key the server does not hold makes its first call raise.
   */
  function FetchItems(kind: EntityKind, srv: Server, keys: seq<int>, calls: nat): (f: Fetched)
    ensures f.calls >= calls
  {
    if keys == [] then Fetched(Ok([]), calls)
    else
      var f := FetchItems(kind, srv, keys[..|keys| - 1], calls);
      var k := keys[|keys| - 1];
      if f.result.Err? then f
      else if k !in srv.blobs then Fetched(Err(NotFound(k)), f.calls + 1)
      else
        var c := f.calls + CallsPerKey(kind);
        Fetched(Ok(f.result.value + [Hydrate(srv.blobs[k], c)]), c)
  }

  lemma {:induction false} FetchItemsErrPersists(kind: EntityKind, srv: Server, keys: seq<int>,
                                                 n: nat, calls: nat)
    requires n <= |keys| && FetchItems(kind, srv, keys[..n], calls).result.Err?
    ensures FetchItems(kind, srv, keys, calls) == FetchItems(kind, srv, keys[..n], calls)
    decreases |keys| - n
  {
    if n < |keys| {
      var front := keys[..|keys| - 1];
      assert front[..n] == keys[..n];
      FetchItemsErrPersists(kind, srv, front, n, calls);
    } else {
      assert keys[..n] == keys;
    }
  }

  /**
   * `items` yields exactly one object per key, in key order, each built
   * from that key's blob by its own, later, API call; it raises exactly
   * when the server lacks one of the keys.
   */
  lemma {:induction false} FetchItemsSpec(kind: EntityKind, srv: Server, keys: seq<int>, calls: nat)
    ensures FetchItems(kind, srv, keys, calls).result.Err? <==>
              exists i :: 0 <= i < |keys| && keys[i] !in srv.blobs
    ensures var f := FetchItems(kind, srv, keys, calls);
      f.result.Ok? ==>
        && |f.result.value| == |keys|
        && f.calls == calls + |keys| * CallsPerKey(kind)
        && (forall i :: 0 <= i < |keys| ==>
              keys[i] in srv.blobs && f.result.value[i].id == srv.blobs[keys[i]].id
              && f.result.value[i].fields == srv.blobs[keys[i]].fields
              && calls < f.result.value[i].stamp <= f.calls)
        && (forall i, j :: 0 <= i < j < |keys| ==> f.result.value[i].stamp < f.result.value[j].stamp)
    decreases |keys|
  {
    if keys != [] {
      var front := keys[..|keys| - 1];
      FetchItemsSpec(kind, srv, front, calls);
      assert forall i :: 0 <= i < |front| ==> front[i] == keys[i];
    }
  }

  // ---------------------------------------------------------- memo state

  /** The `get` cache holds at most this many keys (`lru_cache(maxsize=32)`). */
  const MaxSize: nat := 32

  /**
   * The memo state of one endpoint: the cached `items` tuple, the `get`
   * cache with its keys from least to most recently used, and the number
   * of API calls made so far.
   */
  datatype CacheState = CacheState(items: Option<seq<Entity>>, gets: map<int, Entity>,
                                   recency: seq<int>, calls: nat)

  ghost predicate LruValid(st: CacheState)
  {
    && |st.recency| <= MaxSize
    && Distinct(st.recency)
    && (forall k :: k in st.gets <==> k in st.recency)
  }

  /** A cache hit makes `k` the most recently used key. */
  function Touched(recency: seq<int>, k: int): seq<int>
  {
    Without(recency, k) + [k]
  }

  /** A miss stores `e` under `k`, evicting the least recently used key when the cache is full. */
  function Cached(st: CacheState, k: int, e: Entity): CacheState
  {
    var s := if |st.recency| >= MaxSize then st.(gets := st.gets - {st.recency[0]}, recency := st.recency[1..])
             else st;
    s.(gets := s.gets[k := e], recency := s.recency + [k])
  }

  /** The `get` cache stays within its bound and keeps its recency list exact. */
  lemma CachedValid(st: CacheState, k: int, e: Entity)
    requires LruValid(st) && k !in st.gets
    ensures LruValid(Cached(st, k, e))
    ensures Cached(st, k, e).gets[k] == e
    ensures forall x :: x in st.gets && x != k && (|st.recency| < MaxSize || x != st.recency[0]) ==>
              x in Cached(st, k, e).gets && Cached(st, k, e).gets[x] == st.gets[x]
    ensures Cached(st, k, e).items == st.items && Cached(st, k, e).calls == st.calls
  {
    if |st.recency| >= MaxSize {
      var r := st.recency;
      forall x | x in r[1..] ensures x != r[0] {
        var j :| 0 <= j < |r[1..]| && r[1..][j] == x;
        assert r[j + 1] == x;
      }
      forall i, j | 0 <= i < j < |r[1..] + [k]| ensures (r[1..] + [k])[i] != (r[1..] + [k])[j] {
        if j < |r[1..]| { assert r[1..][i] == r[i + 1] && r[1..][j] == r[j + 1]; }
        else { assert (r[1..] + [k])[i] in r; }
      }
    } else {
      forall i, j | 0 <= i < j < |st.recency + [k]|
        ensures (st.recency + [k])[i] != (st.recency + [k])[j]
      {
        if j == |st.recency| { assert (st.recency + [k])[i] in st.recency; }
      }
    }
  }

  lemma TouchedValid(st: CacheState, k: int)
    requires LruValid(st) && k in st.gets
    ensures LruValid(st.(recency := Touched(st.recency, k)))
  {
    WithoutDistinct(st.recency, k);
    var w := Without(st.recency, k);
    forall i, j | 0 <= i < j < |w + [k]| ensures (w + [k])[i] != (w + [k])[j] {
      if j == |w| { assert (w + [k])[i] in w; }
    }
  }

  // ------------------------------------------------ the calls, as functions

  /** Cached `items`: the memoised tuple if there is one, otherwise `keys()` and the loop. */
  function ItemsStep(kind: EntityKind, srv: Server, st: CacheState): (out: (Result<seq<Entity>>, CacheState))
    ensures out.1.gets == st.gets && out.1.recency == st.recency && out.1.calls >= st.calls
  {
    if st.items.Some? then (Ok(st.items.value), st)
    else
      var f := FetchItems(kind, srv, srv.keys, st.calls + 1);
      if f.result.Ok? then (f.result, st.(items := Some(f.result.value), calls := f.calls))
      else (f.result, st.(calls := f.calls))
  }

  /** The first object whose `id` equals `key`. */
  function FindById(es: seq<Entity>, key: int): (r: Option<nat>)
    ensures r.Some? ==> r.value < |es| && es[r.value].id == key && forall j :: 0 <= j < r.value ==> es[j].id != key
    ensures r.None? ==> forall j :: 0 <= j < |es| ==> es[j].id != key
  {
    if es == [] then None
    else if es[0].id == key then Some(0)
    else
      match FindById(es[1..], key)
      case None => None
      case Some(i) => Some(i + 1)
  }

  /** The search of `OntologyEndpoint.get` / `OctopusEndpoint.get` over `items`. */
  function SearchStep(kind: EntityKind, srv: Server, st: CacheState, key: int): (out: (Result<Entity>, CacheState))
    ensures out.1.gets == st.gets && out.1.recency == st.recency && out.1.calls >= st.calls
  {
    var (items, st1) := ItemsStep(kind, srv, st);
    if items.Err? then (Err(items.error), st1)
    else
      match FindById(items.value, key)
      case None => (Err(NotFound(key)), st1)
      case Some(i) => (Ok(items.value[i]), st1)
  }

  /** One `item(key)` call, building an object from its blob. */
  function ItemStep(srv: Server, st: CacheState, key: int): (out: (Result<Entity>, CacheState))
    ensures out.1 == st.(calls := st.calls + 1)
  {
    if key in srv.blobs then (Ok(Hydrate(srv.blobs[key], st.calls + 1)), st.(calls := st.calls + 1))
    else (Err(NotFound(key)), st.(calls := st.calls + 1))
  }

  /**
   * `get(key)`: the ontology endpoint searches `items` every time; the
   * others are memoised, answering a cached key with the cached object
   * and otherwise searching `items` (octopus) or calling `item`
   * (datasets, models, SSDs), caching only a result that did not raise.
   */
  function GetStep(kind: EntityKind, srv: Server, st: CacheState, key: int): (Result<Entity>, CacheState)
  {
    if kind == OntologyKind then SearchStep(kind, srv, st, key)
    else if key in st.gets then (Ok(st.gets[key]), st.(recency := Touched(st.recency, key)))
    else
      var (r, st1) := if kind == OctopusKind then SearchStep(kind, srv, st, key) else ItemStep(srv, st, key);
      if r.Ok? then (r, Cached(st1, key, r.value)) else (r, st1)
  }

  /** `decache`: only the `items` memo is dropped. */
  function DecacheStep(st: CacheState): CacheState
  {
    st.(items := None)
  }

  /**
   * A `@decache`d `remove(value)`: the `items` memo is dropped first;
   * then `_apply` either raises TypeError or calls `delete` with the key,
   * which the server refuses for a key it does not hold.
   */
  function RemoveStep(kind: EntityKind, srv: Server, st: CacheState, v: Arg): (Outcome, Server, CacheState)
  {
    var st1 := DecacheStep(st);
    match ApplyKey(kind, v)
    case Err(e) => (Fail(e), srv, st1)
    case Ok(key) =>
      var st2 := st1.(calls := st1.calls + 1);
      if key.Some? && key.value in srv.blobs then (Pass, Deleted(srv, key.value), st2)
      else (Fail(ServerError), srv, st2)
  }

  // ------------------------------------------------ properties of the calls

  /** Every call keeps the `get` cache within 32 keys with an exact recency list. */
  lemma GetStepValid(kind: EntityKind, srv: Server, st: CacheState, key: int)
    requires LruValid(st)
    ensures LruValid(GetStep(kind, srv, st, key).1)
  {
    if kind != OntologyKind {
      if key in st.gets {
        TouchedValid(st, key);
      } else {
        var (r, st1) := if kind == OctopusKind then SearchStep(kind, srv, st, key) else ItemStep(srv, st, key);
        if r.Ok? { CachedValid(st1, key, r.value); }
      }
    }
  }

  /**
   * Reading `items` again, with no clear in between, returns the
   * identical objects and makes no API call, whatever the server holds now.
   */
  lemma ItemsCachedRead(kind: EntityKind, srv: Server, later: Server, st: CacheState)
    requires ItemsStep(kind, srv, st).0.Ok?
    ensures var (r, st1) := ItemsStep(kind, srv, st);
      ItemsStep(kind, later, st1) == (r, st1)
  {
  }

  /**
   * An uncached `items` holds one fresh object per key the server lists,
   * in order, each built from its key's blob, with no object repeated.
   */
  lemma ItemsStepFetches(kind: EntityKind, srv: Server, st: CacheState)
    requires st.items.None?
    ensures ItemsStep(kind, srv, st).0.Err? <==> exists i :: 0 <= i < |srv.keys| && srv.keys[i] !in srv.blobs
    ensures var (r, st1) := ItemsStep(kind, srv, st);
      r.Ok? ==>
        && st1.items == Some(r.value)
        && |r.value| == |srv.keys|
        && st1.calls == st.calls + 1 + |srv.keys| * CallsPerKey(kind)
        && (forall i :: 0 <= i < |srv.keys| ==>
              r.value[i].id == srv.blobs[srv.keys[i]].id && r.value[i].fields == srv.blobs[srv.keys[i]].fields
              && st.calls < r.value[i].stamp)
        && (forall i, j :: 0 <= i < j < |srv.keys| ==> r.value[i] != r.value[j])
  {
    FetchItemsSpec(kind, srv, srv.keys, st.calls + 1);
  }

  /**
   * A memoised `get` that succeeded answers the same key again with the
   * identical object and no API call, whatever the server holds now.
   */
  lemma GetCachedRead(kind: EntityKind, srv: Server, later: Server, st: CacheState, key: int)
    requires LruValid(st) && kind != OntologyKind
    requires GetStep(kind, srv, st, key).0.Ok?
    ensures var (r, st1) := GetStep(kind, srv, st, key);
      var (r2, st2) := GetStep(kind, later, st1, key);
      r2 == r && st2.calls == st1.calls && st2.items == st1.items && st2.gets == st1.gets
  {
    GetStepValid(kind, srv, st, key);
    if key !in st.gets {
      var (r, st1) := if kind == OctopusKind then SearchStep(kind, srv, st, key) else ItemStep(srv, st, key);
      CachedValid(st1, key, r.value);
    }
  }

  /**
   * `OntologyEndpoint.get` and an uncached `OctopusEndpoint.get` return
   * the first object of `items` with the given id, and raise when there
   * is none.
   */
  lemma SearchFindsFirst(kind: EntityKind, srv: Server, st: CacheState, key: int)
    requires LruValid(st)
    requires kind == OntologyKind || (kind == OctopusKind && key !in st.gets)
    ensures var (items, _) := ItemsStep(kind, srv, st);
      var (r, _) := GetStep(kind, srv, st, key);
      && (items.Err? ==> r == Err(items.error))
      && (items.Ok? ==>
            && (r.Err? <==> forall j :: 0 <= j < |items.value| ==> items.value[j].id != key)
            && (r.Err? ==> r.error == NotFound(key))
            && (r.Ok? ==> exists i :: 0 <= i < |items.value| && r.value == items.value[i] && r.value.id == key
                           && forall j :: 0 <= j < i ==> items.value[j].id != key))
  {
  }

  /**
   * `decache` runs before the mutation: `remove` drops the `items` memo
   * even when `_apply` raises TypeError, in which case nothing is deleted
   * and no API call is made.
   */
  lemma RemoveClearsItemsFirst(kind: EntityKind, srv: Server, st: CacheState, v: Arg)
    ensures var (_, _, st1) := RemoveStep(kind, srv, st, v);
      st1.items == None && st1.gets == st.gets && st1.recency == st.recency
    ensures ApplyKey(kind, v).Err? ==>
              RemoveStep(kind, srv, st, v) == (Fail(IllegalType), srv, st.(items := None))
  {
  }

  /**
   * `decache` clears only `items`: after the server has deleted a key
   * through `remove`, a memoised `get` of that key still answers with the
   * old object, while `items` is fetched afresh.
   */
  lemma StaleGetAfterRemove(kind: EntityKind, srv: Server, st: CacheState, key: int)
    requires LruValid(st) && kind != OntologyKind && key in st.gets && key in srv.blobs
    ensures var (o, srv1, st1) := RemoveStep(kind, srv, st, IntArg(key));
      && o == Pass && key !in srv1.blobs && key !in srv1.keys
      && LruValid(st1)
      && GetStep(kind, srv1, st1, key).0 == Ok(st.gets[key])
      && ItemsStep(kind, srv1, st1).0 == FetchItems(kind, srv1, srv1.keys, st1.calls + 1).result
  {
  }

  // ------------------------------------------------------ OctopusEndpoint.upload

  /** The arguments `OctopusEndpoint.upload` passes to `post`. */
  datatype OctopusPost = OctopusPost(
    ssds: seq<Option<int>>, name: string, description: string, featureConfig: Option<string>,
    modelType: string, resamplingStrategy: Option<string>, numBags: int, bagSize: int,
    ontologies: seq<Option<int>>,
    modelingProps: Option<map<string, OctopusElement.ModelingProps.PropValue>>)

  /** The first element that is not stored on the server. */
  function FirstUnstored(es: seq<OctopusElement.Element>): (r: Option<nat>)
    ensures r.Some? ==> r.value < |es| && !es[r.value].stored && forall j :: 0 <= j < r.value ==> es[j].stored
    ensures r.None? ==> forall j :: 0 <= j < |es| ==> es[j].stored
  {
    if es == [] then None
    else if !es[0].stored then Some(0)
    else
      match FirstUnstored(es[1..])
      case None => None
      case Some(i) => Some(i + 1)
  }

  function Ids(es: seq<OctopusElement.Element>): seq<Option<int>>
  {
    seq(|es|, i requires 0 <= i < |es| => es[i].id)
  }

  /**
   * The checks and defaults of `OctopusEndpoint.upload`: every SSD, then
   * every ontology, must be stored (a `None` list cannot be iterated);
   * then the ids are sent in list order, with `None` name, description
   * and model type replaced by `"unknown"`, `""` and `"randomForest"`.
   */
  function UploadRequest(ssds: Option<seq<OctopusElement.Element>>,
                         ontologies: Option<seq<OctopusElement.Element>>,
                         c: OctopusElement.Config): Result<OctopusPost>
  {
    if ssds.None? then Err(NoList)
    else if FirstUnstored(ssds.value).Some? then Err(UnstoredSsd(FirstUnstored(ssds.value).value))
    else if ontologies.None? then Err(NoList)
    else if FirstUnstored(ontologies.value).Some? then Err(UnstoredOntology(FirstUnstored(ontologies.value).value))
    else
      Ok(OctopusPost(
        Ids(ssds.value),
        if c.name.Some? then c.name.value else "unknown",
        if c.description.Some? then c.description.value else "",
        c.featureConfig,
        if c.modelType.Some? then c.modelType.value else "randomForest",
        c.resamplingStrategy, c.numBags, c.bagSize,
        Ids(ontologies.value),
        c.modelingProps))
  }

  /**
   * Upload posts exactly when both lists exist and every element is
   * stored.  An unstored SSD is reported by its index, the first one, and
   * before any ontology is looked at; otherwise the first unstored
   * ontology is.  A posted request lists every SSD id and ontology id in
   * order and carries the octopus's settings with the three defaults.
   */
  lemma UploadRequestSpec(ssds: Option<seq<OctopusElement.Element>>,
                          ontologies: Option<seq<OctopusElement.Element>>, c: OctopusElement.Config)
    ensures UploadRequest(ssds, ontologies, c).Ok? <==>
              && ssds.Some? && ontologies.Some?
              && (forall i :: 0 <= i < |ssds.value| ==> ssds.value[i].stored)
              && (forall i :: 0 <= i < |ontologies.value| ==> ontologies.value[i].stored)
    ensures forall i :: ssds.Some? && 0 <= i < |ssds.value| && !ssds.value[i].stored
                        && (forall j :: 0 <= j < i ==> ssds.value[j].stored) ==>
              UploadRequest(ssds, ontologies, c) == Err(UnstoredSsd(i))
    ensures forall i :: ssds.Some? && (forall j :: 0 <= j < |ssds.value| ==> ssds.value[j].stored)
                        && ontologies.Some? && 0 <= i < |ontologies.value| && !ontologies.value[i].stored
                        && (forall j :: 0 <= j < i ==> ontologies.value[j].stored) ==>
              UploadRequest(ssds, ontologies, c) == Err(UnstoredOntology(i))
    ensures var r := UploadRequest(ssds, ontologies, c);
      r.Ok? ==>
        && |r.value.ssds| == |ssds.value| && (forall i :: 0 <= i < |ssds.value| ==> r.value.ssds[i] == ssds.value[i].id)
        && |r.value.ontologies| == |ontologies.value|
        && (forall i :: 0 <= i < |ontologies.value| ==> r.value.ontologies[i] == ontologies.value[i].id)
        && (c.name.Some? ==> r.value.name == c.name.value) && (c.name.None? ==> r.value.name == "unknown")
        && (c.description.Some? ==> r.value.description == c.description.value)
        && (c.description.None? ==> r.value.description == "")
        && (c.modelType.Some? ==> r.value.modelType == c.modelType.value)
        && (c.modelType.None? ==> r.value.modelType == "randomForest")
        && r.value.featureConfig == c.featureConfig && r.value.resamplingStrategy == c.resamplingStrategy
        && r.value.numBags == c.numBags && r.value.bagSize == c.bagSize
        && r.value.modelingProps == c.modelingProps
  {
    if ssds.Some? {
      forall i | 0 <= i < |ssds.value| && !ssds.value[i].stored && (forall j :: 0 <= j < i ==> ssds.value[j].stored)
        ensures FirstUnstored(ssds.value) == Some(i)
      {
      }
    }
    if ontologies.Some? {
      forall i | 0 <= i < |ontologies.value| && !ontologies.value[i].stored
                 && (forall j :: 0 <= j < i ==> ontologies.value[j].stored)
        ensures FirstUnstored(ontologies.value) == Some(i)
      {
      }
    }
  }

  // ------------------------------------------- the update calls as written

  /**
   * `OctopusEndpoint.upload` as written: after the checks it posts, then
   * calls `octopus.update(response, self._session)` with two of the six
   * arguments `Octopus.update` takes, which raises TypeError.  The pair is
   * the outcome and whether the post was made.
   */
  function UploadAsWritten(ssds: Option<seq<OctopusElement.Element>>,
                           ontologies: Option<seq<OctopusElement.Element>>,
                           c: OctopusElement.Config): (Outcome, bool)
  {
    match UploadRequest(ssds, ontologies, c)
    case Err(e) => (Fail(e), false)
    case Ok(_) => (Fail(UpdateArity), true)
  }

  /**
   * As written, no upload succeeds: every octopus that passes the checks
   * is posted and then raises TypeError, even one with no SSDs and no
   * ontologies, which `Endpoint.Upload` posts and updates.
   */
  lemma UploadAsWrittenNeverSucceeds(ssds: Option<seq<OctopusElement.Element>>,
                                     ontologies: Option<seq<OctopusElement.Element>>,
                                     c: OctopusElement.Config)
    ensures UploadAsWritten(ssds, ontologies, c).0.Fail?
    ensures UploadAsWritten(ssds, ontologies, c).1 <==> UploadRequest(ssds, ontologies, c).Ok?
    ensures UploadRequest(ssds, ontologies, c).Ok? ==>
              UploadAsWritten(ssds, ontologies, c) == (Fail(UpdateArity), true)
    ensures ssds == Some([]) && ontologies == Some([]) ==>
              UploadRequest(ssds, ontologies, c).Ok? && UploadAsWritten(ssds, ontologies, c).0 == Fail(UpdateArity)
  {
  }

  /**
   * `OctopusEndpoint.items` as written: for the first key it calls
   * `item`, then `Octopus().update(blob, self._session)`, which raises
   * TypeError; only a server with no octopus yields a tuple.
   */
  function OctopusItemsAsWritten(srv: Server, calls: nat): (f: Fetched)
  {
    if srv.keys == [] then Fetched(Ok([]), calls)
    else if srv.keys[0] !in srv.blobs then Fetched(Err(NotFound(srv.keys[0])), calls + 1)
    else Fetched(Err(UpdateArity), calls + 1)
  }

  /**
   * As written, `items` of the octopus endpoint raises for every non-empty
   * server, so the octopus `get` raises too; the modelled loop yields one
   * object per key whenever the server holds every key it lists.
   */
  lemma OctopusItemsAsWrittenFails(srv: Server, calls: nat)
    ensures OctopusItemsAsWritten(srv, calls).result.Ok? <==> srv.keys == []
    ensures (forall i :: 0 <= i < |srv.keys| ==> srv.keys[i] in srv.blobs) ==>
              && FetchItems(OctopusKind, srv, srv.keys, calls).result.Ok?
              && |FetchItems(OctopusKind, srv, srv.keys, calls).result.value| == |srv.keys|
  {
    FetchItemsSpec(OctopusKind, srv, srv.keys, calls);
  }

  // ------------------------------------------------------------ the endpoint

  /** One endpoint object with its memo state, over its part of the server. */
  class Endpoint {
    const kind: EntityKind
    var server: Server
    var itemsCache: Option<seq<Entity>>
    var getCache: map<int, Entity>
    var recency: seq<int>
    var calls: nat

    function State(): CacheState
      reads this
    {
      CacheState(itemsCache, getCache, recency, calls)
    }

    ghost predicate Valid()
      reads this
    {
      LruValid(State())
    }

    constructor (kind: EntityKind, server: Server)
      ensures Valid()
      ensures this.kind == kind && this.server == server
      ensures State() == CacheState(None, map[], [], 0)
    {
      this.kind := kind;
      this.server := server;
      this.itemsCache := None;
      this.getCache := map[];
      this.recency := [];
      this.calls := 0;
    }

    /** The cached `items` property, with its loop over `keys()`. */
    method Items() returns (r: Result<seq<Entity>>)
      requires Valid()
      modifies this
      ensures Valid() && server == old(server)
      ensures (r, State()) == ItemsStep(kind, server, old(State()))
    {
      if itemsCache.Some? {
        return Ok(itemsCache.value);
      }
      calls := calls + 1;
      var f := FetchKeys(server.keys, calls);
      calls := f.calls;
      if f.result.Ok? {
        itemsCache := Some(f.result.value);
      }
      r := f.result;
    }

    /** The loop of `items`: one `item` request (two for ontologies) per key, in key order. */
    method FetchKeys(keys: seq<int>, start: nat) returns (f: Fetched)
      ensures f == FetchItems(kind, server, keys, start)
    {
      var c := start;
      var found: seq<Entity> := [];
      for i := 0 to |keys|
        invariant FetchItems(kind, server, keys[..i], start) == Fetched(Ok(found), c)
      {
        assert keys[..i + 1][..i] == keys[..i];
        var k := keys[i];
        if k !in server.blobs {
          FetchItemsErrPersists(kind, server, keys, i + 1, start);
          assert keys[..|keys|] == keys;
          return Fetched(Err(NotFound(k)), c + 1);
        }
        if kind == OntologyKind {
          c := c + 1;
        }
        c := c + 1;
        found := found + [Hydrate(server.blobs[k], c)];
      }
      assert keys[..|keys|] == keys;
      f := Fetched(Ok(found), c);
    }

    /** The loop of `get` over `items`: the first object with the given id. */
    method Search(key: int) returns (r: Result<Entity>)
      requires Valid()
      modifies this
      ensures Valid() && server == old(server)
      ensures (r, State()) == SearchStep(kind, server, old(State()), key)
    {
      var items := Items();
      if items.Err? {
        return Err(items.error);
      }
      var es := items.value;
      var i := 0;
      while i < |es|
        invariant 0 <= i <= |es|
        invariant forall j :: 0 <= j < i ==> es[j].id != key
      {
        if es[i].id == key {
          return Ok(es[i]);
        }
        i := i + 1;
      }
      r := Err(NotFound(key));
    }

    /** `item(key)`, building a new object from the blob. */
    method FetchItem(key: int) returns (r: Result<Entity>)
      requires Valid()
      modifies this
      ensures Valid() && server == old(server)
      ensures (r, State()) == ItemStep(server, old(State()), key)
    {
      calls := calls + 1;
      if key !in server.blobs {
        return Err(NotFound(key));
      }
      r := Ok(Hydrate(server.blobs[key], calls));
    }

    /** Storing a new `get` result, evicting the least recently used key when full. */
    method CacheResult(key: int, e: Entity)
      requires Valid() && key !in getCache
      modifies this
      ensures Valid() && server == old(server)
      ensures State() == Cached(old(State()), key, e)
    {
      CachedValid(State(), key, e);
      if |recency| >= MaxSize {
        getCache := getCache - {recency[0]};
        recency := recency[1..];
      }
      getCache := getCache[key := e];
      recency := recency + [key];
    }

    /** `get(key)`, memoised except on the ontology endpoint. */
    method Get(key: int) returns (r: Result<Entity>)
      requires Valid()
      modifies this
      ensures Valid() && server == old(server)
      ensures (r, State()) == GetStep(kind, server, old(State()), key)
    {
      if kind == OntologyKind {
        r := Search(key);
        return;
      }
      if key in getCache {
        TouchedValid(State(), key);
        recency := Touched(recency, key);
        return Ok(getCache[key]);
      }
      if kind == OctopusKind {
        r := Search(key);
      } else {
        r := FetchItem(key);
      }
      if r.Ok? {
        CacheResult(key, r.value);
      }
    }

    /** The cache clearing of `decache`. */
    method Decache()
      modifies this
      ensures server == old(server)
      ensures State() == DecacheStep(old(State()))
    {
      itemsCache := None;
    }

    /** `remove(value)` under `decache`. */
    method Remove(v: Arg) returns (r: Outcome)
      requires Valid()
      modifies this
      ensures Valid()
      ensures (r, server, State()) == RemoveStep(kind, old(server), old(State()), v)
    {
      Decache();
      var key := ApplyKey(kind, v);
      if key.Err? {
        return Fail(key.error);
      }
      calls := calls + 1;
      if key.value.None? || key.value.value !in server.blobs {
        return Fail(ServerError);
      }
      server := Deleted(server, key.value.value);
      r := Pass;
    }

    /**
     * `OctopusEndpoint.upload(octopus)` under `decache`: the `items`
     * memo is dropped, then either an unstored dependency raises before
     * anything is posted, or the request is posted (the server becomes
     * `posted` and answers `response`) and the octopus is updated from
     * the response through the given endpoint lookups.
     */
    method Upload(octo: OctopusElement.Octopus, response: OctopusElement.OctopusJson, posted: Server,
                  ssdOf: int -> Result<OctopusElement.Element>,
                  ontologyOf: int -> Result<OctopusElement.Element>,
                  matcherOf: int -> Result<OctopusElement.Matcher>) returns (r: Outcome)
      requires Valid() && kind == OctopusKind && octo.Valid()
      modifies this, octo
      ensures Valid() && octo.Valid()
      ensures itemsCache == None && getCache == old(getCache) && recency == old(recency)
      ensures var req := UploadRequest(old(octo.ssds), old(octo.ontologies), old(octo.Settings()));
        && (req.Err? ==> r == Fail(req.error) && server == old(server) && calls == old(calls)
                         && unchanged(octo))
        && (req.Ok? ==> server == posted && calls == old(calls) + 1
                        && r == OctopusElement.UpdateOutcome(response, ssdOf, ontologyOf, matcherOf)
                        && octo.stored && octo.id == Some(response.id))
        && (req.Ok? && r == Pass ==>
              && octo.ssds == Some(OctopusElement.FetchAll(response.ssds, ssdOf).value)
              && octo.ontologies == Some(OctopusElement.FetchAll(response.ontologies, ontologyOf).value)
              && octo.Settings() == OctopusElement.Hydrated(response, matcherOf(response.lobsterId).value))
    {
      Decache();
      var req := UploadRequest(octo.ssds, octo.ontologies, octo.Settings());
      if req.Err? {
        return Fail(req.error);
      }
      server := posted;
      calls := calls + 1;
      r := octo.Update(response, ssdOf, ontologyOf, matcherOf);
    }
  }
}
