/**
 * The local state of an `Octopus`: constructor validation, hydration from
 * the server's JSON by `update`, and the `add` / `remove` mutators that
 * make the local object differ from its stored copy.
 */
module OctopusElement {
  import opened Common
  import ModelingProps

  /**
   * A local SSD or Ontology object as the octopus sees it: `ref` is the
   * object's identity, `id` its server id if it has one.
   */
  datatype Element = Element(ref: nat, id: Option<int>, stored: bool)

  /** The argument of `add` / `remove`, by its runtime class. */
  datatype Value = SsdValue(ssd: Element) | OntologyValue(ontology: Element) | OtherValue

  /** The fetched schema matcher: the fields `update` copies from it. */
  datatype Matcher = Matcher(features: Option<string>, modelType: Option<string>,
                             resamplingStrategy: Option<string>, numBags: int, bagSize: int)

  /** The fields of the server's octopus JSON that `update` reads. */
  datatype OctopusJson = OctopusJson(
    id: int, name: string, description: string, dateCreated: string, dateModified: string,
    ssds: seq<int>, ontologies: seq<int>, lobsterId: int,
    modelingProps: Option<map<string, ModelingProps.PropValue>>,
    semanticTypeMap: map<string, string>, state: string)

  /** The octopus settings other than its identity and its two lists. */
  datatype Config = Config(
    name: Option<string>, description: Option<string>, featureConfig: Option<string>,
    modelType: Option<string>, resamplingStrategy: Option<string>, numBags: int, bagSize: int,
    modelingProps: Option<map<string, ModelingProps.PropValue>>, modelId: Option<int>,
    matcher: Option<Matcher>, semanticTypeMap: Option<map<string, string>>,
    state: Option<string>, dateCreated: Option<string>, dateModified: Option<string>)

  /**
   * The two value checks of `__init__`: the model type, then the
   * resampling strategy, must be among the allowed values.
   */
  function ValidateInit(modelType: Option<string>, resamplingStrategy: Option<string>,
                        modelTypes: set<string>, strategies: set<string>): (o: Outcome)
    ensures o == Pass <==> (modelType.Some? && modelType.value in modelTypes
                            && resamplingStrategy.Some? && resamplingStrategy.value in strategies)
    ensures o.Fail? ==> (o.error == InvalidModelType <==> !(modelType.Some? && modelType.value in modelTypes))
    ensures o.Fail? ==> o.error == InvalidModelType || o.error == InvalidSamplingStrategy
  {
    if !(modelType.Some? && modelType.value in modelTypes) then Fail(InvalidModelType)
    else if !(resamplingStrategy.Some? && resamplingStrategy.value in strategies) then Fail(InvalidSamplingStrategy)
    else Pass
  }

  /** One fetched value per id, in order, or the first lookup's error (a list comprehension). */
  function FetchAll<T>(ids: seq<int>, lookup: int -> Result<T>): Result<seq<T>>
  {
    if ids == [] then Ok([])
    else
      match FetchAll(ids[..|ids| - 1], lookup)
      case Err(e) => Err(e)
      case Ok(vs) =>
        match lookup(ids[|ids| - 1])
        case Err(e) => Err(e)
        case Ok(v) => Ok(vs + [v])
  }

  /** The comprehension fails exactly when some lookup does; otherwise entry `i` is id `i`'s value. */
  lemma {:induction false} FetchAllSpec<T>(ids: seq<int>, lookup: int -> Result<T>)
    ensures FetchAll(ids, lookup).Err? <==> exists i :: 0 <= i < |ids| && lookup(ids[i]).Err?
    ensures FetchAll(ids, lookup).Ok? ==>
              |FetchAll(ids, lookup).value| == |ids| &&
              forall i :: 0 <= i < |ids| ==> lookup(ids[i]) == Ok(FetchAll(ids, lookup).value[i])
    decreases |ids|
  {
    if ids != [] {
      var front := ids[..|ids| - 1];
      FetchAllSpec(front, lookup);
      assert forall i :: 0 <= i < |front| ==> front[i] == ids[i];
    }
  }

  /** The first index of `x` in `s`. */
  function IndexOf<T(==)>(s: seq<T>, x: T): (i: nat)
    requires x in s
    ensures i < |s| && s[i] == x && forall j :: 0 <= j < i ==> s[j] != x
  {
    if s[0] == x then 0 else 1 + IndexOf(s[1..], x)
  }

  /** `list.remove(x)` on a list that holds `x`: its first occurrence is dropped. */
  function RemoveFirst<T(==)>(s: seq<T>, x: T): (r: seq<T>)
    requires x in s
    ensures |r| == |s| - 1
  {
    var i := IndexOf(s, x);
    s[..i] + s[i + 1..]
  }

  /** Removing the first occurrence takes out exactly one copy and keeps the others in order. */
  lemma RemoveFirstSpec<T>(s: seq<T>, x: T)
    requires x in s
    ensures multiset(RemoveFirst(s, x)) == multiset(s) - multiset{x}
    ensures exists i :: 0 <= i < |s| && s[i] == x && (forall j :: 0 <= j < i ==> s[j] != x)
                        && RemoveFirst(s, x) == s[..i] + s[i + 1..]
  {
    var i := IndexOf(s, x);
    assert s == s[..i] + [x] + s[i + 1..];
  }

  /** The first fetch that raises in `update`: the SSDs, then the ontologies, then the matcher. */
  function UpdateOutcome(json: OctopusJson, ssdOf: int -> Result<Element>, ontologyOf: int -> Result<Element>,
                         matcherOf: int -> Result<Matcher>): (o: Outcome)
    ensures o == Pass <==>
              FetchAll(json.ssds, ssdOf).Ok? && FetchAll(json.ontologies, ontologyOf).Ok?
              && matcherOf(json.lobsterId).Ok?
  {
    if FetchAll(json.ssds, ssdOf).Err? then Fail(FetchAll(json.ssds, ssdOf).error)
    else if FetchAll(json.ontologies, ontologyOf).Err? then Fail(FetchAll(json.ontologies, ontologyOf).error)
    else if matcherOf(json.lobsterId).Err? then Fail(matcherOf(json.lobsterId).error)
    else Pass
  }

  /** The settings once `update` has copied the name, description and dates. */
  function Described(c: Config, json: OctopusJson): Config
  {
    c.(name := Some(json.name), description := Some(json.description),
       dateCreated := Some(json.dateCreated), dateModified := Some(json.dateModified))
  }

  /**
   * The settings after a complete `update`: everything from the JSON,
   * and the feature config, model type, resampling strategy, bag count
   * and bag size from the fetched matcher.
   */
  function Hydrated(json: OctopusJson, m: Matcher): Config
  {
    Config(Some(json.name), Some(json.description), m.features, m.modelType, m.resamplingStrategy,
           m.numBags, m.bagSize, json.modelingProps, Some(json.lobsterId), Some(m),
           Some(json.semanticTypeMap), Some(json.state), Some(json.dateCreated), Some(json.dateModified))
  }

  class Octopus {
    var id: Option<int>
    var stored: bool
    var ssds: Option<seq<Element>>
    var ontologies: Option<seq<Element>>
    var name: Option<string>
    var description: Option<string>
    var featureConfig: Option<string>
    var modelType: Option<string>
    var resamplingStrategy: Option<string>
    var numBags: int
    var bagSize: int
    var modelingProps: Option<map<string, ModelingProps.PropValue>>
    var modelId: Option<int>
    var matcher: Option<Matcher>
    var semanticTypeMap: Option<map<string, string>>
    var state: Option<string>
    var dateCreated: Option<string>
    var dateModified: Option<string>

    /** A stored octopus always has a server id. */
    ghost predicate Valid()
      reads this
    {
      stored ==> id.Some?
    }

    function Settings(): Config
      reads this
    {
      Config(name, description, featureConfig, modelType, resamplingStrategy, numBags, bagSize,
             modelingProps, modelId, matcher, semanticTypeMap, state, dateCreated, dateModified)
    }

    /** The field assignments of `__init__`, once its checks have passed. */
    constructor (ssds: Option<seq<Element>>, name: Option<string>, description: Option<string>,
                 featureConfig: Option<string>, modelType: Option<string>,
                 resamplingStrategy: Option<string>, numBags: int, bagSize: int,
                 ontologies: Option<seq<Element>>,
                 modelingProps: Option<map<string, ModelingProps.PropValue>>)
      ensures Valid()
      ensures id == None && !stored
      ensures this.ssds == ssds && this.ontologies == ontologies
      ensures Settings() == Config(name, description, featureConfig, modelType, resamplingStrategy,
                                   numBags, bagSize, modelingProps, None, None, None, None, None, None)
    {
      this.id := None;
      this.stored := false;
      this.dateCreated := None;
      this.dateModified := None;
      this.ssds := ssds;
      this.ontologies := ontologies;
      this.name := name;
      this.description := description;
      this.featureConfig := featureConfig;
      this.modelType := modelType;
      this.resamplingStrategy := resamplingStrategy;
      this.numBags := numBags;
      this.bagSize := bagSize;
      this.modelingProps := modelingProps;
      this.modelId := None;
      this.matcher := None;
      this.semanticTypeMap := None;
      this.state := None;
    }

    /**
     * `Octopus(...)`: raises for a model type or resampling strategy
     * outside the allowed values, and otherwise yields a local,
     * unstored octopus holding the arguments.
     */
    static method Create(ssds: Option<seq<Element>>, name: Option<string>, description: Option<string>,
                         featureConfig: Option<string>, modelType: Option<string>,
                         resamplingStrategy: Option<string>, numBags: int, bagSize: int,
                         ontologies: Option<seq<Element>>,
                         modelingProps: Option<map<string, ModelingProps.PropValue>>,
                         modelTypes: set<string>, strategies: set<string>)
      returns (r: Result<Octopus>)
      ensures r.Err? <==> ValidateInit(modelType, resamplingStrategy, modelTypes, strategies).Fail?
      ensures r.Err? ==> r.error == ValidateInit(modelType, resamplingStrategy, modelTypes, strategies).error
      ensures r.Ok? ==> fresh(r.value) && r.value.Valid() && r.value.id == None && !r.value.stored
      ensures r.Ok? ==> r.value.ssds == ssds && r.value.ontologies == ontologies
      ensures r.Ok? ==>
                r.value.Settings() ==
                Config(name, description, featureConfig, modelType, resamplingStrategy,
                       numBags, bagSize, modelingProps, None, None, None, None, None, None)
    {
      var check := ValidateInit(modelType, resamplingStrategy, modelTypes, strategies);
      if check.Fail? {
        return Err(check.error);
      }
      var o := new Octopus(ssds, name, description, featureConfig, modelType, resamplingStrategy,
                           numBags, bagSize, ontologies, modelingProps);
      r := Ok(o);
    }

    /**
     * `update(json, ...)`: marks the octopus stored under the JSON's id,
     * copies its name, description and dates, then fetches each SSD,
     * each ontology and the matcher through the given endpoint lookups,
     * then copies the remaining fields and the matcher's settings.  A
     * failing fetch raises and leaves the assignments made so far.
     */
    method Update(json: OctopusJson, ssdOf: int -> Result<Element>, ontologyOf: int -> Result<Element>,
                  matcherOf: int -> Result<Matcher>) returns (r: Outcome)
      modifies this
      ensures Valid()
      ensures stored && id == Some(json.id)
      ensures r == UpdateOutcome(json, ssdOf, ontologyOf, matcherOf)
      ensures FetchAll(json.ssds, ssdOf).Err? ==>
                ssds == old(ssds) && ontologies == old(ontologies)
                && Settings() == Described(old(Settings()), json)
      ensures FetchAll(json.ssds, ssdOf).Ok? ==> ssds == Some(FetchAll(json.ssds, ssdOf).value)
      ensures FetchAll(json.ssds, ssdOf).Ok? && FetchAll(json.ontologies, ontologyOf).Err? ==>
                ontologies == old(ontologies) && Settings() == Described(old(Settings()), json)
      ensures FetchAll(json.ssds, ssdOf).Ok? && FetchAll(json.ontologies, ontologyOf).Ok? ==>
                ontologies == Some(FetchAll(json.ontologies, ontologyOf).value)
      ensures FetchAll(json.ssds, ssdOf).Ok? && FetchAll(json.ontologies, ontologyOf).Ok?
              && matcherOf(json.lobsterId).Err? ==>
                Settings() == Described(old(Settings()), json).(modelId := Some(json.lobsterId))
      ensures r == Pass ==> Settings() == Hydrated(json, matcherOf(json.lobsterId).value)
    {
      MarkStored(json);
      var fetchedSsds := FetchAll(json.ssds, ssdOf);
      if fetchedSsds.Err? {
        return Fail(fetchedSsds.error);
      }
      ssds := Some(fetchedSsds.value);
      var fetchedOntologies := FetchAll(json.ontologies, ontologyOf);
      if fetchedOntologies.Err? {
        return Fail(fetchedOntologies.error);
      }
      ontologies := Some(fetchedOntologies.value);
      modelId := Some(json.lobsterId);
      var fetchedMatcher := matcherOf(json.lobsterId);
      if fetchedMatcher.Err? {
        return Fail(fetchedMatcher.error);
      }
      AdoptJson(json, fetchedMatcher.value);
      AdoptMatcher(fetchedMatcher.value);
      r := Pass;
    }

    /** The first assignments of `update`: stored, name, description, dates and id. */
    method MarkStored(json: OctopusJson)
      modifies this
      ensures stored && id == Some(json.id)
      ensures ssds == old(ssds) && ontologies == old(ontologies)
      ensures Settings() == Described(old(Settings()), json)
    {
      stored := true;
      Describe(json);
      id := Some(json.id);
    }

    /** The name, description and dates copied from the JSON. */
    method Describe(json: OctopusJson)
      modifies this
      ensures stored == old(stored) && id == old(id)
      ensures ssds == old(ssds) && ontologies == old(ontologies)
      ensures Settings() == Described(old(Settings()), json)
    {
      name := Some(json.name);
      description := Some(json.description);
      dateCreated := Some(json.dateCreated);
      dateModified := Some(json.dateModified);
    }

    /** The last assignments of `update`: the matcher and the JSON's remaining fields. */
    method AdoptJson(json: OctopusJson, m: Matcher)
      modifies this
      ensures stored == old(stored) && id == old(id)
      ensures ssds == old(ssds) && ontologies == old(ontologies)
      ensures Settings() ==
                old(Settings()).(matcher := Some(m), modelingProps := json.modelingProps,
                                 semanticTypeMap := Some(json.semanticTypeMap), state := Some(json.state))
    {
      matcher := Some(m);
      modelingProps := json.modelingProps;
      semanticTypeMap := Some(json.semanticTypeMap);
      state := Some(json.state);
    }

    /** The matcher's settings copied onto the octopus. */
    method AdoptMatcher(m: Matcher)
      modifies this
      ensures stored == old(stored) && id == old(id)
      ensures ssds == old(ssds) && ontologies == old(ontologies)
      ensures Settings() ==
                old(Settings()).(featureConfig := m.features, modelType := m.modelType,
                                 resamplingStrategy := m.resamplingStrategy,
                                 numBags := m.numBags, bagSize := m.bagSize)
    {
      featureConfig := m.features;
      modelType := m.modelType;
      resamplingStrategy := m.resamplingStrategy;
      numBags := m.numBags;
      bagSize := m.bagSize;
    }

    /**
     * `add(value)`: an SSD goes to the end of `ssds`, an ontology to the
     * end of `ontologies`, and the octopus is no longer stored; a list
     * that is `None` raises after `stored` is cleared.  Any other value
     * raises with nothing changed.
     */
    method Add(v: Value) returns (r: Outcome)
      requires Valid()
      modifies this
      ensures Valid()
      ensures id == old(id) && Settings() == old(Settings())
      ensures v.OtherValue? ==>
                r == Fail(NotSsdOrOntology) && stored == old(stored)
                && ssds == old(ssds) && ontologies == old(ontologies)
      ensures v.SsdValue? ==>
                !stored && ontologies == old(ontologies)
                && (old(ssds).None? ==> r == Fail(NoList) && ssds == None)
                && (old(ssds).Some? ==> r == Pass && ssds == Some(old(ssds).value + [v.ssd]))
      ensures v.OntologyValue? ==>
                !stored && ssds == old(ssds)
                && (old(ontologies).None? ==> r == Fail(NoList) && ontologies == None)
                && (old(ontologies).Some? ==> r == Pass && ontologies == Some(old(ontologies).value + [v.ontology]))
    {
      match v
      case SsdValue(e) =>
        stored := false;
        if ssds.None? {
          return Fail(NoList);
        }
        ssds := Some(ssds.value + [e]);
        r := Pass;
      case OntologyValue(e) =>
        stored := false;
        if ontologies.None? {
          return Fail(NoList);
        }
        ontologies := Some(ontologies.value + [e]);
        r := Pass;
      case OtherValue =>
        r := Fail(NotSsdOrOntology);
    }

    /**
     * `remove(value)`: the first occurrence of an SSD (an ontology) is
     * dropped from `ssds` (`ontologies`) and the octopus is no longer
     * stored.  `stored` is cleared before the list is searched, so an
     * absent value or a `None` list raises with `stored` already false
     * and the list unchanged.  Any other value raises with nothing changed.
     */
    method Remove(v: Value) returns (r: Outcome)
      requires Valid()
      modifies this
      ensures Valid()
      ensures id == old(id) && Settings() == old(Settings())
      ensures v.OtherValue? ==>
                r == Fail(NotSsdOrOntology) && stored == old(stored)
                && ssds == old(ssds) && ontologies == old(ontologies)
      ensures v.SsdValue? ==>
                !stored && ontologies == old(ontologies)
                && (old(ssds).None? ==> r == Fail(NoList) && ssds == None)
                && (old(ssds).Some? && v.ssd !in old(ssds).value ==> r == Fail(NotInList) && ssds == old(ssds))
                && (old(ssds).Some? && v.ssd in old(ssds).value ==>
                      r == Pass && ssds == Some(RemoveFirst(old(ssds).value, v.ssd)))
      ensures v.OntologyValue? ==>
                !stored && ssds == old(ssds)
                && (old(ontologies).None? ==> r == Fail(NoList) && ontologies == None)
                && (old(ontologies).Some? && v.ontology !in old(ontologies).value ==>
                      r == Fail(NotInList) && ontologies == old(ontologies))
                && (old(ontologies).Some? && v.ontology in old(ontologies).value ==>
                      r == Pass && ontologies == Some(RemoveFirst(old(ontologies).value, v.ontology)))
    {
      match v
      case SsdValue(e) =>
        stored := false;
        if ssds.None? {
          return Fail(NoList);
        }
        if e !in ssds.value {
          return Fail(NotInList);
        }
        ssds := Some(RemoveFirst(ssds.value, e));
        r := Pass;
      case OntologyValue(e) =>
        stored := false;
        if ontologies.None? {
          return Fail(NoList);
        }
        if e !in ontologies.value {
          return Fail(NotInList);
        }
        ontologies := Some(RemoveFirst(ontologies.value, e));
        r := Pass;
      case OtherValue =>
        r := Fail(NotSsdOrOntology);
    }

    /** `check_modeling_props` on this octopus's properties. */
    function CheckModelingProps(): (o: Outcome)
      reads this
      ensures o == Pass <==>
                modelingProps.None? ||
                forall i :: 0 <= i < |ModelingProps.Checks()| ==>
                  ModelingProps.Passes(modelingProps.value, ModelingProps.Checks()[i])
    {
      ModelingProps.CheckModelingPropsSpec(modelingProps);
      ModelingProps.CheckModelingProps(modelingProps)
    }
  }

  /**
   * Adding, then removing, the same SSD leaves the octopus unstored with
   * the same SSDs; their order is restored too unless the SSD was already
   * listed, in which case its earlier copy is the one removed.
   */
  method AddThenRemove(o: Octopus, e: Element) returns (r1: Outcome, r2: Outcome)
    requires o.Valid() && o.ssds.Some?
    modifies o
    ensures r1 == Pass && r2 == Pass
    ensures !o.stored && o.ssds.Some? && o.ontologies == old(o.ontologies)
    ensures multiset(o.ssds.value) == multiset(old(o.ssds.value))
    ensures e !in old(o.ssds.value) ==> o.ssds == old(o.ssds)
    ensures o.id == old(o.id)
  {
    ghost var before := o.ssds.value;
    r1 := o.Add(SsdValue(e));
    assert o.ssds.value == before + [e];
    r2 := o.Remove(SsdValue(e));
    RemoveFirstSpec(before + [e], e);
    AddedLastRemovesFirst(before, e);
  }

  /**
   * `add` on a stored octopus clears `stored` but keeps the server id: a
   * local octopus may still carry the id of its stored copy, which is why
   * `Valid` asks only that a stored octopus have an id.
   */
  method AddKeepsId(o: Octopus, v: Value) returns (r: Outcome)
    requires o.Valid() && o.stored && o.ssds.Some? && o.ontologies.Some? && !v.OtherValue?
    modifies o
    ensures r == Pass && !o.stored && o.id.Some? && o.id == old(o.id)
  {
    r := o.Add(v);
  }

  /**
   * Removing the first copy of `e` from `s + [e]` gives back `s` only when
   * `s` holds no copy of `e`; otherwise an earlier copy is the one removed.
   */
  lemma AddedLastRemovesFirst<T>(s: seq<T>, e: T)
    ensures e !in s ==> RemoveFirst(s + [e], e) == s
    ensures e in s ==> RemoveFirst(s + [e], e) == RemoveFirst(s, e) + [e]
  {
    var t := s + [e];
    var i := IndexOf(t, e);
    if e in s {
      var k := IndexOf(s, e);
      assert t[k] == e;
      assert i == k;
      assert t[..i] == s[..i];
      assert t[i + 1..] == s[i + 1..] + [e];
    } else {
      assert i == |s|;
      assert t[..i] == s;
    }
  }
}
