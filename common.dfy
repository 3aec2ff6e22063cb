/** Shared failure-compatible wrappers and the exceptions the client raises. */
module Common {

  datatype Option<+T> = None | Some(value: T)

  /** A computation that either yields a value or raises. */
  datatype Result<+T> = Ok(value: T) | Err(error: Error)

  /** A computation that returns nothing useful or raises. */
  datatype Outcome = Pass | Fail(error: Error)

  /**
   * The exceptions raised by the modelled code, one constructor per raise
   * site kind.  The comment names the Python exception class.
   */
  datatype Error =
    | InvalidModelType               // ValueError from Octopus.__init__
    | InvalidSamplingStrategy        // ValueError from Octopus.__init__
    | PropOutOfRange(name: string)   // ValueError from check_modeling_props
    | PropNotComparable(name: string) // TypeError from comparing a non-number
    | NotSsdOrOntology               // ValueError from Octopus.add / remove
    | NotInList                      // ValueError from list.remove
    | NoList                         // AttributeError / TypeError on a None list
    | IllegalType                    // TypeError from IdentifiableEndpoint._apply
    | UnstoredSsd(index: nat)        // ValueError from OctopusEndpoint.upload
    | UnstoredOntology(index: nat)   // ValueError from OctopusEndpoint.upload
    | BadLinkId(linkId: string)      // ValueError from unpacking the split link id
    | UnknownNode(nodeId: string)    // KeyError from node_map
    | MissingUri(nodeId: string)     // KeyError from node["label"]["uri"]
    | MissingEdgeValue(entry: string) // IndexError from pos[1]
    | NotStored                      // Exception: octopus not on the server
    | NotTrained                     // Exception: octopus not trained
    | NotFound(key: int)             // Exception from a lookup by id
    | ServerError                    // an error surfaced by the server API
    | UpdateArity                    // TypeError: Octopus.update given 2 of its 6 arguments

  /** The values of a run of results, or the first error: a loop that raises at the first failure. */
  function AllOk<T>(rs: seq<Result<T>>): (r: Result<seq<T>>)
    ensures r.Ok? ==> |r.value| == |rs|
  {
    if rs == [] then Ok([])
    else
      match AllOk(rs[..|rs| - 1])
      case Err(e) => Err(e)
      case Ok(vs) =>
        match rs[|rs| - 1]
        case Err(e) => Err(e)
        case Ok(v) => Ok(vs + [v])
  }

  /** Once a prefix has failed, the whole run fails with the same error. */
  lemma {:induction false} AllOkErrPersists<T>(rs: seq<Result<T>>, k: nat, e: Error)
    requires k <= |rs| && AllOk(rs[..k]) == Err(e)
    ensures AllOk(rs) == Err(e)
    decreases |rs| - k
  {
    if k < |rs| {
      var front := rs[..|rs| - 1];
      assert front[..k] == rs[..k];
      AllOkErrPersists(front, k, e);
    } else {
      assert rs[..k] == rs;
    }
  }

  /** One more result: an error ends the run, a value extends it. */
  lemma AllOkStep<T>(rs: seq<Result<T>>, i: nat, vs: seq<T>)
    requires i < |rs| && AllOk(rs[..i]) == Ok(vs)
    ensures rs[i].Err? ==> AllOk(rs) == Err(rs[i].error)
    ensures rs[i].Ok? ==> AllOk(rs[..i + 1]) == Ok(vs + [rs[i].value])
  {
    assert rs[..i + 1][..i] == rs[..i];
    if rs[i].Err? {
      AllOkErrPersists(rs, i + 1, rs[i].error);
    }
  }

  /** The run fails exactly when some result is an error; otherwise value `i` is result `i`'s. */
  lemma {:induction false} AllOkSpec<T>(rs: seq<Result<T>>)
    ensures AllOk(rs).Err? <==> exists i :: 0 <= i < |rs| && rs[i].Err?
    ensures AllOk(rs).Ok? ==> forall i :: 0 <= i < |rs| ==> rs[i] == Ok(AllOk(rs).value[i])
    decreases |rs|
  {
    if rs != [] {
      var front := rs[..|rs| - 1];
      AllOkSpec(front);
      assert forall i :: 0 <= i < |front| ==> front[i] == rs[i];
    }
  }
}
