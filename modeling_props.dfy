/**
 * `Octopus.check_modeling_props`: the range checks on the optional
 * modelling properties of an octopus, with Python's comparison semantics
 * for floats (infinities and NaN) and for values that are not numbers.
 */
module ModelingProps {
  import opened Common

  /** A Python float or int as an extended real; `bool` values are the numbers 0 and 1. */
  datatype Ext = Finite(r: real) | PosInf | NegInf | NaN

  /** A property value: a number, or anything `<` refuses to compare with a number. */
  datatype PropValue = Number(x: Ext) | NonNumeric

  /** Python's `a < b` (`orEqual` false) or `a <= b` (`orEqual` true); false whenever NaN is involved. */
  predicate Below(a: Ext, b: Ext, orEqual: bool)
  {
    if a.NaN? || b.NaN? then false
    else if a.Finite? && b.Finite? then (if orEqual then a.r <= b.r else a.r < b.r)
    else if a == b then orEqual
    else a.NegInf? || b.PosInf?
  }

  /** `in_range(x, a, b, inclusive)`: the chained comparison `a <= x <= b` or `a < x < b`. */
  predicate InRange(x: Ext, a: Ext, b: Ext, inclusive: bool)
  {
    Below(a, x, inclusive) && Below(x, b, inclusive)
  }

  /** One `prop_in_range(name, a, b, inclusive)` call. */
  datatype PropCheck = PropCheck(name: string, lo: Ext, hi: Ext, inclusive: bool)

  /** The checks `check_modeling_props` makes, in the order it makes them. */
  function Checks(): seq<PropCheck>
  {
    [ PropCheck("mappingBranchFactor", Finite(0.0), PosInf, false),
      PropCheck("numCandidateMappings", Finite(0.0), PosInf, false),
      PropCheck("topkSteinerTrees", Finite(0.0), PosInf, false),
      PropCheck("numSemanticTypes", Finite(0.0), PosInf, false),
      PropCheck("confidenceWeight", Finite(0.0), Finite(1.0), true),
      PropCheck("coherenceWeight", Finite(0.0), Finite(1.0), true),
      PropCheck("sizeWeight", Finite(0.0), Finite(1.0), true) ]
  }

  /** `prop_in_range`: absent names pass; a value out of range or not comparable raises. */
  function PropInRange(props: map<string, PropValue>, c: PropCheck): Outcome
  {
    if c.name !in props then Pass
    else
      match props[c.name]
      case NonNumeric => Fail(PropNotComparable(c.name))
      case Number(x) => if InRange(x, c.lo, c.hi, c.inclusive) then Pass else Fail(PropOutOfRange(c.name))
  }

  /** The checks run one after the other; the first that raises ends the run. */
  function CheckAll(props: map<string, PropValue>, checks: seq<PropCheck>): Outcome
  {
    if checks == [] then Pass
    else
      var o := PropInRange(props, checks[0]);
      if o.Fail? then o else CheckAll(props, checks[1..])
  }

  /** `check_modeling_props`; `None` stands for props that are not a dict. */
  function CheckModelingProps(props: Option<map<string, PropValue>>): Outcome
  {
    if props.None? then Pass else CheckAll(props.value, Checks())
  }

  // --------------------------------------------- the intended ranges, directly

  /** A finite number in the open range (0, inf) or the closed range [0, 1] the check names. */
  predicate Acceptable(v: PropValue, c: PropCheck)
  {
    && v.Number? && v.x.Finite?
    && (if c.inclusive then 0.0 <= v.x.r <= 1.0 else 0.0 < v.x.r)
  }

  /** The exception a present, unacceptable value raises. */
  function Rejection(v: PropValue, c: PropCheck): Error
  {
    if v.NonNumeric? then PropNotComparable(c.name) else PropOutOfRange(c.name)
  }

  /** For the two ranges used, Python's chained comparison accepts exactly the acceptable values. */
  lemma PropInRangeAgrees(props: map<string, PropValue>, c: PropCheck)
    requires c.lo == Finite(0.0)
    requires (c.inclusive && c.hi == Finite(1.0)) || (!c.inclusive && c.hi == PosInf)
    ensures PropInRange(props, c) == Pass <==> (c.name in props ==> Acceptable(props[c.name], c))
    ensures PropInRange(props, c).Fail? ==> PropInRange(props, c).error == Rejection(props[c.name], c)
  {
  }

  predicate Passes(props: map<string, PropValue>, c: PropCheck)
  {
    c.name in props ==> Acceptable(props[c.name], c)
  }

  lemma {:induction false} CheckAllSpec(props: map<string, PropValue>, checks: seq<PropCheck>)
    requires forall i :: 0 <= i < |checks| ==>
               checks[i].lo == Finite(0.0) &&
               ((checks[i].inclusive && checks[i].hi == Finite(1.0)) ||
                (!checks[i].inclusive && checks[i].hi == PosInf))
    ensures CheckAll(props, checks) == Pass <==> forall i :: 0 <= i < |checks| ==> Passes(props, checks[i])
    ensures CheckAll(props, checks).Fail? ==>
              exists i :: 0 <= i < |checks| && !Passes(props, checks[i])
                && CheckAll(props, checks).error == Rejection(props[checks[i].name], checks[i])
                && forall j :: 0 <= j < i ==> Passes(props, checks[j])
    decreases |checks|
  {
    if checks != [] {
      PropInRangeAgrees(props, checks[0]);
      CheckAllSpec(props, checks[1..]);
      if CheckAll(props, checks[1..]).Fail? && PropInRange(props, checks[0]).Pass? {
        var i :| 0 <= i < |checks[1..]| && !Passes(props, checks[1..][i])
                 && CheckAll(props, checks[1..]).error == Rejection(props[checks[1..][i].name], checks[1..][i])
                 && forall j :: 0 <= j < i ==> Passes(props, checks[1..][j]);
        assert checks[1..][i] == checks[i + 1];
        assert forall j :: 0 < j < i + 1 ==> checks[j] == checks[1..][j - 1];
      }
    }
  }

  /**
   * `check_modeling_props` raises exactly when a listed key is present with
   * an unacceptable value; non-dict props and absent keys pass.  The error
   * names the first such key in check order and says whether the value was
   * out of range or not a number.
   */
  lemma CheckModelingPropsSpec(props: Option<map<string, PropValue>>)
    ensures CheckModelingProps(props) == Pass <==>
              props.None? || forall i :: 0 <= i < |Checks()| ==> Passes(props.value, Checks()[i])
    ensures CheckModelingProps(props).Fail? ==>
              exists i :: 0 <= i < |Checks()| && !Passes(props.value, Checks()[i])
                && CheckModelingProps(props).error == Rejection(props.value[Checks()[i].name], Checks()[i])
                && forall j :: 0 <= j < i ==> Passes(props.value, Checks()[j])
  {
    if props.Some? {
      CheckAllSpec(props.value, Checks());
    }
  }

  /** Infinity and NaN are rejected even as counts, where the upper bound is open. */
  lemma NonFiniteRejected(v: Ext)
    requires !v.Finite?
    ensures CheckModelingProps(Some(map["numSemanticTypes" := Number(v)])) ==
            Fail(PropOutOfRange("numSemanticTypes"))
  {
    var m := map["numSemanticTypes" := Number(v)];
    var cs := Checks();
    assert CheckAll(m, cs) == CheckAll(m, cs[1..]);
    assert CheckAll(m, cs[1..]) == CheckAll(m, cs[2..]);
    assert CheckAll(m, cs[2..]) == CheckAll(m, cs[3..]);
    assert cs[3..][0] == cs[3];
  }
}
