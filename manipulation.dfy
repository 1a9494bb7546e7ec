/** The data-manipulation transformations: identity, clamping, unclamping and casting,
    each built with stability constant one over integer distances. */
module Manipulation {
  import opened Wrappers
  import opened Dom
  import opened Core
  import opened Distances

  // ---------------------------------------------------------------------------
  // Element-wise mapping and clamping

  /** `into_iter().map(f).collect()`: the same length, `f` at every position. */
  function MapSeq(f: Value -> Value, s: seq<Value>): (r: seq<Value>)
    ensures |r| == |s|
    ensures forall i | 0 <= i < |s| :: r[i] == f(s[i])
  {
    if |s| == 0 then [] else [f(s[0])] + MapSeq(f, s[1..])
  }

  /** A function on vectors that applies `f` to each element. */
  function Elementwise(f: Value -> Value): (g: Value -> Value) {
    (v: Value) => if v.Vec? then Vec(MapSeq(f, v.items)) else v
  }

  /** `output` is the vector of `f` applied to each of `items`. */
  predicate MappedFrom(f: Value -> Value, items: seq<Value>, output: Value) {
    output.Vec? && |output.items| == |items| && forall i | 0 <= i < |items| :: output.items[i] == f(items[i])
  }

  /** `clamp(lower, upper, x)`: `lower` below the range, `upper` above it, else `x`. */
  function Clamp(lower: Value, upper: Value, x: Value): (r: Value)
    ensures r == lower || r == upper || r == x
  {
    if Lt(x, lower) then lower else if Lt(upper, x) then upper else x
  }

  // ---------------------------------------------------------------------------
  // Stability constant one

  /** The transformation carries the relation every builder here installs, `UnitRelation`. */
  ghost predicate UnitStable(t: Transformation<int, int>) {
    t.stability_relation == Supplied(UnitRelation())
  }

  /** `StabilityRelation::new_from_constant(Q::one())` on integer distances. */
  function UnitRelation(): (r: StabilityRelation<int, int>)
    ensures forall d_in, d_out :: r.Eval(d_in, d_out) <==> d_out >= d_in
    ensures r.forward_map.Some? && forall d_in :: r.forward_map.value(d_in) == d_in
    ensures r.backward_map.Some? && forall d_out :: r.backward_map.value(d_out) == d_out
  {
    var r := NewFromConstant(IntDistance(), 1);
    assert forall d_in, d_out :: r.Eval(d_in, d_out) <==> d_out >= d_in by {
      forall d_in: int, d_out: int
        ensures r.Eval(d_in, d_out) <==> d_out >= d_in
      {
        IntFromConstant(1, d_in, d_out);
      }
    }
    r
  }

  /** A transformation with one metric on both sides and the 1-stable relation, as
      `Transformation::new` builds it. */
  function UnitTransformation(input_domain: Domain, output_domain: Domain, func: Value -> Value, metric: Metric): (r: Transformation<int, int>)
    ensures r.input_domain == input_domain && r.output_domain == output_domain
    ensures r.input_metric == metric && r.output_metric == metric
    ensures forall arg :: r.func.Eval(arg) == func(arg)
    ensures UnitStable(r)
  {
    Transformation(input_domain, output_domain, Function(func), metric, metric, Supplied(UnitRelation()))
  }

  // ---------------------------------------------------------------------------
  // Builders

  /** `Identity::make2`: the same domain and metric on both sides, and the argument back. */
  function MakeIdentity(domain: Domain, metric: Metric): (r: Result<Transformation<int, int>>)
    ensures r.Ok?
    ensures r.value.input_domain == domain && r.value.output_domain == domain
    ensures r.value.input_metric == metric && r.value.output_metric == metric
    ensures forall arg :: r.value.func.Eval(arg) == arg
    ensures UnitStable(r.value)
  {
    Ok(UnitTransformation(domain, domain, x => x, metric))
  }

  /** `Clamp<M, Vec<T>>::make2`: from vectors of any value of the carrier to vectors of the
      closed interval; fails exactly when the interval is rejected, i.e. `upper < lower`. */
  function MakeClampVec(carrier: Ty, lower: Value, upper: Value, metric: Metric): (r: Result<Transformation<int, int>>)
    ensures r.Ok? <==> !Lt(upper, lower)
    ensures r.Err? ==> r.error == Error(MakeTransformation, "lower bound may not be greater than upper bound")
    ensures r.Ok? ==>
      && r.value.input_domain == VectorDomain(AllDomain(carrier))
      && r.value.output_domain == VectorDomain(IntervalDomain(carrier, Included(lower), Included(upper)))
      && r.value.input_metric == metric && r.value.output_metric == metric
      && UnitStable(r.value)
    ensures r.Ok? ==> forall items :: MappedFrom(x => Clamp(lower, upper, x), items, r.value.func.Eval(Vec(items)))
  {
    var element_domain :- NewIntervalDomain(carrier, Included(lower), Included(upper));
    Ok(UnitTransformation(VectorDomain(AllDomain(carrier)), VectorDomain(element_domain),
      Elementwise(x => Clamp(lower, upper, x)), metric))
  }

  /** `Clamp<M, T>::make2`: from any value of the carrier to the closed interval. */
  function MakeClampScalar(carrier: Ty, lower: Value, upper: Value, metric: Metric): (r: Result<Transformation<int, int>>)
    ensures r.Ok? <==> !Lt(upper, lower)
    ensures r.Err? ==> r.error == Error(MakeTransformation, "lower bound may not be greater than upper bound")
    ensures r.Ok? ==>
      && r.value.input_domain == AllDomain(carrier)
      && r.value.output_domain == IntervalDomain(carrier, Included(lower), Included(upper))
      && r.value.input_metric == metric && r.value.output_metric == metric
      && UnitStable(r.value)
    ensures r.Ok? ==> forall x :: r.value.func.Eval(x) == Clamp(lower, upper, x)
  {
    var output_domain :- NewIntervalDomain(carrier, Included(lower), Included(upper));
    Ok(UnitTransformation(AllDomain(carrier), output_domain, x => Clamp(lower, upper, x), metric))
  }

  /** `Unclamp<M, Vec<T>>::make2`: from vectors of the closed interval back to vectors of any
      value of the carrier, returning the argument. */
  function MakeUnclampVec(carrier: Ty, lower: Value, upper: Value, metric: Metric): (r: Result<Transformation<int, int>>)
    ensures r.Ok? <==> !Lt(upper, lower)
    ensures r.Err? ==> r.error == Error(MakeTransformation, "lower bound may not be greater than upper bound")
    ensures r.Ok? ==>
      && r.value.input_domain == VectorDomain(IntervalDomain(carrier, Included(lower), Included(upper)))
      && r.value.output_domain == VectorDomain(AllDomain(carrier))
      && r.value.input_metric == metric && r.value.output_metric == metric
      && UnitStable(r.value)
    ensures r.Ok? ==> forall arg :: r.value.func.Eval(arg) == arg
  {
    var element_domain :- NewIntervalDomain(carrier, Included(lower), Included(upper));
    Ok(UnitTransformation(VectorDomain(element_domain), VectorDomain(AllDomain(carrier)), x => x, metric))
  }

  /** `Unclamp<M, T>::make2`: from an interval with arbitrary bounds back to any value of the
      carrier; fails exactly as `IntervalDomain::new` does on those bounds. */
  function MakeUnclampScalar(carrier: Ty, lower: Bound, upper: Bound, metric: Metric): (r: Result<Transformation<int, int>>)
    ensures r.Ok? <==> NewIntervalDomain(carrier, lower, upper).Ok?
    ensures r.Err? ==> r.error == NewIntervalDomain(carrier, lower, upper).error
    ensures r.Ok? ==>
      && r.value.input_domain == IntervalDomain(carrier, lower, upper)
      && r.value.output_domain == AllDomain(carrier)
      && r.value.input_metric == metric && r.value.output_metric == metric
      && UnitStable(r.value)
    ensures r.Ok? ==> forall arg :: r.value.func.Eval(arg) == arg
  {
    var input_domain :- NewIntervalDomain(carrier, lower, upper);
    Ok(UnitTransformation(input_domain, AllDomain(carrier), x => x, metric))
  }

  /** `TO::cast(v).unwrap_or_else(|_| TO::default())`: a failed cast yields the default. */
  function CastOrDefault(cast: Value -> Option<Value>, default: Value, v: Value): (r: Value)
    ensures cast(v).Some? ==> r == cast(v).value
    ensures cast(v).None? ==> r == default
  {
    cast(v).GetOr(default)
  }

  /** The defaulted cast as a function on values. */
  function DefaultedCast(cast: Value -> Option<Value>, default: Value): (f: Value -> Value)
    ensures forall v :: f(v) == CastOrDefault(cast, default, v)
  {
    v => CastOrDefault(cast, default, v)
  }

  /** `Cast<M, Vec<TI>, Vec<TO>>::make0` (dataset metrics only): element-wise cast with
      defaulting, between vectors of any value of the two carriers. */
  function MakeCastVec(input_carrier: Ty, output_carrier: Ty, cast: Value -> Option<Value>, default: Value, metric: Metric): (r: Result<Transformation<int, int>>)
    requires metric.IsDatasetMetric()
    ensures r.Ok?
    ensures r.value.input_domain == VectorDomain(AllDomain(input_carrier))
    ensures r.value.output_domain == VectorDomain(AllDomain(output_carrier))
    ensures r.value.input_metric == metric && r.value.output_metric == metric
    ensures UnitStable(r.value)
    ensures forall items :: MappedFrom(DefaultedCast(cast, default), items, r.value.func.Eval(Vec(items)))
  {
    Ok(UnitTransformation(VectorDomain(AllDomain(input_carrier)), VectorDomain(AllDomain(output_carrier)),
      Elementwise(DefaultedCast(cast, default)), metric))
  }

  /** `Cast<M, TI, TO>::make0`: a scalar cast with defaulting. */
  function MakeCastScalar(input_carrier: Ty, output_carrier: Ty, cast: Value -> Option<Value>, default: Value, metric: Metric): (r: Result<Transformation<int, int>>)
    ensures r.Ok?
    ensures r.value.input_domain == AllDomain(input_carrier) && r.value.output_domain == AllDomain(output_carrier)
    ensures r.value.input_metric == metric && r.value.output_metric == metric
    ensures UnitStable(r.value)
    ensures forall v :: r.value.func.Eval(v) == CastOrDefault(cast, default, v)
  {
    Ok(UnitTransformation(AllDomain(input_carrier), AllDomain(output_carrier), v => CastOrDefault(cast, default, v), metric))
  }
}
