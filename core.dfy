/** The compositional kernel: functions, stability and privacy relations, the two
    bundle kinds (Transformation and Measurement), and the combinators that chain and
    compose them.

    Distances are generic (`QI`, `QO`, `QX`, the `Distance` types of the metrics and
    measures). Shared ownership (`Rc`, `Box`) is modelled by plain values; the glue
    records supply the combinators with domain equality, which is `DomainEq`, and
    cloning, which is value copy. A metric or measure that the source shares between two
    operands through one type parameter is a precondition here. */
module Core {
  import opened Wrappers
  import opened Dom

  // ---------------------------------------------------------------------------
  // Function

  /** A computation from the input carrier to the output carrier. */
  datatype Function = Function(func: Value -> Value) {
    function Eval(arg: Value): Value {
      func(arg)
    }
  }

  /** `Function::make_chain`: first `function0`, then `function1`. */
  function MakeChain(function1: Function, function0: Function): (r: Function)
    ensures forall arg {:trigger r.Eval(arg)} :: r.Eval(arg) == function1.Eval(function0.Eval(arg))
  {
    Function(arg => function1.Eval(function0.Eval(arg)))
  }

  /** `Function::make_composition`: fan-out of one input to both functions. */
  function MakeComposition(function0: Function, function1: Function): (r: Function)
    ensures forall arg {:trigger r.Eval(arg)} :: r.Eval(arg) == Tuple(function0.Eval(arg), function1.Eval(arg))
  {
    Function(arg => Tuple(function0.Eval(arg), function1.Eval(arg)))
  }

  /** The construction-time contract a bundle's function owes its domains: it maps every
      member of the input domain to a member of the output domain. */
  ghost predicate MapsInto(f: Function, input: Domain, output: Domain) {
    forall v :: Member(input, v) ==> Member(output, f.Eval(v))
  }

  // ---------------------------------------------------------------------------
  // Metrics and measures (marker values; their distance types are the type parameters
  // of the relations).

  datatype Metric = SymmetricDistance | HammingDistance | L1Sensitivity | L2Sensitivity {
    /** The `DatasetMetric` marker trait. */
    predicate IsDatasetMetric() {
      SymmetricDistance? || HammingDistance?
    }
  }

  datatype Measure = MaxDivergence | SmoothedMaxDivergence

  // ---------------------------------------------------------------------------
  // Hints and relations

  /** `HintTt` / `HintMt`: an intermediate distance from an input and an output distance. */
  datatype Hint<!QI, !QO, QX> = Hint(hint: (QI, QO) -> QX) {
    function Eval(d_in: QI, d_out: QO): QX {
      hint(d_in, d_out)
    }
  }

  datatype PrivacyRelation<!QI, !QO> = PrivacyRelation(
    relation: (QI, QO) -> bool,
    backward_map: Option<QO -> QI>)
  {
    predicate Eval(d_in: QI, d_out: QO) {
      relation(d_in, d_out)
    }
  }

  /** `PrivacyRelation::new`: a predicate without a backward map. */
  function NewPrivacyRelation<QI(!new), QO(!new)>(relation: (QI, QO) -> bool): (r: PrivacyRelation<QI, QO>)
    ensures r.backward_map.None?
    ensures forall d_in, d_out :: r.Eval(d_in, d_out) == relation(d_in, d_out)
  {
    PrivacyRelation(relation, None)
  }

  datatype StabilityRelation<!QI, !QO> = StabilityRelation(
    relation: (QI, QO) -> bool,
    forward_map: Option<QI -> QO>,
    backward_map: Option<QO -> QI>)
  {
    predicate Eval(d_in: QI, d_out: QO) {
      relation(d_in, d_out)
    }
  }

  /** `StabilityRelation::new`: a predicate without maps. */
  function NewStabilityRelation<QI(!new), QO(!new)>(relation: (QI, QO) -> bool): (r: StabilityRelation<QI, QO>)
    ensures r.forward_map.None? && r.backward_map.None?
    ensures forall d_in, d_out :: r.Eval(d_in, d_out) == relation(d_in, d_out)
  {
    StabilityRelation(relation, None, None)
  }

  /** The trait operations `new_from_constant` needs of the distance types:
      `DPDistanceCast` both ways, `Mul`, `Div` and `>=` of `PartialOrd`. */
  datatype DistanceOps<!QI, !QO> = DistanceOps(
    castIn: QI -> QO,
    castOut: QO -> QI,
    mul: (QO, QO) -> QO,
    div: (QO, QO) -> QO,
    ge: (QO, QO) -> bool)

  /** `StabilityRelation::new_from_constant`: the c-stable relation with both maps. The
      source unwraps each distance cast and panics when one fails; `castIn` and `castOut`
      are total here. */
  function NewFromConstant<QI(!new), QO(!new)>(ops: DistanceOps<QI, QO>, c: QO): (r: StabilityRelation<QI, QO>)
    ensures forall d_in, d_out :: r.Eval(d_in, d_out) <==> ops.ge(d_out, ops.mul(ops.castIn(d_in), c))
    ensures r.forward_map.Some? && r.backward_map.Some?
    ensures forall d_in :: r.forward_map.value(d_in) == ops.mul(ops.castIn(d_in), c)
    ensures forall d_out :: r.backward_map.value(d_out) == ops.castOut(ops.div(d_out, c))
  {
    StabilityRelation(
      (d_in, d_out) => ops.ge(d_out, ops.mul(ops.castIn(d_in), c)),
      Some(d_in => ops.mul(ops.castIn(d_in), c)),
      Some(d_out => ops.castOut(ops.div(d_out, c))))
  }

  /** `chain_option_maps`: the composition of two optional maps, present only when both are. */
  function ChainOptionMaps<A(!new), B, C>(map1: Option<B -> C>, map0: Option<A -> B>): (r: Option<A -> C>)
    ensures r.Some? <==> map0.Some? && map1.Some?
    ensures r.Some? ==> forall x :: r.value(x) == map1.value(map0.value(x))
  {
    if map0.Some? && map1.Some? then Some(x => map1.value(map0.value(x))) else None
  }

  /** The maps of a chain of `relation0` then `relation1`: the forward map exists iff both
      forward maps do and is their composition; likewise backward, in reverse order. */
  ghost predicate DerivedMaps<QI(!new), QX, QO(!new)>(r: StabilityRelation<QI, QO>, relation1: StabilityRelation<QX, QO>, relation0: StabilityRelation<QI, QX>) {
    && (r.forward_map.Some? <==> relation0.forward_map.Some? && relation1.forward_map.Some?)
    && (r.forward_map.Some? ==> forall d_in ::
          r.forward_map.value(d_in) == relation1.forward_map.value(relation0.forward_map.value(d_in)))
    && (r.backward_map.Some? <==> relation0.backward_map.Some? && relation1.backward_map.Some?)
    && (r.backward_map.Some? ==> forall d_out ::
          r.backward_map.value(d_out) == relation0.backward_map.value(relation1.backward_map.value(d_out)))
  }

  /** `StabilityRelation::make_chain_hint`: the chain holds at `(d_in, d_out)` iff both
      relations hold through the hinted intermediate distance. */
  function MakeChainHint<QI(!new), QX, QO(!new)>(relation1: StabilityRelation<QX, QO>, relation0: StabilityRelation<QI, QX>, hint: Hint<QI, QO, QX>): (r: StabilityRelation<QI, QO>)
    ensures forall d_in, d_out :: r.Eval(d_in, d_out) <==>
      relation0.Eval(d_in, hint.Eval(d_in, d_out)) && relation1.Eval(hint.Eval(d_in, d_out), d_out)
    ensures DerivedMaps(r, relation1, relation0)
  {
    StabilityRelation(
      (d_in, d_out) =>
        var d_mid := hint.Eval(d_in, d_out);
        relation0.Eval(d_in, d_mid) && relation1.Eval(d_mid, d_out),
      ChainOptionMaps(relation1.forward_map, relation0.forward_map),
      ChainOptionMaps(relation0.backward_map, relation1.backward_map))
  }

  /** `StabilityRelation::make_chain_no_hint`: the intermediate distance is the inner
      forward map's image of `d_in`, else the outer backward map's image of `d_out`; with
      neither map the source panics. */
  function MakeChainNoHint<QI(!new), QX, QO(!new)>(relation1: StabilityRelation<QX, QO>, relation0: StabilityRelation<QI, QX>): (r: Result<StabilityRelation<QI, QO>>)
    ensures r.Ok? <==> relation0.forward_map.Some? || relation1.backward_map.Some?
    ensures r.Err? ==> r.error.kind == Panic
    ensures r.Ok? && relation0.forward_map.Some? ==> forall d_in, d_out :: r.value.Eval(d_in, d_out) <==>
      var d_mid := relation0.forward_map.value(d_in);
      relation0.Eval(d_in, d_mid) && relation1.Eval(d_mid, d_out)
    ensures r.Ok? && relation0.forward_map.None? ==> forall d_in, d_out :: r.value.Eval(d_in, d_out) <==>
      var d_mid := relation1.backward_map.value(d_out);
      relation0.Eval(d_in, d_mid) && relation1.Eval(d_mid, d_out)
    ensures r.Ok? ==> DerivedMaps(r.value, relation1, relation0)
  {
    var hint: Option<Hint<QI, QO, QX>> :=
      if relation0.forward_map.Some? then
        Some(ForwardHint(relation0.forward_map.value))
      else if relation1.backward_map.Some? then
        Some(BackwardHint(relation1.backward_map.value))
      else
        None;
    if hint.Some? then
      Ok(MakeChainHint(relation1, relation0, hint.value))
    else
      Err(Error(Panic, "Binary search for hints not implemented, must have maps or supply explicit hint."))
  }

  /** The hint `|d_in, _d_out| forward_map(d_in)`. */
  function ForwardHint<QI(!new), QO(!new), QX>(forward_map: QI -> QX): (h: Hint<QI, QO, QX>)
    ensures forall d_in, d_out :: h.Eval(d_in, d_out) == forward_map(d_in)
  {
    Hint((d_in, d_out) => forward_map(d_in))
  }

  /** The hint `|_d_in, d_out| backward_map(d_out)`. */
  function BackwardHint<QI(!new), QO(!new), QX>(backward_map: QO -> QX): (h: Hint<QI, QO, QX>)
    ensures forall d_in, d_out :: h.Eval(d_in, d_out) == backward_map(d_out)
  {
    Hint((d_in, d_out) => backward_map(d_out))
  }

  /** `StabilityRelation::make_chain`: an explicit hint takes priority over the maps. */
  function MakeChainRelation<QI(!new), QX, QO(!new)>(relation1: StabilityRelation<QX, QO>, relation0: StabilityRelation<QI, QX>, hint: Option<Hint<QI, QO, QX>>): (r: Result<StabilityRelation<QI, QO>>)
    ensures r.Err? <==> hint.None? && relation0.forward_map.None? && relation1.backward_map.None?
    ensures hint.Some? ==> r.Ok? && forall d_in, d_out :: r.value.Eval(d_in, d_out) <==>
      var d_mid := hint.value.Eval(d_in, d_out);
      relation0.Eval(d_in, d_mid) && relation1.Eval(d_mid, d_out)
    ensures hint.None? ==> r == MakeChainNoHint(relation1, relation0)
    ensures r.Ok? ==> DerivedMaps(r.value, relation1, relation0)
  {
    if hint.Some? then
      Ok(MakeChainHint(relation1, relation0, hint.value))
    else
      MakeChainNoHint(relation1, relation0)
  }

  // ---------------------------------------------------------------------------
  // Bundles

  /** The relation field of a bundle: one supplied by its builder, or the marker for the
      combinators' placeholder (the source installs an always-false relation there
      because no derivation from the operands' relations exists yet). */
  datatype Derivation<+R> = Supplied(relation: R) | NotDerived

  datatype Measurement<!QI, !QO> = Measurement(
    input_domain: Domain,
    output_domain: Domain,
    func: Function,
    input_metric: Metric,
    output_measure: Measure,
    privacy_relation: Derivation<PrivacyRelation<QI, QO>>)

  datatype Transformation<!QI, !QO> = Transformation(
    input_domain: Domain,
    output_domain: Domain,
    func: Function,
    input_metric: Metric,
    output_metric: Metric,
    stability_relation: Derivation<StabilityRelation<QI, QO>>)

  /** The function of a transformation respects its domains. */
  ghost predicate TransformationRespects<QI, QO>(t: Transformation<QI, QO>) {
    MapsInto(t.func, t.input_domain, t.output_domain)
  }

  /** The function of a measurement respects its domains. */
  ghost predicate MeasurementRespects<QI, QO>(m: Measurement<QI, QO>) {
    MapsInto(m.func, m.input_domain, m.output_domain)
  }

  /** `Measurement::new`. */
  function NewMeasurement<QI(!new), QO(!new)>(
    input_domain: Domain, output_domain: Domain, func: Value -> Value,
    input_metric: Metric, output_measure: Measure, privacy_relation: (QI, QO) -> bool): (r: Measurement<QI, QO>)
    ensures r.input_domain == input_domain && r.output_domain == output_domain
    ensures r.input_metric == input_metric && r.output_measure == output_measure
    ensures forall arg :: r.func.Eval(arg) == func(arg)
    ensures r.privacy_relation.Supplied? && r.privacy_relation.relation.backward_map.None?
    ensures forall d_in, d_out :: r.privacy_relation.relation.Eval(d_in, d_out) == privacy_relation(d_in, d_out)
  {
    Measurement(input_domain, output_domain, Function(func), input_metric, output_measure,
      Supplied(NewPrivacyRelation(privacy_relation)))
  }

  /** `Transformation::new`. */
  function NewTransformation<QI(!new), QO(!new)>(
    input_domain: Domain, output_domain: Domain, func: Value -> Value,
    input_metric: Metric, output_metric: Metric, stability_relation: (QI, QO) -> bool): (r: Transformation<QI, QO>)
    ensures r.input_domain == input_domain && r.output_domain == output_domain
    ensures r.input_metric == input_metric && r.output_metric == output_metric
    ensures forall arg :: r.func.Eval(arg) == func(arg)
    ensures r.stability_relation.Supplied?
    ensures r.stability_relation.relation.forward_map.None? && r.stability_relation.relation.backward_map.None?
    ensures forall d_in, d_out :: r.stability_relation.relation.Eval(d_in, d_out) == stability_relation(d_in, d_out)
  {
    Transformation(input_domain, output_domain, Function(func), input_metric, output_metric,
      Supplied(NewStabilityRelation(stability_relation)))
  }

  /** `Transformation::new_constant_stability`: the relation is the c-stable one. */
  function NewConstantStability<QI(!new), QO(!new)>(
    input_domain: Domain, output_domain: Domain, func: Value -> Value,
    input_metric: Metric, output_metric: Metric, ops: DistanceOps<QI, QO>, stability_constant: QO): (r: Transformation<QI, QO>)
    ensures r.input_domain == input_domain && r.output_domain == output_domain
    ensures r.input_metric == input_metric && r.output_metric == output_metric
    ensures forall arg :: r.func.Eval(arg) == func(arg)
    ensures r.stability_relation.Supplied?
    ensures r.stability_relation.relation.forward_map.Some? && r.stability_relation.relation.backward_map.Some?
    ensures forall d_in, d_out :: r.stability_relation.relation.Eval(d_in, d_out) <==>
      ops.ge(d_out, ops.mul(ops.castIn(d_in), stability_constant))
  {
    Transformation(input_domain, output_domain, Function(func), input_metric, output_metric,
      Supplied(NewFromConstant(ops, stability_constant)))
  }

  // ---------------------------------------------------------------------------
  // Combinators

  /** `make_chain_mt_glue` (and `ChainMT::make2`): `transformation0` then `measurement1`,
      which share the metric at the seam. The source asserts that the seam's domains are
      equal (`DomainEq`, which is `SameDomain` by `DomainEqIff`). */
  function MakeChainMT<QI, QX, QO>(measurement1: Measurement<QX, QO>, transformation0: Transformation<QI, QX>): (r: Result<Measurement<QI, QO>>)
    requires transformation0.output_metric == measurement1.input_metric
    ensures r.Ok? <==> SameDomain(transformation0.output_domain, measurement1.input_domain)
    ensures r.Err? ==> r.error.kind == Panic
    ensures r.Ok? ==>
      && r.value.input_domain == transformation0.input_domain
      && r.value.output_domain == measurement1.output_domain
      && r.value.input_metric == transformation0.input_metric
      && r.value.output_measure == measurement1.output_measure
      && r.value.privacy_relation.NotDerived?
    ensures r.Ok? ==> forall arg {:trigger r.value.func.Eval(arg)} :: r.value.func.Eval(arg) == measurement1.func.Eval(transformation0.func.Eval(arg))
  {
    DomainEqIff(transformation0.output_domain, measurement1.input_domain);
    if !DomainEq(transformation0.output_domain, measurement1.input_domain) then
      Err(Error(Panic, "assertion failed: domain_eq(transformation0.output_domain, measurement1.input_domain)"))
    else
      Ok(Measurement(
        transformation0.input_domain,
        measurement1.output_domain,
        MakeChain(measurement1.func, transformation0.func),
        transformation0.input_metric,
        measurement1.output_measure,
        NotDerived))
  }

  /** `ChainTT::make_chain_tt_glue` (and `ChainTT::make2`, which passes no hint): the two
      share the metric at the seam, and the seam's domains must be equal. The hint goes
      unused, since no stability relation is derived. */
  function MakeChainTT<QI, QX, QO>(transformation1: Transformation<QX, QO>, transformation0: Transformation<QI, QX>, hint: Option<Hint<QI, QO, QX>>): (r: Result<Transformation<QI, QO>>)
    requires transformation0.output_metric == transformation1.input_metric
    ensures r.Ok? <==> SameDomain(transformation0.output_domain, transformation1.input_domain)
    ensures r.Err? ==> r.error.kind == Panic
    ensures r.Ok? ==>
      && r.value.input_domain == transformation0.input_domain
      && r.value.output_domain == transformation1.output_domain
      && r.value.input_metric == transformation0.input_metric
      && r.value.output_metric == transformation1.output_metric
      && r.value.stability_relation.NotDerived?
    ensures r.Ok? ==> forall arg {:trigger r.value.func.Eval(arg)} :: r.value.func.Eval(arg) == transformation1.func.Eval(transformation0.func.Eval(arg))
  {
    DomainEqIff(transformation0.output_domain, transformation1.input_domain);
    if !DomainEq(transformation0.output_domain, transformation1.input_domain) then
      Err(Error(Panic, "assertion failed: domain_eq(transformation0.output_domain, transformation1.input_domain)"))
    else
      Ok(Transformation(
        transformation0.input_domain,
        transformation1.output_domain,
        MakeChain(transformation1.func, transformation0.func),
        transformation0.input_metric,
        transformation1.output_metric,
        NotDerived))
  }

  /** `make_composition_glue` (and `Composition::make2`): both measurements on one input,
      the outputs paired; the two share their input metric and output measure, and their
      input domains must be equal. */
  function MakeComposition2<QI, QO>(measurement0: Measurement<QI, QO>, measurement1: Measurement<QI, QO>): (r: Result<Measurement<QI, QO>>)
    requires measurement0.input_metric == measurement1.input_metric
    requires measurement0.output_measure == measurement1.output_measure
    ensures r.Ok? <==> SameDomain(measurement0.input_domain, measurement1.input_domain)
    ensures r.Err? ==> r.error.kind == Panic
    ensures r.Ok? ==>
      && r.value.input_domain == measurement0.input_domain
      && r.value.output_domain == PairDomain(BoxDomain(measurement0.output_domain), BoxDomain(measurement1.output_domain))
      && r.value.input_metric == measurement0.input_metric
      && r.value.output_measure == measurement0.output_measure
      && r.value.privacy_relation.NotDerived?
    ensures r.Ok? ==> forall arg {:trigger r.value.func.Eval(arg)} :: r.value.func.Eval(arg) == Tuple(measurement0.func.Eval(arg), measurement1.func.Eval(arg))
  {
    DomainEqIff(measurement0.input_domain, measurement1.input_domain);
    if !DomainEq(measurement0.input_domain, measurement1.input_domain) then
      Err(Error(Panic, "assertion failed: domain_eq(measurement0.input_domain, measurement1.input_domain)"))
    else
      Ok(Measurement(
        measurement0.input_domain,
        PairDomain(BoxDomain(measurement0.output_domain), BoxDomain(measurement1.output_domain)),
        MakeComposition(measurement0.func, measurement1.func),
        measurement0.input_metric,
        measurement0.output_measure,
        NotDerived))
  }
}
