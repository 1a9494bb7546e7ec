/** Laws of the kernel's calculus: what chaining and composition preserve, how the
    intermediate distance of a relation chain behaves, and the kernel's own tests as
    concrete evaluations. */
module CoreLaws {
  import opened Wrappers
  import opened Dom
  import opened Core
  import opened Distances

  // ---------------------------------------------------------------------------
  // Soundness of maps, monotonicity

  /** A forward map is sound when the relation holds at `(d_in, forward(d_in))`. */
  ghost predicate ForwardSound<QI(!new), QO(!new)>(r: StabilityRelation<QI, QO>) {
    r.forward_map.Some? ==> forall d_in :: r.Eval(d_in, r.forward_map.value(d_in))
  }

  /** A backward map is sound when the relation holds at `(backward(d_out), d_out)`. */
  ghost predicate BackwardSound<QI(!new), QO(!new)>(r: StabilityRelation<QI, QO>) {
    r.backward_map.Some? ==> forall d_out :: r.Eval(r.backward_map.value(d_out), d_out)
  }

  /** A relation is monotone in the output distance under the order `ge`. */
  ghost predicate MonotoneInOutput<QI(!new), QO(!new)>(r: StabilityRelation<QI, QO>, ge: (QO, QO) -> bool) {
    forall d_in, d_out, d_out' :: r.Eval(d_in, d_out) && ge(d_out', d_out) ==> r.Eval(d_in, d_out')
  }

  ghost predicate Reflexive<Q(!new)>(ge: (Q, Q) -> bool) {
    forall a :: ge(a, a)
  }

  ghost predicate Transitive<Q(!new)>(ge: (Q, Q) -> bool) {
    forall a, b, c :: ge(a, b) && ge(b, c) ==> ge(a, c)
  }

  /** With a reflexive order, the c-stable relation holds at its forward map's image. */
  lemma FromConstantForwardSound<QI(!new), QO(!new)>(ops: DistanceOps<QI, QO>, c: QO)
    requires Reflexive(ops.ge)
    ensures ForwardSound(NewFromConstant(ops, c))
  {
    var r := NewFromConstant(ops, c);
    forall d_in
      ensures r.Eval(d_in, r.forward_map.value(d_in))
    {
      assert ops.ge(ops.mul(ops.castIn(d_in), c), ops.mul(ops.castIn(d_in), c));
    }
  }

  /** With a transitive order, the c-stable relation is monotone in the output distance. */
  lemma FromConstantMonotone<QI(!new), QO(!new)>(ops: DistanceOps<QI, QO>, c: QO)
    requires Transitive(ops.ge)
    ensures MonotoneInOutput(NewFromConstant(ops, c), ops.ge)
  {
    var r := NewFromConstant(ops, c);
    forall d_in, d_out, d_out' | r.Eval(d_in, d_out) && ops.ge(d_out', d_out)
      ensures r.Eval(d_in, d_out')
    {
      assert ops.ge(d_out', ops.mul(ops.castIn(d_in), c));
    }
  }

  /** Chaining without a hint preserves sound forward maps: the derived forward map of two
      relations with sound forward maps is sound. */
  lemma ChainForwardSound<QI(!new), QX(!new), QO(!new)>(relation1: StabilityRelation<QX, QO>, relation0: StabilityRelation<QI, QX>)
    requires ForwardSound(relation0) && ForwardSound(relation1)
    requires MakeChainNoHint(relation1, relation0).Ok?
    ensures ForwardSound(MakeChainNoHint(relation1, relation0).value)
  {
    var r := MakeChainNoHint(relation1, relation0).value;
    if r.forward_map.Some? {
      forall d_in
        ensures r.Eval(d_in, r.forward_map.value(d_in))
      {
        var d_mid := relation0.forward_map.value(d_in);
        assert relation0.Eval(d_in, d_mid);
        assert relation1.Eval(d_mid, relation1.forward_map.value(d_mid));
      }
    }
  }

  /** Chaining without a hint preserves sound backward maps when the inner relation has no
      forward map (so that the intermediate distance comes from the backward map). */
  lemma ChainBackwardSound<QI(!new), QX(!new), QO(!new)>(relation1: StabilityRelation<QX, QO>, relation0: StabilityRelation<QI, QX>)
    requires BackwardSound(relation0) && BackwardSound(relation1)
    requires relation0.forward_map.None? && relation1.backward_map.Some?
    ensures MakeChainNoHint(relation1, relation0).Ok?
    ensures BackwardSound(MakeChainNoHint(relation1, relation0).value)
  {
    var r := MakeChainNoHint(relation1, relation0).value;
    if r.backward_map.Some? {
      forall d_out
        ensures r.Eval(r.backward_map.value(d_out), d_out)
      {
        var d_mid := relation1.backward_map.value(d_out);
        assert relation1.Eval(d_mid, d_out);
        assert relation0.Eval(relation0.backward_map.value(d_mid), d_mid);
      }
    }
  }

  /** When the intermediate distance comes from the inner forward map, the chain is
      monotone in the output distance whenever the outer relation is. */
  lemma ChainMonotone<QI(!new), QX(!new), QO(!new)>(relation1: StabilityRelation<QX, QO>, relation0: StabilityRelation<QI, QX>, ge: (QO, QO) -> bool)
    requires relation0.forward_map.Some?
    requires MonotoneInOutput(relation1, ge)
    ensures MakeChainNoHint(relation1, relation0).Ok?
    ensures MonotoneInOutput(MakeChainNoHint(relation1, relation0).value, ge)
  {
    var r := MakeChainNoHint(relation1, relation0).value;
    forall d_in, d_out, d_out' | r.Eval(d_in, d_out) && ge(d_out', d_out)
      ensures r.Eval(d_in, d_out')
    {
      var d_mid := relation0.forward_map.value(d_in);
      assert relation1.Eval(d_mid, d_out);
    }
  }

  /** Every chained relation is justified: wherever it holds, some intermediate distance
      satisfies both operand relations. */
  lemma ChainJustified<QI(!new), QX(!new), QO(!new)>(relation1: StabilityRelation<QX, QO>, relation0: StabilityRelation<QI, QX>, hint: Option<Hint<QI, QO, QX>>, d_in: QI, d_out: QO)
    requires MakeChainRelation(relation1, relation0, hint).Ok?
    requires MakeChainRelation(relation1, relation0, hint).value.Eval(d_in, d_out)
    ensures exists d_mid :: relation0.Eval(d_in, d_mid) && relation1.Eval(d_mid, d_out)
  {
    if hint.Some? {
      var d_mid := hint.value.Eval(d_in, d_out);
      assert relation0.Eval(d_in, d_mid) && relation1.Eval(d_mid, d_out);
    } else if relation0.forward_map.Some? {
      var d_mid := relation0.forward_map.value(d_in);
      assert relation0.Eval(d_in, d_mid) && relation1.Eval(d_mid, d_out);
    } else {
      var d_mid := relation1.backward_map.value(d_out);
      assert relation0.Eval(d_in, d_mid) && relation1.Eval(d_mid, d_out);
    }
  }

  /** A forward map is tight when it is sound and below every output distance at which
      the relation holds. */
  ghost predicate ForwardTight<QI(!new), QX(!new)>(r: StabilityRelation<QI, QX>, ge: (QX, QX) -> bool) {
    && r.forward_map.Some?
    && ForwardSound(r)
    && forall d_in, d_mid :: r.Eval(d_in, d_mid) ==> ge(d_mid, r.forward_map.value(d_in))
  }

  /** A relation is antitone in the input distance when a smaller input distance keeps it. */
  ghost predicate AntitoneInInput<QX(!new), QO(!new)>(r: StabilityRelation<QX, QO>, ge: (QX, QX) -> bool) {
    forall d_mid, d_mid', d_out :: r.Eval(d_mid, d_out) && ge(d_mid, d_mid') ==> r.Eval(d_mid', d_out)
  }

  /** With a tight inner forward map and an outer relation antitone in its input, the
      chain without a hint is exactly the relational composition of the two relations. */
  lemma ChainIsComposition<QI(!new), QX(!new), QO(!new)>(relation1: StabilityRelation<QX, QO>, relation0: StabilityRelation<QI, QX>, ge: (QX, QX) -> bool, d_in: QI, d_out: QO)
    requires ForwardTight(relation0, ge)
    requires AntitoneInInput(relation1, ge)
    ensures MakeChainNoHint(relation1, relation0).Ok?
    ensures MakeChainNoHint(relation1, relation0).value.Eval(d_in, d_out) <==>
      exists d_mid :: relation0.Eval(d_in, d_mid) && relation1.Eval(d_mid, d_out)
  {
    var r := MakeChainNoHint(relation1, relation0).value;
    var f := relation0.forward_map.value(d_in);
    if r.Eval(d_in, d_out) {
      assert relation0.Eval(d_in, f) && relation1.Eval(f, d_out);
    }
    if exists d_mid :: relation0.Eval(d_in, d_mid) && relation1.Eval(d_mid, d_out) {
      var d_mid :| relation0.Eval(d_in, d_mid) && relation1.Eval(d_mid, d_out);
      assert ge(d_mid, f);
      assert relation1.Eval(f, d_out);
      assert relation0.Eval(d_in, f);
    }
  }

  /** Relation chaining without hints is associative when every operand has a forward map:
      both bracketings hold at the same distances and have the same forward map. */
  lemma ChainRelationAssociative<QI(!new), QX(!new), QY(!new), QO(!new)>(
    relation2: StabilityRelation<QY, QO>, relation1: StabilityRelation<QX, QY>, relation0: StabilityRelation<QI, QX>,
    d_in: QI, d_out: QO)
    requires relation0.forward_map.Some? && relation1.forward_map.Some? && relation2.forward_map.Some?
    ensures MakeChainNoHint(relation1, relation0).Ok? && MakeChainNoHint(relation2, relation1).Ok?
    ensures MakeChainNoHint(relation2, MakeChainNoHint(relation1, relation0).value).Ok?
    ensures MakeChainNoHint(MakeChainNoHint(relation2, relation1).value, relation0).Ok?
    ensures
      var left := MakeChainNoHint(MakeChainNoHint(relation2, relation1).value, relation0).value;
      var right := MakeChainNoHint(relation2, MakeChainNoHint(relation1, relation0).value).value;
      && (left.Eval(d_in, d_out) <==> right.Eval(d_in, d_out))
      && left.forward_map.Some? && right.forward_map.Some?
      && left.forward_map.value(d_in) == right.forward_map.value(d_in)
  {
    var inner10 := MakeChainNoHint(relation1, relation0).value;
    var inner21 := MakeChainNoHint(relation2, relation1).value;
    var left := MakeChainNoHint(inner21, relation0).value;
    var right := MakeChainNoHint(relation2, inner10).value;
    var x := relation0.forward_map.value(d_in);
    var y := relation1.forward_map.value(x);
    assert inner10.forward_map.value(d_in) == y;
    assert left.Eval(d_in, d_out) <==> relation0.Eval(d_in, x) && inner21.Eval(x, d_out);
    assert inner21.Eval(x, d_out) <==> relation1.Eval(x, y) && relation2.Eval(y, d_out);
    assert right.Eval(d_in, d_out) <==> inner10.Eval(d_in, y) && relation2.Eval(y, d_out);
    assert inner10.Eval(d_in, y) <==> relation0.Eval(d_in, x) && relation1.Eval(x, y);
  }

  /** The chain without a hint at one pair of distances, through the inner forward map. */
  lemma ChainThroughForward<QI(!new), QX, QO(!new)>(relation1: StabilityRelation<QX, QO>, relation0: StabilityRelation<QI, QX>, d_in: QI, d_out: QO, d_mid: QX)
    requires relation0.forward_map.Some? && relation0.forward_map.value(d_in) == d_mid
    ensures MakeChainNoHint(relation1, relation0).Ok?
    ensures MakeChainNoHint(relation1, relation0).value.Eval(d_in, d_out) <==> relation0.Eval(d_in, d_mid) && relation1.Eval(d_mid, d_out)
  {
  }

  /** Chaining a c0-stable and a c1-stable integer relation is (c0 * c1)-stable. */
  lemma ConstantChainMultiplies(c0: int, c1: int, d_in: int, d_out: int)
    ensures MakeChainNoHint(NewFromConstant(IntDistance(), c1), NewFromConstant(IntDistance(), c0)).Ok?
    ensures MakeChainNoHint(NewFromConstant(IntDistance(), c1), NewFromConstant(IntDistance(), c0)).value.Eval(d_in, d_out)
      <==> d_out >= (d_in * c0) * c1
  {
    var d_mid := d_in * c0;
    ChainThroughForward(NewFromConstant(IntDistance(), c1), NewFromConstant(IntDistance(), c0), d_in, d_out, d_mid);
    IntFromConstant(c0, d_in, d_mid);
    IntFromConstant(c1, d_mid, d_out);
  }

  /** The forward map of that chain multiplies by `c0` and then by `c1`. */
  lemma ConstantChainForward(c0: int, c1: int, d_in: int)
    ensures MakeChainNoHint(NewFromConstant(IntDistance(), c1), NewFromConstant(IntDistance(), c0)).Ok?
    ensures MakeChainNoHint(NewFromConstant(IntDistance(), c1), NewFromConstant(IntDistance(), c0)).value.forward_map.value(d_in)
      == (d_in * c0) * c1
  {
    IntFromConstant(c0, d_in, 0);
    IntFromConstant(c1, d_in * c0, 0);
  }

  // ---------------------------------------------------------------------------
  // Bundles and combinators

  /** Chaining two transformations preserves the construction-time contract. */
  lemma ChainTTRespects<QI(!new), QX(!new), QO(!new)>(transformation1: Transformation<QX, QO>, transformation0: Transformation<QI, QX>, hint: Option<Hint<QI, QO, QX>>)
    requires TransformationRespects(transformation1) && TransformationRespects(transformation0)
    requires transformation0.output_metric == transformation1.input_metric
    requires MakeChainTT(transformation1, transformation0, hint).Ok?
    ensures TransformationRespects(MakeChainTT(transformation1, transformation0, hint).value)
  {
    var t := MakeChainTT(transformation1, transformation0, hint).value;
    forall v | Member(t.input_domain, v)
      ensures Member(t.output_domain, t.func.Eval(v))
    {
      assert Member(transformation1.input_domain, transformation0.func.Eval(v));
    }
  }

  /** Chaining a transformation into a measurement preserves the construction-time contract. */
  lemma ChainMTRespects<QI(!new), QX(!new), QO(!new)>(measurement1: Measurement<QX, QO>, transformation0: Transformation<QI, QX>)
    requires MeasurementRespects(measurement1) && TransformationRespects(transformation0)
    requires transformation0.output_metric == measurement1.input_metric
    requires MakeChainMT(measurement1, transformation0).Ok?
    ensures MeasurementRespects(MakeChainMT(measurement1, transformation0).value)
  {
    var m := MakeChainMT(measurement1, transformation0).value;
    forall v | Member(m.input_domain, v)
      ensures Member(m.output_domain, m.func.Eval(v))
    {
      assert Member(measurement1.input_domain, transformation0.func.Eval(v));
    }
  }

  /** Composing two measurements preserves the construction-time contract: the paired
      output lies in the pair of the two output domains. */
  lemma CompositionRespects<QI(!new), QO(!new)>(measurement0: Measurement<QI, QO>, measurement1: Measurement<QI, QO>)
    requires MeasurementRespects(measurement0) && MeasurementRespects(measurement1)
    requires measurement0.input_metric == measurement1.input_metric
    requires measurement0.output_measure == measurement1.output_measure
    requires MakeComposition2(measurement0, measurement1).Ok?
    ensures MeasurementRespects(MakeComposition2(measurement0, measurement1).value)
  {
    var m := MakeComposition2(measurement0, measurement1).value;
    forall v | Member(m.input_domain, v)
      ensures Member(m.output_domain, m.func.Eval(v))
    {
      assert Member(measurement0.output_domain, measurement0.func.Eval(v));
      assert Member(measurement1.output_domain, measurement1.func.Eval(v));
      PairMember(BoxDomain(measurement0.output_domain), BoxDomain(measurement1.output_domain),
        measurement0.func.Eval(v), measurement1.func.Eval(v));
    }
  }

  /** Chaining transformations is associative: both bracketings are accepted under the
      same domain conditions, and then have the same domains, metrics and behaviour. */
  lemma ChainTTAssociative<QI(!new), QX(!new), QY(!new), QO(!new)>(
    transformation2: Transformation<QY, QO>, transformation1: Transformation<QX, QY>, transformation0: Transformation<QI, QX>,
    arg: Value)
    requires transformation0.output_metric == transformation1.input_metric
    requires transformation1.output_metric == transformation2.input_metric
    ensures
      var inner21 := MakeChainTT(transformation2, transformation1, None);
      (inner21.Ok? && MakeChainTT(inner21.value, transformation0, None).Ok?) <==>
        (SameDomain(transformation0.output_domain, transformation1.input_domain)
         && SameDomain(transformation1.output_domain, transformation2.input_domain))
    ensures
      var inner10 := MakeChainTT(transformation1, transformation0, None);
      (inner10.Ok? && MakeChainTT(transformation2, inner10.value, None).Ok?) <==>
        (SameDomain(transformation0.output_domain, transformation1.input_domain)
         && SameDomain(transformation1.output_domain, transformation2.input_domain))
    ensures
      SameDomain(transformation0.output_domain, transformation1.input_domain)
      && SameDomain(transformation1.output_domain, transformation2.input_domain) ==>
      && MakeChainTT(transformation2, transformation1, None).Ok?
      && MakeChainTT(transformation1, transformation0, None).Ok?
      && var left := MakeChainTT(MakeChainTT(transformation2, transformation1, None).value, transformation0, None);
         var right := MakeChainTT(transformation2, MakeChainTT(transformation1, transformation0, None).value, None);
         && left.Ok? && right.Ok?
         && left.value.input_domain == right.value.input_domain
         && left.value.output_domain == right.value.output_domain
         && left.value.input_metric == right.value.input_metric
         && left.value.output_metric == right.value.output_metric
         && left.value.stability_relation == right.value.stability_relation
         && left.value.func.Eval(arg) == right.value.func.Eval(arg)
  {
    ChainTTLeftAccepted(transformation2, transformation1, transformation0);
    ChainTTRightAccepted(transformation2, transformation1, transformation0);
    if SameDomain(transformation0.output_domain, transformation1.input_domain) && SameDomain(transformation1.output_domain, transformation2.input_domain) {
      ChainTTSameChain(transformation2, transformation1, transformation0, arg);
    }
  }

  /** The left bracketing `(2 . 1) . 0` is accepted exactly when both seams match. */
  lemma ChainTTLeftAccepted<QI(!new), QX(!new), QY(!new), QO(!new)>(
    transformation2: Transformation<QY, QO>, transformation1: Transformation<QX, QY>, transformation0: Transformation<QI, QX>)
    requires transformation0.output_metric == transformation1.input_metric
    requires transformation1.output_metric == transformation2.input_metric
    ensures
      var inner21 := MakeChainTT(transformation2, transformation1, None);
      (inner21.Ok? && MakeChainTT(inner21.value, transformation0, None).Ok?) <==>
        (SameDomain(transformation0.output_domain, transformation1.input_domain)
         && SameDomain(transformation1.output_domain, transformation2.input_domain))
  {
    var inner21 := MakeChainTT(transformation2, transformation1, None);
    if inner21.Ok? {
      assert inner21.value.input_domain == transformation1.input_domain;
    }
  }

  /** The right bracketing `2 . (1 . 0)` is accepted exactly when both seams match. */
  lemma ChainTTRightAccepted<QI(!new), QX(!new), QY(!new), QO(!new)>(
    transformation2: Transformation<QY, QO>, transformation1: Transformation<QX, QY>, transformation0: Transformation<QI, QX>)
    requires transformation0.output_metric == transformation1.input_metric
    requires transformation1.output_metric == transformation2.input_metric
    ensures
      var inner10 := MakeChainTT(transformation1, transformation0, None);
      (inner10.Ok? && MakeChainTT(transformation2, inner10.value, None).Ok?) <==>
        (SameDomain(transformation0.output_domain, transformation1.input_domain)
         && SameDomain(transformation1.output_domain, transformation2.input_domain))
  {
    var inner10 := MakeChainTT(transformation1, transformation0, None);
    if inner10.Ok? {
      assert inner10.value.output_domain == transformation1.output_domain;
    }
  }

  /** With both seams matching, the two bracketings agree on every part. */
  lemma ChainTTSameChain<QI(!new), QX(!new), QY(!new), QO(!new)>(
    transformation2: Transformation<QY, QO>, transformation1: Transformation<QX, QY>, transformation0: Transformation<QI, QX>,
    arg: Value)
    requires transformation0.output_metric == transformation1.input_metric
    requires transformation1.output_metric == transformation2.input_metric
    requires SameDomain(transformation0.output_domain, transformation1.input_domain)
    requires SameDomain(transformation1.output_domain, transformation2.input_domain)
    ensures MakeChainTT(transformation2, transformation1, None).Ok?
    ensures MakeChainTT(transformation1, transformation0, None).Ok?
    ensures
      var left := MakeChainTT(MakeChainTT(transformation2, transformation1, None).value, transformation0, None);
      var right := MakeChainTT(transformation2, MakeChainTT(transformation1, transformation0, None).value, None);
      && left.Ok? && right.Ok?
      && left.value.input_domain == right.value.input_domain
      && left.value.output_domain == right.value.output_domain
      && left.value.input_metric == right.value.input_metric
      && left.value.output_metric == right.value.output_metric
      && left.value.stability_relation == right.value.stability_relation
      && left.value.func.Eval(arg) == right.value.func.Eval(arg)
  {
    var inner10 := MakeChainTT(transformation1, transformation0, None).value;
    var inner21 := MakeChainTT(transformation2, transformation1, None).value;
    var left := MakeChainTT(inner21, transformation0, None);
    var right := MakeChainTT(transformation2, inner10, None);
    var x := transformation0.func.Eval(arg);
    assert left.value.func.Eval(arg) == inner21.func.Eval(x);
    assert inner21.func.Eval(x) == transformation2.func.Eval(transformation1.func.Eval(x));
    assert right.value.func.Eval(arg) == transformation2.func.Eval(inner10.func.Eval(arg));
    assert inner10.func.Eval(arg) == transformation1.func.Eval(x);
  }

  /** Chaining into a measurement after chaining transformations equals chaining twice
      into the measurement: both bracketings are accepted under the same domain conditions,
      and then have the same domains, metric, measure and behaviour. */
  lemma ChainMTAssociative<QI(!new), QX(!new), QY(!new), QO(!new)>(
    measurement2: Measurement<QY, QO>, transformation1: Transformation<QX, QY>, transformation0: Transformation<QI, QX>,
    arg: Value)
    requires transformation0.output_metric == transformation1.input_metric
    requires transformation1.output_metric == measurement2.input_metric
    ensures
      var inner21 := MakeChainMT(measurement2, transformation1);
      (inner21.Ok? && MakeChainMT(inner21.value, transformation0).Ok?) <==>
        (SameDomain(transformation0.output_domain, transformation1.input_domain)
         && SameDomain(transformation1.output_domain, measurement2.input_domain))
    ensures
      var inner10 := MakeChainTT(transformation1, transformation0, None);
      (inner10.Ok? && MakeChainMT(measurement2, inner10.value).Ok?) <==>
        (SameDomain(transformation0.output_domain, transformation1.input_domain)
         && SameDomain(transformation1.output_domain, measurement2.input_domain))
    ensures
      SameDomain(transformation0.output_domain, transformation1.input_domain)
      && SameDomain(transformation1.output_domain, measurement2.input_domain) ==>
      && MakeChainMT(measurement2, transformation1).Ok?
      && MakeChainTT(transformation1, transformation0, None).Ok?
      && var left := MakeChainMT(MakeChainMT(measurement2, transformation1).value, transformation0);
         var right := MakeChainMT(measurement2, MakeChainTT(transformation1, transformation0, None).value);
         && left.Ok? && right.Ok?
         && left.value.input_domain == right.value.input_domain
         && left.value.output_domain == right.value.output_domain
         && left.value.input_metric == right.value.input_metric
         && left.value.output_measure == right.value.output_measure
         && left.value.privacy_relation == right.value.privacy_relation
         && left.value.func.Eval(arg) == right.value.func.Eval(arg)
  {
    ChainMTLeftAccepted(measurement2, transformation1, transformation0);
    ChainMTRightAccepted(measurement2, transformation1, transformation0);
    if SameDomain(transformation0.output_domain, transformation1.input_domain) && SameDomain(transformation1.output_domain, measurement2.input_domain) {
      ChainMTSameChain(measurement2, transformation1, transformation0, arg);
    }
  }

  /** The left bracketing `(2 . 1) . 0` is accepted exactly when both seams match. */
  lemma ChainMTLeftAccepted<QI(!new), QX(!new), QY(!new), QO(!new)>(
    measurement2: Measurement<QY, QO>, transformation1: Transformation<QX, QY>, transformation0: Transformation<QI, QX>)
    requires transformation0.output_metric == transformation1.input_metric
    requires transformation1.output_metric == measurement2.input_metric
    ensures
      var inner21 := MakeChainMT(measurement2, transformation1);
      (inner21.Ok? && MakeChainMT(inner21.value, transformation0).Ok?) <==>
        (SameDomain(transformation0.output_domain, transformation1.input_domain)
         && SameDomain(transformation1.output_domain, measurement2.input_domain))
  {
    var inner21 := MakeChainMT(measurement2, transformation1);
    if inner21.Ok? {
      assert inner21.value.input_domain == transformation1.input_domain;
    }
  }

  /** The right bracketing `2 . (1 . 0)` is accepted exactly when both seams match. */
  lemma ChainMTRightAccepted<QI(!new), QX(!new), QY(!new), QO(!new)>(
    measurement2: Measurement<QY, QO>, transformation1: Transformation<QX, QY>, transformation0: Transformation<QI, QX>)
    requires transformation0.output_metric == transformation1.input_metric
    requires transformation1.output_metric == measurement2.input_metric
    ensures
      var inner10 := MakeChainTT(transformation1, transformation0, None);
      (inner10.Ok? && MakeChainMT(measurement2, inner10.value).Ok?) <==>
        (SameDomain(transformation0.output_domain, transformation1.input_domain)
         && SameDomain(transformation1.output_domain, measurement2.input_domain))
  {
    var inner10 := MakeChainTT(transformation1, transformation0, None);
    if inner10.Ok? {
      assert inner10.value.output_domain == transformation1.output_domain;
    }
  }

  /** With both seams matching, the two bracketings agree on every part. */
  lemma ChainMTSameChain<QI(!new), QX(!new), QY(!new), QO(!new)>(
    measurement2: Measurement<QY, QO>, transformation1: Transformation<QX, QY>, transformation0: Transformation<QI, QX>,
    arg: Value)
    requires transformation0.output_metric == transformation1.input_metric
    requires transformation1.output_metric == measurement2.input_metric
    requires SameDomain(transformation0.output_domain, transformation1.input_domain)
    requires SameDomain(transformation1.output_domain, measurement2.input_domain)
    ensures MakeChainMT(measurement2, transformation1).Ok?
    ensures MakeChainTT(transformation1, transformation0, None).Ok?
    ensures
      var left := MakeChainMT(MakeChainMT(measurement2, transformation1).value, transformation0);
      var right := MakeChainMT(measurement2, MakeChainTT(transformation1, transformation0, None).value);
      && left.Ok? && right.Ok?
      && left.value.input_domain == right.value.input_domain
      && left.value.output_domain == right.value.output_domain
      && left.value.input_metric == right.value.input_metric
      && left.value.output_measure == right.value.output_measure
      && left.value.privacy_relation == right.value.privacy_relation
      && left.value.func.Eval(arg) == right.value.func.Eval(arg)
  {
    var inner10 := MakeChainTT(transformation1, transformation0, None).value;
    var inner21 := MakeChainMT(measurement2, transformation1).value;
    var left := MakeChainMT(inner21, transformation0);
    var right := MakeChainMT(measurement2, inner10);
    var x := transformation0.func.Eval(arg);
    assert left.value.func.Eval(arg) == inner21.func.Eval(x);
    assert inner21.func.Eval(x) == measurement2.func.Eval(transformation1.func.Eval(x));
    assert right.value.func.Eval(arg) == measurement2.func.Eval(inner10.func.Eval(arg));
    assert inner10.func.Eval(arg) == transformation1.func.Eval(x);
  }

  // ---------------------------------------------------------------------------
  // The kernel's tests (core.rs), as evaluations

  /** `|a| a + 1` on an integer (the casts to i32, f32 and f64 keep the value). */
  function AddOne(x: Value): (y: Value) {
    if x.Num? then Num(x.n + 1) else x
  }

  /** `|a| a - 1` on an integer. */
  function SubOne(x: Value): (y: Value) {
    if x.Num? then Num(x.n - 1) else x
  }

  /** `test_identity`: a constant-stability identity returns 99 at 99. */
  lemma TestIdentity()
    ensures NewConstantStability(AllDomain(TInt), AllDomain(TInt), x => x, L1Sensitivity, L1Sensitivity, IntDistance(), 1)
      .func.Eval(Num(99)) == Num(99)
  {
  }

  /** `test_make_chain_mt`: `+1` then `+1` gives 101 at 99. */
  lemma TestMakeChainMT()
    ensures
      var transformation0 := NewConstantStability(AllDomain(TInt), AllDomain(TInt), AddOne, L1Sensitivity, L1Sensitivity, IntDistance(), 1);
      var measurement1 := NewMeasurement<int, int>(AllDomain(TInt), AllDomain(TFloat), AddOne, L1Sensitivity, MaxDivergence, (d_in, d_out) => true);
      var chain := MakeChainMT(measurement1, transformation0);
      chain.Ok? && chain.value.func.Eval(Num(99)) == Num(101)
  {
  }

  /** `test_make_chain_tt`: `+1` then `+1` gives 101 at 99. */
  lemma TestMakeChainTT()
    ensures
      var transformation0 := NewConstantStability(AllDomain(TInt), AllDomain(TInt), AddOne, L1Sensitivity, L1Sensitivity, IntDistance(), 1);
      var transformation1 := NewConstantStability(AllDomain(TInt), AllDomain(TFloat), AddOne, L1Sensitivity, L1Sensitivity, IntDistance(), 1);
      var chain := MakeChainTT(transformation1, transformation0, None);
      chain.Ok? && chain.value.func.Eval(Num(99)) == Num(101)
  {
  }

  /** `test_make_composition`: `+1` and `-1` on one input give the pair (100, 98) at 99. */
  lemma TestMakeComposition()
    ensures
      var measurement0 := NewMeasurement<int, int>(AllDomain(TInt), AllDomain(TFloat), AddOne, L1Sensitivity, MaxDivergence, (d_in, d_out) => true);
      var measurement1 := NewMeasurement<int, int>(AllDomain(TInt), AllDomain(TFloat), SubOne, L1Sensitivity, MaxDivergence, (d_in, d_out) => true);
      var composition := MakeComposition2(measurement0, measurement1);
      composition.Ok?
      && composition.value.output_domain == PairDomain(BoxDomain(AllDomain(TFloat)), BoxDomain(AllDomain(TFloat)))
      && composition.value.func.Eval(Num(99)) == Tuple(Num(100), Num(98))
  {
  }
}
