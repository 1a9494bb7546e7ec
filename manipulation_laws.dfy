/** Laws of the data-manipulation transformations: clamping lands in range, each builder
    respects its domains, identity is a unit of chaining, and the module's tests. */
module ManipulationLaws {
  import opened Wrappers
  import opened Dom
  import opened Core
  import opened Manipulation

  // ---------------------------------------------------------------------------
  // Clamping

  /** With orderable bounds and `lower <= upper`, a value comparable to both bounds is
      clamped into `[lower, upper]`. */
  lemma ClampInRange(lower: Value, upper: Value, x: Value)
    requires Orderable(lower) && Orderable(upper) && Le(lower, upper)
    requires Comparable(x, lower) && Comparable(x, upper)
    ensures Le(lower, Clamp(lower, upper, x)) && Le(Clamp(lower, upper, x), upper)
  {
    SelfCmp(lower);
    SelfCmp(upper);
    Trichotomy(x, lower);
    Trichotomy(x, upper);
  }

  /** Clamping leaves such a value unchanged exactly when it is already in range. */
  lemma ClampFixesInRange(lower: Value, upper: Value, x: Value)
    requires Orderable(lower) && Orderable(upper) && Le(lower, upper)
    requires Comparable(x, lower) && Comparable(x, upper)
    ensures Clamp(lower, upper, x) == x <==> Le(lower, x) && Le(x, upper)
  {
    CmpReverse(x, lower);
    CmpReverse(x, upper);
    if Clamp(lower, upper, x) == x {
      ClampInRange(lower, upper, x);
    }
  }

  /** Clamping twice is clamping once. */
  lemma ClampIdempotent(lower: Value, upper: Value, x: Value)
    requires Orderable(lower) && Orderable(upper) && Le(lower, upper)
    requires Comparable(x, lower) && Comparable(x, upper)
    ensures Clamp(lower, upper, Clamp(lower, upper, x)) == Clamp(lower, upper, x)
  {
    var y := Clamp(lower, upper, x);
    SelfCmp(lower);
    SelfCmp(upper);
    CmpReverse(lower, upper);
    ClampFixesInRange(lower, upper, y);
  }

  /** `clamp` compares tuples lexicographically: `(-3, 0)` is below `(0, 0)`. */
  lemma ClampPair()
    ensures Clamp(Tuple(Num(0), Num(0)), Tuple(Num(1), Num(0)), Tuple(Num(-3), Num(0))) == Tuple(Num(0), Num(0))
    ensures Clamp(Tuple(Num(0), Num(0)), Tuple(Num(1), Num(0)), Tuple(Num(0), Num(7))) == Tuple(Num(0), Num(7))
  {
  }

  // ---------------------------------------------------------------------------
  // The builders respect their domains

  /** Bounds of a totally ordered carrier that the interval accepts satisfy `lower <= upper`. */
  lemma AcceptedBoundsOrdered(carrier: Ty, lower: Value, upper: Value)
    requires TotallyOrdered(carrier) && HasType(lower, carrier) && HasType(upper, carrier)
    requires !Lt(upper, lower)
    ensures Le(lower, upper)
  {
    TotallyOrderedComparable(carrier, lower, upper);
    Trichotomy(lower, upper);
  }

  /** Orderable bounds of one carrier that the interval accepts satisfy `lower <= upper`. */
  lemma AcceptedOrderableBounds(carrier: Ty, lower: Value, upper: Value)
    requires HasType(lower, carrier) && HasType(upper, carrier) && Orderable(lower) && Orderable(upper)
    requires !Lt(upper, lower)
    ensures Le(lower, upper)
  {
    OrderableComparable(carrier, lower, upper);
    Trichotomy(lower, upper);
  }

  /** Scalar clamp with orderable bounds maps every orderable value of the carrier into its
      interval, and so respects its domains on a totally ordered carrier. A value holding a
      NaN may escape (see `ClampLetsNaNThrough`). */
  lemma ClampScalarRespects(carrier: Ty, lower: Value, upper: Value, metric: Metric)
    requires HasType(lower, carrier) && HasType(upper, carrier) && Orderable(lower) && Orderable(upper)
    requires MakeClampScalar(carrier, lower, upper, metric).Ok?
    ensures var t := MakeClampScalar(carrier, lower, upper, metric).value;
      forall x | Member(t.input_domain, x) && Orderable(x) :: Member(t.output_domain, t.func.Eval(x))
    ensures TotallyOrdered(carrier) ==> TransformationRespects(MakeClampScalar(carrier, lower, upper, metric).value)
  {
    var t := MakeClampScalar(carrier, lower, upper, metric).value;
    AcceptedOrderableBounds(carrier, lower, upper);
    forall x | Member(t.input_domain, x) && Orderable(x)
      ensures Member(t.output_domain, t.func.Eval(x))
    {
      OrderableComparable(carrier, x, lower);
      OrderableComparable(carrier, x, upper);
      ClampInRange(lower, upper, x);
    }
    if TotallyOrdered(carrier) {
      forall x | Member(t.input_domain, x)
        ensures Orderable(x)
      {
        TotallyOrderedOrderable(carrier, x);
      }
    }
  }

  /** Over floats a NaN argument passes through clamp and lands outside the interval, so the
      float clamp does not respect its declared output domain. */
  lemma ClampLetsNaNThrough(lower: int, upper: int, metric: Metric)
    requires lower <= upper
    ensures MakeClampScalar(TFloat, Num(lower), Num(upper), metric).Ok?
    ensures var t := MakeClampScalar(TFloat, Num(lower), Num(upper), metric).value;
      && Member(t.input_domain, NaN)
      && t.func.Eval(NaN) == NaN
      && !Member(t.output_domain, NaN)
      && !TransformationRespects(t)
  {
    var t := MakeClampScalar(TFloat, Num(lower), Num(upper), metric).value;
    IntervalNaN(Included(Num(lower)), Included(Num(upper)));
    assert Member(t.input_domain, NaN);
  }

  /** Vector clamp with orderable bounds maps vectors of orderable values into vectors of
      its interval, and so respects its domains on a totally ordered carrier. */
  lemma ClampVecRespects(carrier: Ty, lower: Value, upper: Value, metric: Metric)
    requires HasType(lower, carrier) && HasType(upper, carrier) && Orderable(lower) && Orderable(upper)
    requires MakeClampVec(carrier, lower, upper, metric).Ok?
    ensures var t := MakeClampVec(carrier, lower, upper, metric).value;
      forall v | Member(t.input_domain, v) && Orderable(v) :: Member(t.output_domain, t.func.Eval(v))
    ensures TotallyOrdered(carrier) ==> TransformationRespects(MakeClampVec(carrier, lower, upper, metric).value)
  {
    var t := MakeClampVec(carrier, lower, upper, metric).value;
    var f := x => Clamp(lower, upper, x);
    var element := IntervalDomain(carrier, Included(lower), Included(upper));
    AcceptedOrderableBounds(carrier, lower, upper);
    forall x | Member(AllDomain(carrier), x) && Orderable(x)
      ensures Member(element, f(x))
    {
      OrderableComparable(carrier, x, lower);
      OrderableComparable(carrier, x, upper);
      ClampInRange(lower, upper, x);
    }
    ElementwiseRespectsOrderable(f, AllDomain(carrier), element, t);
    if TotallyOrdered(carrier) {
      forall v | Member(t.input_domain, v)
        ensures Orderable(v)
      {
        MemberHasType(t.input_domain, v);
        TotallyOrderedOrderable(TVec(carrier), v);
      }
    }
  }

  /** As `ElementwiseRespects`, for vectors of orderable values only. */
  lemma ElementwiseRespectsOrderable(f: Value -> Value, element_in: Domain, element_out: Domain, t: Transformation<int, int>)
    requires t.input_domain == VectorDomain(element_in) && t.output_domain == VectorDomain(element_out)
    requires forall items :: MappedFrom(f, items, t.func.Eval(Vec(items)))
    requires forall x | Member(element_in, x) && Orderable(x) :: Member(element_out, f(x))
    ensures forall v | Member(t.input_domain, v) && Orderable(v) :: Member(t.output_domain, t.func.Eval(v))
  {
    forall v | Member(t.input_domain, v) && Orderable(v)
      ensures Member(t.output_domain, t.func.Eval(v))
    {
      assert v == Vec(v.items);
      forall i | 0 <= i < |v.items|
        ensures Member(element_out, f(v.items[i]))
      {
        assert Member(element_in, v.items[i]) && Orderable(v.items[i]);
      }
      MappedInto(f, element_out, v.items, t.func.Eval(Vec(v.items)));
    }
  }

  /** A transformation whose function maps `f` over vectors respects vector domains over
      element domains that `f` maps between. */
  lemma ElementwiseRespects(f: Value -> Value, element_in: Domain, element_out: Domain, t: Transformation<int, int>)
    requires t.input_domain == VectorDomain(element_in) && t.output_domain == VectorDomain(element_out)
    requires forall items :: MappedFrom(f, items, t.func.Eval(Vec(items)))
    requires forall x | Member(element_in, x) :: Member(element_out, f(x))
    ensures TransformationRespects(t)
  {
    forall v | Member(t.input_domain, v)
      ensures Member(t.output_domain, t.func.Eval(v))
    {
      assert v == Vec(v.items);
      forall i | 0 <= i < |v.items|
        ensures Member(element_out, f(v.items[i]))
      {
        assert Member(element_in, v.items[i]);
      }
      MappedInto(f, element_out, v.items, t.func.Eval(Vec(v.items)));
    }
  }

  /** Unclamping maps the interval into the whole carrier. */
  lemma UnclampScalarRespects(carrier: Ty, lower: Bound, upper: Bound, metric: Metric)
    requires MakeUnclampScalar(carrier, lower, upper, metric).Ok?
    ensures TransformationRespects(MakeUnclampScalar(carrier, lower, upper, metric).value)
  {
  }

  /** Vector unclamp maps vectors of the interval into vectors of the carrier. */
  lemma UnclampVecRespects(carrier: Ty, lower: Value, upper: Value, metric: Metric)
    requires MakeUnclampVec(carrier, lower, upper, metric).Ok?
    ensures TransformationRespects(MakeUnclampVec(carrier, lower, upper, metric).value)
  {
    var t := MakeUnclampVec(carrier, lower, upper, metric).value;
    forall v | Member(t.input_domain, v)
      ensures Member(t.output_domain, t.func.Eval(v))
    {
      forall i | 0 <= i < |v.items|
        ensures Member(AllDomain(carrier), v.items[i])
      {
        assert Member(IntervalDomain(carrier, Included(lower), Included(upper)), v.items[i]);
      }
    }
  }

  /** The defaulted cast always yields a value of the output carrier. */
  ghost predicate CastsInto(cast: Value -> Option<Value>, default: Value, output_carrier: Ty) {
    forall x :: HasType(CastOrDefault(cast, default, x), output_carrier)
  }

  /** A defaulted cast that always yields a value of the output carrier (as `TO::cast` and
      `TO::default` do by their types) maps vectors of the input carrier into vectors of the
      output carrier. */
  lemma CastVecRespects(input_carrier: Ty, output_carrier: Ty, cast: Value -> Option<Value>, default: Value, metric: Metric)
    requires metric.IsDatasetMetric()
    requires CastsInto(cast, default, output_carrier)
    ensures TransformationRespects(MakeCastVec(input_carrier, output_carrier, cast, default, metric).value)
  {
    CastVecDomains(input_carrier, output_carrier, cast, default, metric);
    CastVecAt(input_carrier, output_carrier, cast, default, MakeCastVec(input_carrier, output_carrier, cast, default, metric).value);
  }

  /** The scalar cast maps the input carrier into the output carrier when the defaulted
      cast does. */
  lemma CastScalarRespects(input_carrier: Ty, output_carrier: Ty, cast: Value -> Option<Value>, default: Value, metric: Metric)
    requires CastsInto(cast, default, output_carrier)
    ensures TransformationRespects(MakeCastScalar(input_carrier, output_carrier, cast, default, metric).value)
  {
    var t := MakeCastScalar(input_carrier, output_carrier, cast, default, metric).value;
    forall v | Member(t.input_domain, v)
      ensures Member(t.output_domain, t.func.Eval(v))
    {
      assert HasType(CastOrDefault(cast, default, v), output_carrier);
    }
  }

  /** The vector cast goes between vectors of the two carriers. */
  lemma CastVecDomains(input_carrier: Ty, output_carrier: Ty, cast: Value -> Option<Value>, default: Value, metric: Metric)
    requires metric.IsDatasetMetric()
    ensures MakeCastVec(input_carrier, output_carrier, cast, default, metric).value.input_domain == VectorDomain(AllDomain(input_carrier))
    ensures MakeCastVec(input_carrier, output_carrier, cast, default, metric).value.output_domain == VectorDomain(AllDomain(output_carrier))
  {
  }

  /** A transformation that maps the defaulted cast over vectors of the input carrier lands in
      vectors of the output carrier when that cast does. */
  lemma CastVecAt(input_carrier: Ty, output_carrier: Ty, cast: Value -> Option<Value>, default: Value, t: Transformation<int, int>)
    requires t.input_domain == VectorDomain(AllDomain(input_carrier)) && t.output_domain == VectorDomain(AllDomain(output_carrier))
    requires forall items :: MappedFrom(DefaultedCast(cast, default), items, t.func.Eval(Vec(items)))
    requires CastsInto(cast, default, output_carrier)
    ensures TransformationRespects(t)
  {
    ElementwiseRespects(DefaultedCast(cast, default), AllDomain(input_carrier), AllDomain(output_carrier), t);
  }

  /** The defaulted cast yields a value of the output carrier whenever the default and every
      successful cast do. */
  lemma CastOrDefaultTyped(output_carrier: Ty, cast: Value -> Option<Value>, default: Value)
    requires HasType(default, output_carrier)
    requires forall v :: cast(v).Some? ==> HasType(cast(v).value, output_carrier)
    ensures CastsInto(cast, default, output_carrier)
  {
    forall x
      ensures HasType(CastOrDefault(cast, default, x), output_carrier)
    {
      if cast(x).Some? {
        assert HasType(cast(x).value, output_carrier);
      }
    }
  }

  /** The vector cast's function is the element-wise defaulted cast. */
  lemma CastElementwise(input_carrier: Ty, output_carrier: Ty, cast: Value -> Option<Value>, default: Value, metric: Metric, items: seq<Value>)
    requires metric.IsDatasetMetric()
    ensures MappedFrom(DefaultedCast(cast, default), items,
      MakeCastVec(input_carrier, output_carrier, cast, default, metric).value.func.Eval(Vec(items)))
  {
  }

  /** A vector mapped element-wise into a domain is a member of the vector domain over it. */
  lemma MappedInto(f: Value -> Value, element: Domain, items: seq<Value>, output: Value)
    requires MappedFrom(f, items, output)
    requires forall i | 0 <= i < |items| :: Member(element, f(items[i]))
    ensures Member(VectorDomain(element), output)
  {
    forall i | 0 <= i < |output.items|
      ensures Member(element, output.items[i])
    {
      assert output.items[i] == f(items[i]);
    }
  }

  // ---------------------------------------------------------------------------
  // Chaining

  /** Unclamp then clamp, on the same bounds and metric, is accepted: the unclamp's output
      domain is the clamp's input domain. The chain maps vectors of the interval into it. */
  lemma UnclampThenClamp(carrier: Ty, lower: Value, upper: Value, metric: Metric)
    requires !Lt(upper, lower)
    ensures MakeChainTT(MakeClampVec(carrier, lower, upper, metric).value, MakeUnclampVec(carrier, lower, upper, metric).value, None).Ok?
    ensures var chain := MakeChainTT(MakeClampVec(carrier, lower, upper, metric).value, MakeUnclampVec(carrier, lower, upper, metric).value, None).value;
      chain.input_domain == chain.output_domain
  {
    var unclamp := MakeUnclampVec(carrier, lower, upper, metric);
    var clamp := MakeClampVec(carrier, lower, upper, metric);
    var seam := VectorDomain(AllDomain(carrier));
    assert unclamp.value.output_domain == seam && clamp.value.input_domain == seam;
    assert OrderableBounds(seam);
  }

  /** The identity on a transformation's output domain is a right unit of chaining. It is
      accepted exactly when that domain is equal to itself, i.e. holds no NaN bound. */
  lemma IdentityAfter(transformation: Transformation<int, int>, arg: Value)
    ensures var chain := MakeChainTT(MakeIdentity(transformation.output_domain, transformation.output_metric).value, transformation, None);
      && (chain.Ok? <==> OrderableBounds(transformation.output_domain))
      && (chain.Ok? ==>
        && chain.value.input_domain == transformation.input_domain
        && chain.value.output_domain == transformation.output_domain
        && chain.value.input_metric == transformation.input_metric
        && chain.value.output_metric == transformation.output_metric
        && chain.value.func.Eval(arg) == transformation.func.Eval(arg))
  {
    var identity := MakeIdentity(transformation.output_domain, transformation.output_metric).value;
    assert identity.func.Eval(transformation.func.Eval(arg)) == transformation.func.Eval(arg);
  }

  /** The identity on a transformation's input domain is a left unit of chaining, accepted
      exactly when that domain holds no NaN bound. */
  lemma IdentityBefore(transformation: Transformation<int, int>, arg: Value)
    ensures var chain := MakeChainTT(transformation, MakeIdentity(transformation.input_domain, transformation.input_metric).value, None);
      && (chain.Ok? <==> OrderableBounds(transformation.input_domain))
      && (chain.Ok? ==>
        && chain.value.input_domain == transformation.input_domain
        && chain.value.output_domain == transformation.output_domain
        && chain.value.input_metric == transformation.input_metric
        && chain.value.output_metric == transformation.output_metric
        && chain.value.func.Eval(arg) == transformation.func.Eval(arg))
  {
    var identity := MakeIdentity(transformation.input_domain, transformation.input_metric).value;
    assert identity.func.Eval(arg) == arg;
  }

  /** Clamp then unclamp on the same bounds meet at the interval's vector domain, so the
      chain is accepted exactly when both bounds are orderable: a NaN bound makes the
      interval unequal to itself and the chain fails. */
  lemma ClampThenUnclamp(carrier: Ty, lower: Value, upper: Value, metric: Metric)
    requires !Lt(upper, lower)
    ensures MakeChainTT(MakeUnclampVec(carrier, lower, upper, metric).value, MakeClampVec(carrier, lower, upper, metric).value, None).Ok?
      <==> Orderable(lower) && Orderable(upper)
  {
    ClampVecShape(carrier, lower, upper, metric);
    UnclampVecShape(carrier, lower, upper, metric);
    ChainThroughInterval(MakeUnclampVec(carrier, lower, upper, metric).value, MakeClampVec(carrier, lower, upper, metric).value, carrier, lower, upper);
  }

  /** Two transformations that meet at vectors of a closed interval chain exactly when both
      of its bounds are orderable. */
  lemma ChainThroughInterval(transformation1: Transformation<int, int>, transformation0: Transformation<int, int>, carrier: Ty, lower: Value, upper: Value)
    requires transformation0.output_domain == VectorDomain(IntervalDomain(carrier, Included(lower), Included(upper)))
    requires transformation1.input_domain == transformation0.output_domain
    requires transformation0.output_metric == transformation1.input_metric
    ensures MakeChainTT(transformation1, transformation0, None).Ok? <==> Orderable(lower) && Orderable(upper)
  {
    ChainAtSeam(transformation1, transformation0, transformation0.output_domain);
    IntervalVecBounds(carrier, lower, upper);
  }

  lemma IntervalVecBounds(carrier: Ty, lower: Value, upper: Value)
    ensures OrderableBounds(VectorDomain(IntervalDomain(carrier, Included(lower), Included(upper))))
      <==> Orderable(lower) && Orderable(upper)
  {
  }

  /** The vector clamp on accepted bounds ends at vectors of its interval, with its metric. */
  lemma ClampVecShape(carrier: Ty, lower: Value, upper: Value, metric: Metric)
    requires !Lt(upper, lower)
    ensures MakeClampVec(carrier, lower, upper, metric).Ok?
    ensures MakeClampVec(carrier, lower, upper, metric).value.output_domain == VectorDomain(IntervalDomain(carrier, Included(lower), Included(upper)))
    ensures MakeClampVec(carrier, lower, upper, metric).value.output_metric == metric
  {
  }

  /** The vector unclamp on accepted bounds starts at vectors of its interval, with its metric. */
  lemma UnclampVecShape(carrier: Ty, lower: Value, upper: Value, metric: Metric)
    requires !Lt(upper, lower)
    ensures MakeUnclampVec(carrier, lower, upper, metric).Ok?
    ensures MakeUnclampVec(carrier, lower, upper, metric).value.input_domain == VectorDomain(IntervalDomain(carrier, Included(lower), Included(upper)))
    ensures MakeUnclampVec(carrier, lower, upper, metric).value.input_metric == metric
  {
  }

  /** Two transformations that meet at one domain and share the metric there chain exactly
      when that domain is equal to itself. */
  lemma ChainAtSeam(transformation1: Transformation<int, int>, transformation0: Transformation<int, int>, seam: Domain)
    requires transformation0.output_domain == seam && transformation1.input_domain == seam
    requires transformation0.output_metric == transformation1.input_metric
    ensures MakeChainTT(transformation1, transformation0, None).Ok? <==> OrderableBounds(seam)
  {
  }

  /** Chaining the 1-stable relations of two builders derives `d_out >= d_in` again, with
      identity maps. */
  lemma UnitStableChain(transformation1: Transformation<int, int>, transformation0: Transformation<int, int>)
    requires UnitStable(transformation1) && UnitStable(transformation0)
    ensures var chain := MakeChainRelation(transformation1.stability_relation.relation, transformation0.stability_relation.relation, None);
      && chain.Ok?
      && (forall d_in, d_out :: chain.value.Eval(d_in, d_out) <==> d_out >= d_in)
      && chain.value.forward_map.Some? && (forall d_in :: chain.value.forward_map.value(d_in) == d_in)
      && chain.value.backward_map.Some? && (forall d_out :: chain.value.backward_map.value(d_out) == d_out)
  {
    var u := UnitRelation();
    assert transformation1.stability_relation.relation == u && transformation0.stability_relation.relation == u;
    UnitChain(u);
  }

  /** A relation `d_out >= d_in` with identity maps, chained with itself, is itself. */
  lemma UnitChain(u: StabilityRelation<int, int>)
    requires forall d_in, d_out :: u.Eval(d_in, d_out) <==> d_out >= d_in
    requires u.forward_map.Some? && forall d_in :: u.forward_map.value(d_in) == d_in
    requires u.backward_map.Some? && forall d_out :: u.backward_map.value(d_out) == d_out
    ensures var chain := MakeChainRelation(u, u, None);
      && chain.Ok?
      && (forall d_in, d_out :: chain.value.Eval(d_in, d_out) <==> d_out >= d_in)
      && chain.value.forward_map.Some? && (forall d_in :: chain.value.forward_map.value(d_in) == d_in)
      && chain.value.backward_map.Some? && (forall d_out :: chain.value.backward_map.value(d_out) == d_out)
  {
    var chain := MakeChainRelation(u, u, None);
    assert chain == MakeChainNoHint(u, u);
    forall d_in: int, d_out: int
      ensures chain.value.Eval(d_in, d_out) <==> d_out >= d_in
    {
      assert u.forward_map.value(d_in) == d_in;
    }
  }

  // ---------------------------------------------------------------------------
  // The module's tests, as evaluations

  /** Decimal digits to a number; None when a character is not a digit. */
  function DecimalValue(s: string): (n: Option<nat>)
    decreases |s|
  {
    if |s| == 0 then Some(0)
    else if '0' <= s[|s| - 1] <= '9' then
      match DecimalValue(s[..|s| - 1])
      case Some(n) => Some(10 * n + ((s[|s| - 1] as int) - ('0' as int)))
      case None => None
    else None
  }

  /** `u8` from decimal text: empty text, a non-digit or a value above 255 fail. */
  function ParseU8(v: Value): (r: Option<Value>) {
    if v.Str? && |v.s| > 0 then
      match DecimalValue(v.s)
      case Some(n) => if n <= 255 then Some(Num(n)) else None
      case None => None
    else None
  }

  /** `u8` from a float: NaN and values outside 0..255 fail. */
  function FloatToU8(v: Value): (r: Option<Value>) {
    if v.Num? && 0 <= v.n <= 255 then Some(v) else None
  }

  /** `test_identity`: 99 comes back as 99. */
  lemma TestIdentity()
    ensures MakeIdentity(AllDomain(TInt), HammingDistance).value.func.Eval(Num(99)) == Num(99)
  {
  }

  /** `test_make_clamp`: clamping `[-10, -5, 0, 5, 10, 20]` to `[0, 10]`. */
  lemma TestMakeClamp()
    ensures MakeClampVec(TInt, Num(0), Num(10), HammingDistance).Ok?
    ensures MakeClampVec(TInt, Num(0), Num(10), HammingDistance).value.func.Eval(
        Vec([Num(-10), Num(-5), Num(0), Num(5), Num(10), Num(20)]))
      == Vec([Num(0), Num(0), Num(0), Num(5), Num(10), Num(10)])
  {
    var items := [Num(-10), Num(-5), Num(0), Num(5), Num(10), Num(20)];
    ClampVecElementwise(TInt, Num(0), Num(10), HammingDistance, items);
    ClampedTestData(MakeClampVec(TInt, Num(0), Num(10), HammingDistance).value.func.Eval(Vec(items)));
  }

  /** The vector clamp's function is the element-wise clamp. */
  lemma ClampVecElementwise(carrier: Ty, lower: Value, upper: Value, metric: Metric, items: seq<Value>)
    requires !Lt(upper, lower)
    ensures MakeClampVec(carrier, lower, upper, metric).Ok?
    ensures MappedFrom(x => Clamp(lower, upper, x), items, MakeClampVec(carrier, lower, upper, metric).value.func.Eval(Vec(items)))
  {
  }

  /** The clamped test vector, element by element. */
  lemma ClampedTestData(output: Value)
    requires MappedFrom(x => Clamp(Num(0), Num(10), x), [Num(-10), Num(-5), Num(0), Num(5), Num(10), Num(20)], output)
    ensures output == Vec([Num(0), Num(0), Num(0), Num(5), Num(10), Num(10)])
  {
    var items := [Num(-10), Num(-5), Num(0), Num(5), Num(10), Num(20)];
    var expected := [Num(0), Num(0), Num(0), Num(5), Num(10), Num(10)];
    forall i | 0 <= i < 6
      ensures output.items[i] == expected[i]
    {
      assert output.items[i] == Clamp(Num(0), Num(10), items[i]);
    }
    assert output.items == expected;
  }

  /** `test_unclamp`: unclamp on `[2, 3]` chains into clamp on `[2, 3]`. */
  lemma TestUnclamp()
    ensures MakeClampVec(TInt, Num(2), Num(3), SymmetricDistance).Ok?
    ensures MakeUnclampVec(TInt, Num(2), Num(3), SymmetricDistance).Ok?
    ensures MakeChainTT(MakeClampVec(TInt, Num(2), Num(3), SymmetricDistance).value,
      MakeUnclampVec(TInt, Num(2), Num(3), SymmetricDistance).value, None).Ok?
  {
    assert !Lt(Num(3), Num(2));
    UnclampThenClamp(TInt, Num(2), Num(3), SymmetricDistance);
  }

  /** `test_cast_parse`: `["2", "3", "a", ""]` cast to `u8` is `[2, 3, 0, 0]`. */
  lemma TestCastParse()
    ensures MakeCastVec(TStr, TInt, ParseU8, Num(0), SymmetricDistance).value.func.Eval(
        Vec([Str("2"), Str("3"), Str("a"), Str("")]))
      == Vec([Num(2), Num(3), Num(0), Num(0)])
  {
    var items := [Str("2"), Str("3"), Str("a"), Str("")];
    CastElementwise(TStr, TInt, ParseU8, Num(0), SymmetricDistance, items);
    ParsedTestData(MakeCastVec(TStr, TInt, ParseU8, Num(0), SymmetricDistance).value.func.Eval(Vec(items)));
  }

  /** The parsed test vector, element by element. */
  lemma ParsedTestData(output: Value)
    requires MappedFrom(DefaultedCast(ParseU8, Num(0)), [Str("2"), Str("3"), Str("a"), Str("")], output)
    ensures output == Vec([Num(2), Num(3), Num(0), Num(0)])
  {
    var items := [Str("2"), Str("3"), Str("a"), Str("")];
    var expected := [Num(2), Num(3), Num(0), Num(0)];
    assert DecimalValue("2") == Some(2) && DecimalValue("3") == Some(3) && DecimalValue("a") == None;
    forall i | 0 <= i < 4
      ensures output.items[i] == expected[i]
    {
      assert output.items[i] == CastOrDefault(ParseU8, Num(0), items[i]);
    }
    assert output.items == expected;
  }

  /** Parsing text to `u8` with default 0 always yields an integer, so the text-to-`u8`
      vector cast of `test_cast_parse` respects its domains. */
  lemma ParseCastRespects()
    ensures TransformationRespects(MakeCastVec(TStr, TInt, ParseU8, Num(0), SymmetricDistance).value)
  {
    CastOrDefaultTyped(TInt, ParseU8, Num(0));
    CastVecRespects(TStr, TInt, ParseU8, Num(0), SymmetricDistance);
  }

  /** `test_cast_unsigned`: `[-1.0]` cast to `u8` is `[0]`. */
  lemma TestCastUnsigned()
    ensures MakeCastVec(TFloat, TInt, FloatToU8, Num(0), SymmetricDistance).value.func.Eval(Vec([Num(-1)]))
      == Vec([Num(0)])
  {
    var output := MakeCastVec(TFloat, TInt, FloatToU8, Num(0), SymmetricDistance).value.func.Eval(Vec([Num(-1)]));
    assert MappedFrom(DefaultedCast(FloatToU8, Num(0)), [Num(-1)], output);
    assert output.items == [Num(0)];
  }
}
