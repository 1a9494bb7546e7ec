# A verified model of the OpenDP kernel

This project models the compositional kernel of the OpenDP Rust library in Dafny:

- the calculus of `core.rs`: functions, stability and privacy relations, the
  `new_from_constant` shortcut, relation chaining through an intermediate distance, the
  `Transformation` and `Measurement` bundles, and the `ChainMT`, `ChainTT` and
  `Composition` combinators;
- the domain algebra of `dom.rs`: every domain's membership predicate, and the validating
  constructor `IntervalDomain::new`;
- the builders of `trans/manipulation.rs`: identity, clamp, unclamp and cast, each in a
  vector and a scalar form.

The source is pure code. It builds immutable bundles from closures and checks membership
with expressions. The model therefore consists of datatypes, functions and lemmas.

Modelling choices:

- **Carrier types.** A Rust carrier type is a `Ty` and a carrier value a `Value`.
  `HasType` is the typing the Rust compiler enforces. `Member(d, v)` includes that typing,
  so "AllDomain accepts every value" reads "every value of its carrier".
- **Floats.** A non-NaN float is an integer `Num`; NaN is the separate value `NaN`.
- **Order.** `PartialCmp` is the standard library's `partial_cmp` on carrier values:
  numbers by value, strings by character code, and tuples, vectors and options
  lexicographically (a proper prefix is less, `None` is below every `Some`). It is
  undefined when a NaN decides the comparison, between values of different shapes, and on
  maps and dynamic values. `<` and `==` are `partial_cmp` giving `Less` and `Equal`, so NaN
  is not equal to itself (`SelfCmp`).
- **Domain equality.** The derived `PartialEq` of the domains is `DomainEq`. It compares
  interval bounds with the carrier's `==`, so an interval with a NaN bound is not equal to
  itself (`NaNBoundUnequal`), and `DomainEqIff` shows that two domains are equal exactly
  when they are one domain whose interval bounds are all orderable (`SameDomain`). In Rust,
  domains of different shapes or carriers have different types and cannot be compared at
  all; here they compare unequal.
- **Shared type parameters.** A chain shares one metric type `MX` at its seam, and a
  composition shares `MI` and `MO`, so Rust cannot build a mismatched pair. The model
  states these equalities as preconditions of `MakeChainMT`, `MakeChainTT` and
  `MakeComposition2`, and of the laws about them.
- **Distances.** Distances are generic. `new_from_constant` receives the trait operations
  it uses (`DistanceCast` in both directions, `Mul`, `Div`, `>=`) as a `DistanceOps`
  record. The builders use integer distances on unbounded integers, with Rust's truncating
  division.
- **Failures.** A `Fallible` error and a panic (`assert!`, `panic!`) are both a `Result`
  error; a panic has kind `Panic`.
- **Placeholder relations.** The combinators install an always-false placeholder relation
  (core.rs:408, 425, 478). The model records it as the marker `NotDerived`.

Where the code and its documentation part ways, the model follows the code:

- `IntervalDomain::new` compares the two bound values only through `PartialOrd`. It
  therefore accepts two equal excluded bounds, which give an empty domain
  (`ExcludedEqualBoundsEmpty`). It also accepts bounds that cannot be compared, such as
  NaN. Two equal bound values count as equal only when they hold no NaN.
- Over floats, `clamp` returns a NaN argument unchanged, because every comparison with
  NaN is false. That NaN lies outside the declared output interval, so the float clamp
  does not keep its output-domain promise (`ClampLetsNaNThrough`).
- `manipulation.rs` calls `Transformation::new` with a `Function` and a
  `StabilityRelation` rather than the closures that `core.rs` declares. It also passes the
  `Fallible` result of `IntervalDomain::new` where a domain is expected. The model builds
  the bundle with the given relation, and propagates the interval constructor's error as
  `?` would.

## Model

| member | source | states |
|---|---|---|
| Core.MakeChain | rust/opendp/src/core.rs:63-74 | the chained function evaluates the outer function on the inner one's result |
| Core.MakeComposition | rust/opendp/src/core.rs:76-88 | the composed function evaluates both functions on the same argument and pairs the results |
| Core.NewPrivacyRelation | rust/opendp/src/core.rs:145-148 | the relation is the given predicate, with no backward map |
| Core.NewStabilityRelation | rust/opendp/src/core.rs:170-173 | the relation is the given predicate, with neither map |
| Core.NewFromConstant | rust/opendp/src/core.rs:185-201 | holds iff `d_out >= cast(d_in) * c`; both maps are present; forward is `cast(d_in) * c`; backward is `cast(d_out / c)`; the casts are taken to succeed (see Left out) |
| Core.ChainOptionMaps | rust/opendp/src/core.rs:235-243 | present iff both maps are present, and then the composition of the two |
| Core.MakeChainHint | rust/opendp/src/core.rs:234-254 | holds iff both relations hold through the hinted distance; each derived map exists iff both operand maps exist and is their composition, the backward one in reverse order |
| Core.MakeChainNoHint | rust/opendp/src/core.rs:216-232 | succeeds iff the inner forward map or the outer backward map exists; the middle distance is the inner forward map's image, else the outer backward map's image; otherwise a panic |
| Core.MakeChainRelation | rust/opendp/src/core.rs:207-214 | fails exactly when there is no hint and neither map; an explicit hint takes priority over the maps; without a hint it is the map-based chain |
| Core.NewMeasurement | rust/opendp/src/core.rs:268-285 | the bundle holds the given domains, function, metric and measure; its privacy relation is the given predicate, with no backward map |
| Core.NewTransformation | rust/opendp/src/core.rs:297-314 | the bundle holds the given parts; its stability relation is the given predicate, with no maps |
| Core.NewConstantStability | rust/opendp/src/core.rs:315-333 | the bundle holds the given parts; its relation is the c-stable one, with both maps |
| Core.MakeChainMT | rust/opendp/src/core.rs:384-410 | with the metric shared at the seam, accepted iff the inner output domain equals the measurement's input domain under `PartialEq` (one domain with orderable interval bounds), else a panic; input domain and metric come from the transformation; output domain and measure come from the measurement; the function is the chain; the relation is not derived |
| Core.MakeChainTT | rust/opendp/src/core.rs:413-444 | with the metric shared at the seam, accepted iff the inner output domain equals the outer input domain under `PartialEq` (one domain with orderable interval bounds), else a panic; domains and metrics come from the two ends; the function is the chain; the relation is not derived |
| Core.MakeComposition2 | rust/opendp/src/core.rs:446-480 | with the input metric and output measure shared, accepted iff the input domains are equal under `PartialEq` (one domain with orderable interval bounds), else a panic; the output domain is `Pair(Box(out0), Box(out1))`; metric and measure are the shared ones; the function pairs both outputs; the relation is not derived |
| Distances.TruncDiv | rust/opendp/src/core.rs:198-199 | integer `/` truncating toward zero: for a nonzero divisor, `q * b` lies between 0 and `a` and within `|b|` of `a`; dividing by 1 keeps the value and dividing by -1 negates it |
| Distances.TruncDivRoundsTowardZero | rust/opendp/src/core.rs:198-199 | on a negative operand the truncated quotient differs from the Euclidean one (-7 / 2 is -3, not -4) |
| Distances.TruncDivUnique | rust/opendp/src/core.rs:198-199 | the bounds of `TruncDiv`'s contract determine the quotient: any `q` within them is `TruncDiv(a, b)` |
| Distances.TruncDivEuclidean | rust/opendp/src/core.rs:198-199 | on a non-negative dividend and a positive divisor the truncated quotient is the Euclidean one |
| Distances.IntFromConstant | rust/opendp/src/core.rs:185-201 | over integer distances the c-stable relation holds iff `d_out >= d_in * c`; forward is `d_in * c`; backward is `d_out / c` truncated |
| CoreLaws.FromConstantForwardSound | rust/opendp/src/core.rs:193-197 | with a reflexive `>=`, the c-stable relation holds at `(d_in, forward(d_in))` |
| CoreLaws.FromConstantMonotone | rust/opendp/src/core.rs:193-195 | with a transitive `>=`, the c-stable relation stays true when the output distance grows |
| CoreLaws.ChainForwardSound | rust/opendp/src/core.rs:216-254 | chaining two relations whose forward maps are sound gives a relation whose forward map is sound |
| CoreLaws.ChainBackwardSound | rust/opendp/src/core.rs:216-254 | with no inner forward map, chaining two relations whose backward maps are sound gives a relation whose backward map is sound |
| CoreLaws.ChainMonotone | rust/opendp/src/core.rs:216-250 | through the inner forward map, the chain is monotone in the output distance whenever the outer relation is |
| CoreLaws.ChainJustified | rust/opendp/src/core.rs:207-250 | wherever a chained relation holds, some middle distance satisfies both operand relations |
| CoreLaws.ChainIsComposition | rust/opendp/src/core.rs:216-250 | with a tight inner forward map and an outer relation antitone in its input, the chain holds iff some middle distance satisfies both operands |
| CoreLaws.ChainRelationAssociative | rust/opendp/src/core.rs:216-254 | when all three forward maps exist, both bracketings of a three-relation chain hold at the same distances and have the same forward map |
| CoreLaws.ChainThroughForward | rust/opendp/src/core.rs:216-250 | the chain without a hint holds at `(d_in, d_out)` iff both relations hold through the inner forward map's image of `d_in` |
| CoreLaws.ConstantChainMultiplies | rust/opendp/src/core.rs:185-254 | chaining a c0-stable and a c1-stable integer relation holds iff `d_out >= (d_in * c0) * c1` |
| CoreLaws.ConstantChainForward | rust/opendp/src/core.rs:251 | the forward map of that chain multiplies by c0 and then by c1 |
| CoreLaws.ChainTTRespects | rust/opendp/src/core.rs:416-428 | chaining two transformations whose functions map their input domains into their output domains gives one that does too |
| CoreLaws.ChainMTRespects | rust/opendp/src/core.rs:399-410 | chaining a transformation into a measurement preserves that same property |
| CoreLaws.CompositionRespects | rust/opendp/src/core.rs:462-480 | the paired output of a composition lies in the pair of the two output domains |
| CoreLaws.ChainTTAssociative | rust/opendp/src/core.rs:416-428 | both bracketings of three transformations are accepted iff both seams match; then they agree on domains, metrics, relation and function |
| CoreLaws.ChainMTAssociative | rust/opendp/src/core.rs:399-428 | chaining transformations and then a measurement, in either order of bracketing, is accepted iff both seams match; then both results agree on every part |
| CoreLaws.TestIdentity | rust/opendp/src/core.rs:491-503 | a constant-stability identity returns 99 at 99 |
| CoreLaws.TestMakeChainMT | rust/opendp/src/core.rs:505-525 | `+1` chained into a `+1` measurement is accepted and gives 101 at 99 |
| CoreLaws.TestMakeChainTT | rust/opendp/src/core.rs:527-547 | `+1` chained with `+1` is accepted and gives 101 at 99 |
| CoreLaws.TestMakeComposition | rust/opendp/src/core.rs:549-569 | composing `+1` and `-1` gives the pair (100, 98) at 99, with the pair output domain |
| Dom.NewIntervalDomain | rust/opendp/src/dom.rs:84-108 | under the full `PartialOrd` (tuples, vectors and options lexicographic): with an unbounded side it succeeds; `lower > upper` fails with "lower bound may not be greater than upper bound"; identical bound values fail iff they compare equal (hold no NaN) and exactly one bound is excluded, with the matching message; strictly ordered or incomparable values succeed |
| Dom.CmpReverse | rust/opendp/src/dom.rs:94 | swapping the operands reverses the comparison, so `v_lower > v_upper` is `v_upper < v_lower` |
| Dom.CmpEqual | rust/opendp/src/dom.rs:97 | carrier values that compare equal are identical |
| Dom.SelfCmp | rust/opendp/src/dom.rs:97 | a value compares equal to itself iff it holds no NaN, map or dynamic value, and is otherwise incomparable with itself |
| Dom.LtTransitive | rust/opendp/src/dom.rs:94 | `<` is transitive, through the lexicographic cases too |
| Dom.LtAsymmetric | rust/opendp/src/dom.rs:94 | `<` is irreflexive and asymmetric |
| Dom.LeTransitive | rust/opendp/src/dom.rs:113-122 | `<=` is transitive |
| Dom.Trichotomy | rust/opendp/src/dom.rs:94-104 | on comparable values exactly one of `<`, `==`, `>` holds, and `==` is symmetric |
| Dom.OrderableComparable | rust/opendp/src/dom.rs:94-104 | two orderable values of one carrier are comparable |
| Dom.TotallyOrderedOrderable | rust/opendp/src/dom.rs:94-104 | every value of a carrier with no float, map or dynamic part is orderable |
| Dom.TotallyOrderedComparable | rust/opendp/src/dom.rs:94-104 | on such a carrier `partial_cmp` is total |
| Dom.LexicographicOrder | rust/opendp/src/dom.rs:94-95 | `(1, 9) < (5, 0)`, so the interval from `(5, 0)` to `(1, 0)` is rejected with the "greater than" message; a proper prefix of a vector is below it, and `None` is below every `Some` |
| Dom.DomainEqIff | rust/opendp/src/dom.rs:79-83 | two domains are equal under the derived `PartialEq` iff they are one domain whose interval bounds are all orderable |
| Dom.NaNBoundUnequal | rust/opendp/src/dom.rs:79-83 | an interval with a NaN bound is not equal to itself |
| Dom.MemberHasType | rust/opendp/src/core.rs:31-36 | every member of a domain is a value of the domain's carrier type |
| Dom.AllDomainLaw | rust/opendp/src/dom.rs:26-36 | `AllDomain` accepts every value of its carrier, and two of one carrier are equal |
| Dom.IntervalMemberInt | rust/opendp/src/dom.rs:110-123 | integer interval membership: each bound is `>=`/`<=` when included, strict when excluded, and true when unbounded; both must hold |
| Dom.IntervalNaN | rust/opendp/src/dom.rs:112-123 | NaN is outside every float interval with a finite bound, and inside the one with no bounds |
| Dom.ExcludedEqualBoundsEmpty | rust/opendp/src/dom.rs:93-123 | two equal excluded bounds pass validation, and the domain they give has no members |
| Dom.PairMember | rust/opendp/src/dom.rs:135-140 | pair membership is the conjunction of the component memberships |
| Dom.VectorMember | rust/opendp/src/dom.rs:183-188 | a vector is a member iff every element is; the empty vector always is |
| Dom.MapMember | rust/opendp/src/dom.rs:159-165 | a map is a member iff every key and value is; the empty map always is |
| Dom.BoxMember | rust/opendp/src/dom.rs:49-54 | `BoxDomain` membership is the inner domain's |
| Dom.SizedMember | rust/opendp/src/dom.rs:201-206 | `SizedDomain` membership is the inner domain's, whatever the declared length |
| Dom.DataMember | rust/opendp/src/dom.rs:67-75 | `DataDomain` accepts a dynamic value iff its concrete type is the inner carrier and the inner domain accepts it; anything else is rejected |
| Dom.OptionNullMember | rust/opendp/src/dom.rs:252-259 | `OptionNullDomain` accepts `None` and delegates on `Some` |
| Dom.InherentNullMember | rust/opendp/src/dom.rs:219-225 | `InherentNullDomain` accepts every null of its carrier and otherwise delegates |
| Manipulation.MapSeq | rust/opendp/src/trans/manipulation.rs:44 | mapping a function over a vector keeps its length and applies the function at every position |
| Manipulation.Clamp | rust/opendp/src/trans/manipulation.rs:68-70 | the clamped value is the lower bound, the upper bound or the argument |
| Manipulation.UnitRelation | rust/opendp/src/trans/manipulation.rs:48 | the relation `new_from_constant(1)` over integer distances holds iff `d_out >= d_in`; both maps are the identity; `UnitStable` means a transformation carries exactly this relation |
| Manipulation.MakeIdentity | rust/opendp/src/trans/manipulation.rs:17-29 | always succeeds; the same domain and metric on both sides; returns its argument; 1-stable |
| Manipulation.MakeClampVec | rust/opendp/src/trans/manipulation.rs:36-50 | succeeds iff not `upper < lower` under the full `PartialOrd`, else the interval error; from vectors of the carrier to vectors of `[lower, upper]`; clamps element-wise; carries the unit relation |
| Manipulation.MakeClampScalar | rust/opendp/src/trans/manipulation.rs:52-66 | succeeds iff not `upper < lower` under the full `PartialOrd`, else the interval error; from the carrier to `[lower, upper]`; clamps; carries the unit relation |
| Manipulation.MakeUnclampVec | rust/opendp/src/trans/manipulation.rs:77-91 | succeeds iff not `upper < lower` under the full `PartialOrd`, else the interval error; from vectors of `[lower, upper]` to vectors of the carrier; returns its argument; carries the unit relation |
| Manipulation.MakeUnclampScalar | rust/opendp/src/trans/manipulation.rs:93-107 | succeeds iff `IntervalDomain::new` accepts the bounds, with its error otherwise; from that interval to the carrier; returns its argument; 1-stable |
| Manipulation.CastOrDefault | rust/opendp/src/trans/manipulation.rs:124 | a successful cast gives its value, and a failed cast gives the default |
| Manipulation.MakeCastVec | rust/opendp/src/trans/manipulation.rs:116-130 | dataset metrics only; always succeeds; between vectors of the two carriers; casts element-wise with defaulting; 1-stable |
| Manipulation.MakeCastScalar | rust/opendp/src/trans/manipulation.rs:134-148 | always succeeds; between the two carriers; casts with defaulting; 1-stable |
| ManipulationLaws.ClampInRange | rust/opendp/src/trans/manipulation.rs:68-70 | with orderable bounds and `lower <= upper`, a value comparable to both bounds is clamped into `[lower, upper]` |
| ManipulationLaws.ClampFixesInRange | rust/opendp/src/trans/manipulation.rs:68-70 | clamping returns such a value unchanged iff it is already in range |
| ManipulationLaws.ClampIdempotent | rust/opendp/src/trans/manipulation.rs:68-70 | clamping such a value twice is clamping once |
| ManipulationLaws.ClampPair | rust/opendp/src/trans/manipulation.rs:68-70 | clamping compares tuples lexicographically: `(-3, 0)` goes to `(0, 0)`, and `(0, 7)` stays |
| ManipulationLaws.ClampScalarRespects | rust/opendp/src/trans/manipulation.rs:52-70 | with orderable bounds the scalar clamp maps every orderable value of the carrier into the interval; on a carrier with no float, map or dynamic part it respects its domains |
| ManipulationLaws.ClampLetsNaNThrough | rust/opendp/src/trans/manipulation.rs:52-70 | a float clamp maps NaN to NaN, which is outside its interval, so it does not respect its output domain |
| ManipulationLaws.ClampVecRespects | rust/opendp/src/trans/manipulation.rs:36-50 | with orderable bounds the vector clamp maps vectors of orderable values into vectors of the interval; on a carrier with no float, map or dynamic part it respects its domains |
| ManipulationLaws.UnclampScalarRespects | rust/opendp/src/trans/manipulation.rs:93-107 | the scalar unclamp maps its interval into the carrier |
| ManipulationLaws.UnclampVecRespects | rust/opendp/src/trans/manipulation.rs:77-91 | the vector unclamp maps vectors of the interval into vectors of the carrier |
| ManipulationLaws.CastOrDefaultTyped | rust/opendp/src/trans/manipulation.rs:124 | if the default and every successful cast are values of the output carrier, so is every defaulted cast |
| ManipulationLaws.CastVecRespects | rust/opendp/src/trans/manipulation.rs:116-130 | a defaulted cast into the output carrier makes the vector cast map vectors of one carrier into vectors of the other |
| ManipulationLaws.CastScalarRespects | rust/opendp/src/trans/manipulation.rs:134-148 | the same for the scalar cast |
| ManipulationLaws.CastElementwise | rust/opendp/src/trans/manipulation.rs:123-125 | the vector cast's output, at every position, is the defaulted cast of the input element |
| ManipulationLaws.ClampVecElementwise | rust/opendp/src/trans/manipulation.rs:44 | the vector clamp's output, at every position, is the clamp of the input element |
| ManipulationLaws.UnclampThenClamp | rust/opendp/src/trans/manipulation.rs:157-162 | unclamp then clamp with the same bounds and metric is accepted by `ChainTT`, and goes from vectors of the interval to vectors of the interval |
| ManipulationLaws.IdentityAfter | rust/opendp/src/trans/manipulation.rs:17-29 | chaining the identity after a transformation is accepted iff its output domain holds no NaN bound, and then changes no part of it |
| ManipulationLaws.IdentityBefore | rust/opendp/src/trans/manipulation.rs:17-29 | chaining the identity before a transformation is accepted iff its input domain holds no NaN bound, and then changes no part of it |
| ManipulationLaws.ClampThenUnclamp | rust/opendp/src/core.rs:413-418 | clamp then unclamp on the same accepted bounds is accepted by `ChainTT` iff both bounds are orderable; a NaN bound makes the seam unequal to itself and the chain panics |
| ManipulationLaws.UnitStableChain | rust/opendp/src/core.rs:216-254 | chaining the unit relations of two builders without a hint succeeds and gives `d_out >= d_in` again, with identity maps |
| ManipulationLaws.UnitChain | rust/opendp/src/core.rs:216-254 | a relation `d_out >= d_in` with identity maps, chained with itself without a hint, is that relation again |
| ManipulationLaws.ChainAtSeam | rust/opendp/src/core.rs:413-418 | two transformations that meet at one domain and share its metric chain iff that domain is equal to itself |
| ManipulationLaws.TestIdentity | rust/opendp/src/trans/manipulation.rs:234-240 | the identity returns 99 at 99 |
| ManipulationLaws.TestMakeClamp | rust/opendp/src/trans/manipulation.rs:243-250 | clamping `[-10, -5, 0, 5, 10, 20]` to `[0, 10]` gives `[0, 0, 0, 5, 10, 10]` |
| ManipulationLaws.TestUnclamp | rust/opendp/src/trans/manipulation.rs:157-162 | clamp and unclamp on `[2, 3]` both build, and chain |
| ManipulationLaws.TestCastParse | rust/opendp/src/trans/manipulation.rs:203-207 | casting `["2", "3", "a", ""]` to `u8` gives `[2, 3, 0, 0]` |
| ManipulationLaws.ParseCastRespects | rust/opendp/src/trans/manipulation.rs:203-207 | the text-to-`u8` vector cast maps vectors of strings into vectors of integers |
| ManipulationLaws.TestCastUnsigned | rust/opendp/src/trans/manipulation.rs:196-201 | casting `[-1.0]` to `u8` gives `[0]` |

## Left out

- Python bindings, the FFI layer and the C header: these marshal pointers and load a
  library, and are not part of the kernel.
- Noise measurements (Laplace, Gaussian, geometric): these are foreign calls with
  floating-point sampling.
- Floating point beyond NaN: infinities, rounding and float formatting are not modelled.
  A non-NaN float is an integer value.
- Integer widths: `u8`, `i32` and the other widths are one unbounded integer carrier, and
  integer distances are unbounded too (`test_cast` at
  `rust/opendp/src/trans/manipulation.rs:164-194` is left out for this reason).
- The text-to-`f64` cast of `test_cast_parse`
  (`rust/opendp/src/trans/manipulation.rs:209-210`) and `test_cast_floats` (214-232):
  float parsing and formatting are not modelled.
- NewFromConstant: the distance casts `castIn` and `castOut` are total, whereas the source
  unwraps each cast (`rust/opendp/src/core.rs:194,197,199`) and panics when it fails; and
  `cast(d_in) * c` is exact, whereas on `i32` or `u32` distances it overflows. So
  `IntFromConstant` and `ConstantChainMultiplies` hold for every constant only on
  unbounded integers. The builders use the constant 1, where neither arises.
- `Rc` and `Box` are plain values. The glue records (`new_clone`, `new_domain_glue`,
  `MetricGlue`, `MeasureGlue`) are Dafny's `==` and value copy, inside the combinators.
- `Function::new`, `Function::eval`, `HintTt`, `HintMt` and `new_all` are the datatype
  constructors and their `Eval` members. They have no contract of their own.
- The binary-search fallback of `make_chain_no_hint` is not implemented in the source. It
  is modelled only as the panic it raises.
- The always-false placeholder relations of the combinators are the marker `NotDerived`,
  not an always-false predicate.
- Distances.TruncDiv: division by zero, a panic in Rust, yields 0. The builders only
  divide by 1.
- ManipulationLaws.ParseU8: text-to-`u8` parsing accepts decimal digits only. It does not
  accept the leading `+` that Rust's parser allows. It stands in for `CastFrom` in the
  parse test only.
- ManipulationLaws.ClampScalarRespects: it covers only orderable arguments (no NaN, map or
  dynamic value inside), and the whole input domain only on carriers with no float, map
  or dynamic part, because NaN is not mapped into the interval (see
  `ClampLetsNaNThrough`). It also requires orderable bounds.
- ManipulationLaws.ClampVecRespects: the same restriction, for vectors.
- MakeChainMT, MakeChainTT and MakeComposition2: the shared metrics and measures are
  preconditions rather than checked, since in Rust a mismatch does not compile.
- ManipulationLaws.CastVecRespects: it requires the defaulted cast to yield values of the
  output carrier. In Rust that fact is enforced by the types of `TO::cast` and
  `TO::default`; here it is a precondition.
