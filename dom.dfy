/** Domains: value sets over carrier types, each with a total membership predicate.

    The library's domains are generic Rust types whose `Carrier` is a Rust type. Here a
    carrier is a `Ty` and a carrier value is a `Value`; `HasType` is the typing the Rust
    compiler enforces statically, and `Member(d, v)` holds only of values of `d`'s
    carrier type, so "accepts every value" reads "accepts every value of its carrier".
    Equality of two domains is `DomainEq`, the derived `PartialEq`: structural, except
    that interval bounds are compared with the carrier's own `==`, under which NaN is not
    equal to itself. */
module Dom {
  import opened Wrappers

  /** Carrier types. A non-NaN float is abstracted to an integer value; integer widths
      are not distinguished. `TAny` is `Box<dyn Any>`. */
  datatype Ty =
    | TInt
    | TFloat
    | TStr
    | TBox(boxed: Ty)
    | TPair(first: Ty, second: Ty)
    | TVec(elem: Ty)
    | TMap(key: Ty, val: Ty)
    | TOption(elem: Ty)
    | TAny

  /** Carrier values. `Dyn(ty, inner)` is a `Box<dyn Any>` whose concrete type is `ty`;
      `OptNone`/`OptSome` are Rust's `Option`; a `Box<T>` is its content. */
  datatype Value =
    | Num(n: int)
    | NaN
    | Str(s: string)
    | Tuple(first: Value, second: Value)
    | Vec(items: seq<Value>)
    | Dict(entries: map<Value, Value>)
    | OptNone
    | OptSome(content: Value)
    | Dyn(ty: Ty, inner: Value)

  /** The typing judgement for carrier values. */
  predicate HasType(v: Value, t: Ty) {
    match t
    case TInt => v.Num?
    case TFloat => v.Num? || v.NaN?
    case TStr => v.Str?
    case TBox(b) => HasType(v, b)
    case TPair(a, b) => v.Tuple? && HasType(v.first, a) && HasType(v.second, b)
    case TVec(e) => v.Vec? && forall i | 0 <= i < |v.items| :: HasType(v.items[i], e)
    case TMap(kt, vt) => v.Dict? && forall k | k in v.entries :: HasType(k, kt) && HasType(v.entries[k], vt)
    case TOption(e) => v.OptNone? || (v.OptSome? && HasType(v.content, e))
    case TAny => v.Dyn? && HasType(v.inner, v.ty)
  }

  // ---------------------------------------------------------------------------
  // PartialOrd and PartialEq on carrier values, as the standard library implements them:
  // numbers by value, strings by character code, and tuples, vectors and options
  // lexicographically (a vector that is a proper prefix of another is less, and `None`
  // is less than every `Some`). `partial_cmp` is undefined (None) when a NaN decides the
  // comparison, between values of different shapes, and on maps and dynamic values,
  // which are not ordered. For the ordered types `==` is `partial_cmp` giving `Equal`.

  datatype Ordering = Less | Equal | Greater

  /** Lexicographic order on strings by character code. */
  predicate StrLt(a: string, b: string)
    decreases |a|
  {
    if |a| == 0 then |b| > 0
    else if |b| == 0 then false
    else if a[0] < b[0] then true
    else if a[0] == b[0] then StrLt(a[1..], b[1..])
    else false
  }

  /** `a.partial_cmp(b)`. */
  function PartialCmp(a: Value, b: Value): (o: Option<Ordering>)
    decreases a, if a.Vec? then |a.items| + 1 else 0
  {
    match a
    case Num(m) =>
      if b.Num? then Some(if m < b.n then Less else if m == b.n then Equal else Greater) else None
    case Str(s) =>
      if b.Str? then Some(if StrLt(s, b.s) then Less else if s == b.s then Equal else Greater) else None
    case Tuple(x, y) =>
      if b.Tuple? then
        var o := PartialCmp(x, b.first);
        if o == Some(Equal) then PartialCmp(y, b.second) else o
      else None
    case Vec(_) =>
      if b.Vec? then ItemsCmp(a, b, 0) else None
    case OptNone =>
      if b.OptNone? then Some(Equal) else if b.OptSome? then Some(Less) else None
    case OptSome(x) =>
      if b.OptSome? then PartialCmp(x, b.content) else if b.OptNone? then Some(Greater) else None
    case _ => None
  }

  /** The slice comparison of two vectors from position `i` on: the first position whose
      elements are not equal decides, and a common prefix is decided by the lengths. */
  function ItemsCmp(a: Value, b: Value, i: nat): (o: Option<Ordering>)
    requires a.Vec? && b.Vec? && i <= |a.items| && i <= |b.items|
    decreases a, |a.items| - i
  {
    if i == |a.items| || i == |b.items| then
      Some(if |a.items| < |b.items| then Less else if |a.items| == |b.items| then Equal else Greater)
    else
      var o := PartialCmp(a.items[i], b.items[i]);
      if o == Some(Equal) then ItemsCmp(a, b, i + 1) else o
  }

  /** `partial_cmp(a, b)` is defined. */
  predicate Comparable(a: Value, b: Value) {
    PartialCmp(a, b).Some?
  }

  /** `a < b`. */
  predicate Lt(a: Value, b: Value) {
    PartialCmp(a, b) == Some(Less)
  }

  /** `a == b` under `PartialEq`. */
  predicate Eq(a: Value, b: Value) {
    PartialCmp(a, b) == Some(Equal)
  }

  /** `a <= b`. */
  predicate Le(a: Value, b: Value) {
    Lt(a, b) || Eq(a, b)
  }

  /** A value equal to itself: it holds no NaN, map or dynamic value. */
  predicate Orderable(v: Value) {
    match v
    case Num(_) => true
    case NaN => false
    case Str(_) => true
    case Tuple(x, y) => Orderable(x) && Orderable(y)
    case Vec(items) => forall i | 0 <= i < |items| :: Orderable(items[i])
    case Dict(_) => false
    case OptNone => true
    case OptSome(x) => Orderable(x)
    case Dyn(_, _) => false
  }

  /** Carriers without floats, maps or dynamic values: `partial_cmp` is total on them. */
  predicate TotallyOrdered(t: Ty) {
    match t
    case TInt => true
    case TStr => true
    case TBox(b) => TotallyOrdered(b)
    case TPair(a, b) => TotallyOrdered(a) && TotallyOrdered(b)
    case TVec(e) => TotallyOrdered(e)
    case TOption(e) => TotallyOrdered(e)
    case _ => false
  }

  function Reverse(o: Option<Ordering>): (r: Option<Ordering>) {
    match o
    case Some(Less) => Some(Greater)
    case Some(Greater) => Some(Less)
    case _ => o
  }

  lemma {:induction false} StrLtIrreflexive(a: string)
    ensures !StrLt(a, a)
    decreases |a|
  {
    if |a| > 0 {
      StrLtIrreflexive(a[1..]);
    }
  }

  lemma {:induction false} StrLtAsymmetric(a: string, b: string)
    ensures !(StrLt(a, b) && StrLt(b, a))
    decreases |a|
  {
    if |a| > 0 && |b| > 0 && a[0] == b[0] {
      StrLtAsymmetric(a[1..], b[1..]);
    }
  }

  lemma {:induction false} StrLtTransitive(a: string, b: string, c: string)
    requires StrLt(a, b) && StrLt(b, c)
    ensures StrLt(a, c)
    decreases |a|
  {
    if |a| > 0 && a[0] == b[0] && b[0] == c[0] {
      StrLtTransitive(a[1..], b[1..], c[1..]);
    }
  }

  lemma {:induction false} StrLtTotal(a: string, b: string)
    requires a != b
    ensures StrLt(a, b) || StrLt(b, a)
    decreases |a|
  {
    if |a| > 0 && |b| > 0 && a[0] == b[0] {
      assert a == [a[0]] + a[1..] && b == [b[0]] + b[1..];
      StrLtTotal(a[1..], b[1..]);
    }
  }

  /** Swapping the operands reverses the comparison. */
  lemma {:induction false} CmpReverse(a: Value, b: Value)
    ensures PartialCmp(b, a) == Reverse(PartialCmp(a, b))
    decreases a, if a.Vec? then |a.items| + 1 else 0
  {
    match a
    case Str(s) =>
      if b.Str? {
        StrLtAsymmetric(s, b.s);
        StrLtIrreflexive(s);
        if s != b.s {
          StrLtTotal(s, b.s);
        }
      }
    case Tuple(x, y) =>
      if b.Tuple? {
        CmpReverse(x, b.first);
        CmpReverse(y, b.second);
      }
    case Vec(_) =>
      if b.Vec? {
        ItemsCmpReverse(a, b, 0);
      }
    case OptSome(x) =>
      if b.OptSome? {
        CmpReverse(x, b.content);
      }
    case _ =>
  }

  lemma {:induction false} ItemsCmpReverse(a: Value, b: Value, i: nat)
    requires a.Vec? && b.Vec? && i <= |a.items| && i <= |b.items|
    ensures ItemsCmp(b, a, i) == Reverse(ItemsCmp(a, b, i))
    decreases a, |a.items| - i
  {
    if i < |a.items| && i < |b.items| {
      CmpReverse(a.items[i], b.items[i]);
      ItemsCmpReverse(a, b, i + 1);
    }
  }

  /** Values that compare equal are the same value. */
  lemma {:induction false} CmpEqual(a: Value, b: Value)
    requires Eq(a, b)
    ensures a == b
    decreases a, if a.Vec? then |a.items| + 1 else 0
  {
    match a
    case Tuple(x, y) =>
      CmpEqual(x, b.first);
      CmpEqual(y, b.second);
    case Vec(_) =>
      ItemsCmpEqual(a, b, 0);
      assert a.items == a.items[0..] && b.items == b.items[0..];
    case OptSome(x) =>
      CmpEqual(x, b.content);
    case _ =>
  }

  lemma {:induction false} ItemsCmpEqual(a: Value, b: Value, i: nat)
    requires a.Vec? && b.Vec? && i <= |a.items| && i <= |b.items|
    requires ItemsCmp(a, b, i) == Some(Equal)
    ensures |a.items| == |b.items| && a.items[i..] == b.items[i..]
    decreases a, |a.items| - i
  {
    if i < |a.items| && i < |b.items| {
      CmpEqual(a.items[i], b.items[i]);
      ItemsCmpEqual(a, b, i + 1);
      assert a.items[i..] == [a.items[i]] + a.items[i + 1..];
      assert b.items[i..] == [b.items[i]] + b.items[i + 1..];
    }
  }

  /** A value compares equal to itself exactly when it is orderable, and otherwise it is
      incomparable with itself. */
  lemma {:induction false} SelfCmp(v: Value)
    ensures PartialCmp(v, v) == if Orderable(v) then Some(Equal) else None
    decreases v, if v.Vec? then |v.items| + 1 else 0
  {
    CmpReverse(v, v);
    match v
    case Str(s) =>
      StrLtIrreflexive(s);
    case Tuple(x, y) =>
      SelfCmp(x);
      SelfCmp(y);
    case Vec(_) =>
      ItemsSelfCmp(v, 0);
    case OptSome(x) =>
      SelfCmp(x);
    case _ =>
  }

  lemma {:induction false} ItemsSelfCmp(v: Value, i: nat)
    requires v.Vec? && i <= |v.items|
    ensures ItemsCmp(v, v, i) == if forall j | i <= j < |v.items| :: Orderable(v.items[j]) then Some(Equal) else None
    decreases v, |v.items| - i
  {
    if i < |v.items| {
      SelfCmp(v.items[i]);
      ItemsSelfCmp(v, i + 1);
    }
  }

  /** `<` is transitive. */
  lemma {:induction false} LtTransitive(a: Value, b: Value, c: Value)
    requires Lt(a, b) && Lt(b, c)
    ensures Lt(a, c)
    decreases a, if a.Vec? then |a.items| + 1 else 0
  {
    match a
    case Str(s) =>
      StrLtTransitive(s, b.s, c.s);
    case Tuple(x, y) =>
      var ox, oy := PartialCmp(x, b.first), PartialCmp(b.first, c.first);
      if ox == Some(Equal) {
        CmpEqual(x, b.first);
      }
      if oy == Some(Equal) {
        CmpEqual(b.first, c.first);
      }
      if ox == Some(Less) && oy == Some(Less) {
        LtTransitive(x, b.first, c.first);
      }
      if ox == Some(Equal) && oy == Some(Equal) {
        LtTransitive(y, b.second, c.second);
      }
    case Vec(_) =>
      ItemsLtTransitive(a, b, c, 0);
    case OptSome(x) =>
      if b.OptSome? && c.OptSome? {
        LtTransitive(x, b.content, c.content);
      }
    case _ =>
  }

  lemma {:induction false} ItemsLtTransitive(a: Value, b: Value, c: Value, i: nat)
    requires a.Vec? && b.Vec? && c.Vec?
    requires i <= |a.items| && i <= |b.items| && i <= |c.items|
    requires ItemsCmp(a, b, i) == Some(Less) && ItemsCmp(b, c, i) == Some(Less)
    ensures ItemsCmp(a, c, i) == Some(Less)
    decreases a, |a.items| - i
  {
    if i < |a.items| && i < |b.items| && i < |c.items| {
      var x, y, z := a.items[i], b.items[i], c.items[i];
      if PartialCmp(x, y) == Some(Equal) {
        CmpEqual(x, y);
      }
      if PartialCmp(y, z) == Some(Equal) {
        CmpEqual(y, z);
      }
      if PartialCmp(x, y) == Some(Less) && PartialCmp(y, z) == Some(Less) {
        LtTransitive(x, y, z);
      }
      if PartialCmp(x, y) == Some(Equal) && PartialCmp(y, z) == Some(Equal) {
        ItemsLtTransitive(a, b, c, i + 1);
      }
    }
  }

  /** On comparable values exactly one of `<`, `==`, `>` holds. */
  lemma Trichotomy(a: Value, b: Value)
    requires Comparable(a, b)
    ensures Lt(a, b) || Eq(a, b) || Lt(b, a)
    ensures !(Lt(a, b) && Lt(b, a))
    ensures Eq(a, b) ==> !Lt(a, b) && !Lt(b, a) && Eq(b, a)
  {
    CmpReverse(a, b);
  }

  /** `<` is irreflexive and asymmetric on every value. */
  lemma LtAsymmetric(a: Value, b: Value)
    ensures !Lt(a, a)
    ensures !(Lt(a, b) && Lt(b, a))
  {
    CmpReverse(a, a);
    CmpReverse(a, b);
  }

  /** `<=` is transitive. */
  lemma LeTransitive(a: Value, b: Value, c: Value)
    requires Le(a, b) && Le(b, c)
    ensures Le(a, c)
  {
    if Eq(a, b) {
      CmpEqual(a, b);
    }
    if Eq(b, c) {
      CmpEqual(b, c);
    }
    if Lt(a, b) && Lt(b, c) {
      LtTransitive(a, b, c);
    }
  }

  /** Two orderable values of one carrier are comparable. */
  lemma {:induction false} OrderableComparable(t: Ty, a: Value, b: Value)
    requires HasType(a, t) && HasType(b, t) && Orderable(a) && Orderable(b)
    ensures Comparable(a, b)
    decreases t, if a.Vec? then |a.items| + 1 else 0
  {
    match t
    case TBox(e) =>
      OrderableComparable(e, a, b);
    case TPair(x, y) =>
      OrderableComparable(x, a.first, b.first);
      OrderableComparable(y, a.second, b.second);
    case TVec(_) =>
      ItemsComparable(t, a, b, 0);
    case TOption(e) =>
      if a.OptSome? && b.OptSome? {
        OrderableComparable(e, a.content, b.content);
      }
    case _ =>
  }

  lemma {:induction false} ItemsComparable(t: Ty, a: Value, b: Value, i: nat)
    requires t.TVec? && HasType(a, t) && HasType(b, t) && Orderable(a) && Orderable(b)
    requires i <= |a.items| && i <= |b.items|
    ensures ItemsCmp(a, b, i).Some?
    decreases t, |a.items| - i
  {
    if i < |a.items| && i < |b.items| {
      OrderableComparable(t.elem, a.items[i], b.items[i]);
      ItemsComparable(t, a, b, i + 1);
    }
  }

  /** Every value of a totally ordered carrier is orderable. */
  lemma {:induction false} TotallyOrderedOrderable(t: Ty, v: Value)
    requires TotallyOrdered(t) && HasType(v, t)
    ensures Orderable(v)
  {
    match t
    case TBox(e) =>
      TotallyOrderedOrderable(e, v);
    case TPair(x, y) =>
      TotallyOrderedOrderable(x, v.first);
      TotallyOrderedOrderable(y, v.second);
    case TVec(e) =>
      forall i | 0 <= i < |v.items|
        ensures Orderable(v.items[i])
      {
        TotallyOrderedOrderable(e, v.items[i]);
      }
    case TOption(e) =>
      if v.OptSome? {
        TotallyOrderedOrderable(e, v.content);
      }
    case _ =>
  }

  /** On a totally ordered carrier `partial_cmp` is total. */
  lemma TotallyOrderedComparable(t: Ty, a: Value, b: Value)
    requires TotallyOrdered(t) && HasType(a, t) && HasType(b, t)
    ensures Comparable(a, b)
  {
    TotallyOrderedOrderable(t, a);
    TotallyOrderedOrderable(t, b);
    OrderableComparable(t, a, b);
  }

  // ---------------------------------------------------------------------------
  // Domains

  /** `std::ops::Bound`. */
  datatype Bound = Included(value: Value) | Excluded(value: Value) | Unbounded

  datatype Domain =
    | AllDomain(carrier: Ty)
    | BoxDomain(element_domain: Domain)
    | DataDomain(form_domain: Domain)
    | IntervalDomain(carrier: Ty, lower: Bound, upper: Bound)
    | PairDomain(domain0: Domain, domain1: Domain)
    | MapDomain(key_domain: Domain, value_domain: Domain)
    | VectorDomain(element_domain: Domain)
    | SizedDomain(element_domain: Domain, length: nat)
    | InherentNullDomain(element_domain: Domain)
    | OptionNullDomain(element_domain: Domain)

  /** The associated `Carrier` type of each domain. */
  function Carrier(d: Domain): (t: Ty) {
    match d
    case AllDomain(t) => t
    case BoxDomain(e) => TBox(Carrier(e))
    case DataDomain(_) => TAny
    case IntervalDomain(t, _, _) => t
    case PairDomain(d0, d1) => TPair(Carrier(d0), Carrier(d1))
    case MapDomain(dk, dv) => TMap(Carrier(dk), Carrier(dv))
    case VectorDomain(e) => TVec(Carrier(e))
    case SizedDomain(e, _) => Carrier(e)
    case InherentNullDomain(e) => Carrier(e)
    case OptionNullDomain(e) => TOption(Carrier(e))
  }

  /** `InherentNull::is_null`: the only inherent null is a float's NaN. */
  predicate IsNull(v: Value) {
    v.NaN?
  }

  /** The lower-bound check of `IntervalDomain::member`. */
  predicate AboveLower(lower: Bound, v: Value) {
    match lower
    case Included(b) => Le(b, v)
    case Excluded(b) => Lt(b, v)
    case Unbounded => true
  }

  /** The upper-bound check of `IntervalDomain::member`. */
  predicate BelowUpper(upper: Bound, v: Value) {
    match upper
    case Included(b) => Le(v, b)
    case Excluded(b) => Lt(v, b)
    case Unbounded => true
  }

  /** `Domain::member`. */
  predicate Member(d: Domain, v: Value) {
    match d
    case AllDomain(t) => HasType(v, t)
    case BoxDomain(e) => Member(e, v)
    case DataDomain(form) => v.Dyn? && v.ty == Carrier(form) && Member(form, v.inner)
    case IntervalDomain(t, lower, upper) => HasType(v, t) && AboveLower(lower, v) && BelowUpper(upper, v)
    case PairDomain(d0, d1) => v.Tuple? && Member(d0, v.first) && Member(d1, v.second)
    case MapDomain(dk, dv) => v.Dict? && forall k | k in v.entries :: Member(dk, k) && Member(dv, v.entries[k])
    case VectorDomain(e) => v.Vec? && forall i | 0 <= i < |v.items| :: Member(e, v.items[i])
    case SizedDomain(e, _) => Member(e, v)
    case InherentNullDomain(e) => (IsNull(v) && HasType(v, Carrier(e))) || Member(e, v)
    case OptionNullDomain(e) => v.OptNone? || (v.OptSome? && Member(e, v.content))
  }

  /** `IntervalDomain::new`: fails when both bounds are finite and the lower exceeds the
      upper, or when they are equal and exactly one of them is excluded. */
  function NewIntervalDomain(t: Ty, lower: Bound, upper: Bound): (r: Result<Domain>)
    ensures r.Ok? ==> r.value == IntervalDomain(t, lower, upper)
    ensures r.Err? ==> r.error.kind == MakeTransformation
    ensures (lower.Unbounded? || upper.Unbounded?) ==> r.Ok?
    ensures !lower.Unbounded? && !upper.Unbounded? && Lt(upper.value, lower.value) ==>
      r == Err(Error(MakeTransformation, "lower bound may not be greater than upper bound"))
    ensures !lower.Unbounded? && !upper.Unbounded? && lower.value == upper.value ==>
      (r.Err? <==> Orderable(lower.value) && lower.Included? != upper.Included?)
    ensures lower.Included? && upper.Excluded? && Eq(lower.value, upper.value) ==>
      r == Err(Error(MakeTransformation, "upper bound excludes inclusive lower bound"))
    ensures lower.Excluded? && upper.Included? && Eq(lower.value, upper.value) ==>
      r == Err(Error(MakeTransformation, "lower bound excludes inclusive upper bound"))
    ensures !lower.Unbounded? && !upper.Unbounded? && Lt(lower.value, upper.value) ==> r.Ok?
    ensures !lower.Unbounded? && !upper.Unbounded? && !Comparable(lower.value, upper.value) ==> r.Ok?
  {
    if lower.Unbounded? || upper.Unbounded? then
      Ok(IntervalDomain(t, lower, upper))
    else
      BoundValueFacts(lower.value, upper.value);
      if Lt(upper.value, lower.value) then
        Err(Error(MakeTransformation, "lower bound may not be greater than upper bound"))
      else if Eq(lower.value, upper.value) && lower.Included? && upper.Excluded? then
        Err(Error(MakeTransformation, "upper bound excludes inclusive lower bound"))
      else if Eq(lower.value, upper.value) && lower.Excluded? && upper.Included? then
        Err(Error(MakeTransformation, "lower bound excludes inclusive upper bound"))
      else
        Ok(IntervalDomain(t, lower, upper))
  }

  /** The facts about two bound values that interval validation relies on. */
  lemma BoundValueFacts(l: Value, u: Value)
    ensures !(Lt(u, l) && (Lt(l, u) || Eq(l, u)))
    ensures Lt(u, l) ==> Comparable(l, u)
    ensures l == u ==> !Lt(u, l) && (Eq(l, u) <==> Orderable(l))
  {
    LtAsymmetric(l, u);
    CmpReverse(l, u);
    SelfCmp(l);
  }

  // ---------------------------------------------------------------------------
  // Domain equality

  /** The derived `PartialEq` on `Bound<T>`. */
  predicate BoundEq(a: Bound, b: Bound) {
    match a
    case Included(x) => b.Included? && Eq(x, b.value)
    case Excluded(x) => b.Excluded? && Eq(x, b.value)
    case Unbounded => b.Unbounded?
  }

  /** `PartialEq` on domains: derived for every domain but `AllDomain`, whose hand-written
      `eq` is `true`. Only an interval holds carrier values, its bounds, so an interval
      with a NaN bound is not equal to itself. Domains of different shapes or carriers
      are of different Rust types; here they compare unequal. */
  predicate DomainEq(d0: Domain, d1: Domain) {
    match d0
    case AllDomain(t) => d1 == AllDomain(t)
    case BoxDomain(e) => d1.BoxDomain? && DomainEq(e, d1.element_domain)
    case DataDomain(f) => d1.DataDomain? && DomainEq(f, d1.form_domain)
    case IntervalDomain(t, l, u) => d1.IntervalDomain? && d1.carrier == t && BoundEq(l, d1.lower) && BoundEq(u, d1.upper)
    case PairDomain(x, y) => d1.PairDomain? && DomainEq(x, d1.domain0) && DomainEq(y, d1.domain1)
    case MapDomain(k, v) => d1.MapDomain? && DomainEq(k, d1.key_domain) && DomainEq(v, d1.value_domain)
    case VectorDomain(e) => d1.VectorDomain? && DomainEq(e, d1.element_domain)
    case SizedDomain(e, n) => d1.SizedDomain? && DomainEq(e, d1.element_domain) && n == d1.length
    case InherentNullDomain(e) => d1.InherentNullDomain? && DomainEq(e, d1.element_domain)
    case OptionNullDomain(e) => d1.OptionNullDomain? && DomainEq(e, d1.element_domain)
  }

  /** Every bound of every interval inside the domain is orderable. */
  predicate OrderableBounds(d: Domain) {
    match d
    case AllDomain(_) => true
    case BoxDomain(e) => OrderableBounds(e)
    case DataDomain(f) => OrderableBounds(f)
    case IntervalDomain(_, l, u) => (l.Unbounded? || Orderable(l.value)) && (u.Unbounded? || Orderable(u.value))
    case PairDomain(x, y) => OrderableBounds(x) && OrderableBounds(y)
    case MapDomain(k, v) => OrderableBounds(k) && OrderableBounds(v)
    case VectorDomain(e) => OrderableBounds(e)
    case SizedDomain(e, _) => OrderableBounds(e)
    case InherentNullDomain(e) => OrderableBounds(e)
    case OptionNullDomain(e) => OrderableBounds(e)
  }

  /** Equal domains, as `DomainEqIff` characterizes `DomainEq`: one domain, whose interval
      bounds are orderable. */
  predicate SameDomain(d0: Domain, d1: Domain) {
    d0 == d1 && OrderableBounds(d0)
  }

  lemma BoundEqIff(a: Bound, b: Bound)
    ensures BoundEq(a, b) <==> a == b && (a.Unbounded? || Orderable(a.value))
  {
    if !a.Unbounded? {
      SelfCmp(a.value);
      if b.Unbounded? == a.Unbounded? && Eq(a.value, b.value) {
        CmpEqual(a.value, b.value);
      }
    }
  }

  /** Two domains are equal exactly when they are the same domain and its interval bounds
      are orderable; in particular a domain is equal to itself iff its bounds are. */
  lemma {:induction false} DomainEqIff(d0: Domain, d1: Domain)
    ensures DomainEq(d0, d1) <==> SameDomain(d0, d1)
  {
    match d0
    case AllDomain(_) =>
    case BoxDomain(e) => if d1.BoxDomain? { DomainEqIff(e, d1.element_domain); }
    case DataDomain(f) => if d1.DataDomain? { DomainEqIff(f, d1.form_domain); }
    case IntervalDomain(_, l, u) =>
      if d1.IntervalDomain? {
        BoundEqIff(l, d1.lower);
        BoundEqIff(u, d1.upper);
      }
    case PairDomain(x, y) =>
      if d1.PairDomain? {
        DomainEqIff(x, d1.domain0);
        DomainEqIff(y, d1.domain1);
      }
    case MapDomain(k, v) =>
      if d1.MapDomain? {
        DomainEqIff(k, d1.key_domain);
        DomainEqIff(v, d1.value_domain);
      }
    case VectorDomain(e) => if d1.VectorDomain? { DomainEqIff(e, d1.element_domain); }
    case SizedDomain(e, _) => if d1.SizedDomain? { DomainEqIff(e, d1.element_domain); }
    case InherentNullDomain(e) => if d1.InherentNullDomain? { DomainEqIff(e, d1.element_domain); }
    case OptionNullDomain(e) => if d1.OptionNullDomain? { DomainEqIff(e, d1.element_domain); }
  }

  // ---------------------------------------------------------------------------
  // Laws of the membership algebra

  /** Every member of a domain is a value of the domain's carrier type. */
  lemma {:induction false} MemberHasType(d: Domain, v: Value)
    requires Member(d, v)
    ensures HasType(v, Carrier(d))
  {
    match d
    case AllDomain(_) =>
    case BoxDomain(e) => MemberHasType(e, v);
    case DataDomain(form) => MemberHasType(form, v.inner);
    case IntervalDomain(_, _, _) =>
    case PairDomain(d0, d1) =>
      MemberHasType(d0, v.first);
      MemberHasType(d1, v.second);
    case MapDomain(dk, dv) =>
      forall k | k in v.entries
        ensures HasType(k, Carrier(dk)) && HasType(v.entries[k], Carrier(dv))
      {
        MemberHasType(dk, k);
        MemberHasType(dv, v.entries[k]);
      }
    case VectorDomain(e) =>
      forall i | 0 <= i < |v.items|
        ensures HasType(v.items[i], Carrier(e))
      {
        MemberHasType(e, v.items[i]);
      }
    case SizedDomain(e, _) => MemberHasType(e, v);
    case InherentNullDomain(e) =>
      if !(IsNull(v) && HasType(v, Carrier(e))) {
        MemberHasType(e, v);
      }
    case OptionNullDomain(e) =>
      if v.OptSome? {
        MemberHasType(e, v.content);
      }
  }

  /** `AllDomain` accepts every value of its carrier, and two `AllDomain`s of one carrier
      are equal. */
  lemma AllDomainLaw(d0: Domain, d1: Domain, v: Value)
    requires d0.AllDomain? && d1.AllDomain? && Carrier(d0) == Carrier(d1)
    ensures Member(d0, v) <==> HasType(v, Carrier(d0))
    ensures d0 == d1
  {
  }

  /** Interval membership over integers: each bound is `>=`/`<=` when included, strict
      when excluded, no constraint when unbounded, and both must hold. */
  lemma IntervalMemberInt(lower: Bound, upper: Bound, n: int)
    requires lower.Unbounded? || lower.value.Num?
    requires upper.Unbounded? || upper.value.Num?
    ensures Member(IntervalDomain(TInt, lower, upper), Num(n)) <==>
      (match lower
       case Included(l) => n >= l.n
       case Excluded(l) => n > l.n
       case Unbounded => true)
      &&
      (match upper
       case Included(u) => n <= u.n
       case Excluded(u) => n < u.n
       case Unbounded => true)
  {
  }

  /** NaN is outside every interval with a finite bound, and inside the float interval
      with no bounds (all comparisons with NaN are false). */
  lemma IntervalNaN(lower: Bound, upper: Bound)
    ensures Member(IntervalDomain(TFloat, lower, upper), NaN) <==> lower.Unbounded? && upper.Unbounded?
  {
  }

  /** Two equal bounds that are both excluded pass validation, and the resulting domain
      has no members. */
  lemma ExcludedEqualBoundsEmpty(t: Ty, b: Value, v: Value)
    ensures NewIntervalDomain(t, Excluded(b), Excluded(b)) == Ok(IntervalDomain(t, Excluded(b), Excluded(b)))
    ensures !Member(IntervalDomain(t, Excluded(b), Excluded(b)), v)
  {
    if Lt(b, v) && Lt(v, b) {
      LtTransitive(b, v, b);
      Trichotomy(b, b);
    }
  }

  /** Pair membership is the conjunction of the component memberships. */
  lemma PairMember(d0: Domain, d1: Domain, a: Value, b: Value)
    ensures Member(PairDomain(d0, d1), Tuple(a, b)) <==> Member(d0, a) && Member(d1, b)
  {
  }

  /** A vector is a member iff every element is; the empty vector always is. */
  lemma VectorMember(e: Domain, items: seq<Value>)
    ensures Member(VectorDomain(e), Vec(items)) <==> forall i | 0 <= i < |items| :: Member(e, items[i])
    ensures Member(VectorDomain(e), Vec([]))
  {
  }

  /** A map is a member iff every key and every value is; the empty map always is. */
  lemma MapMember(dk: Domain, dv: Domain, m: map<Value, Value>)
    ensures Member(MapDomain(dk, dv), Dict(m)) <==> forall k | k in m :: Member(dk, k) && Member(dv, m[k])
    ensures Member(MapDomain(dk, dv), Dict(map[]))
  {
  }

  /** `BoxDomain` delegates to the inner domain. */
  lemma BoxMember(e: Domain, v: Value)
    ensures Member(BoxDomain(e), v) <==> Member(e, v)
  {
  }

  /** `SizedDomain` delegates to the inner domain; its declared length is not checked. */
  lemma SizedMember(e: Domain, length0: nat, length1: nat, v: Value)
    ensures Member(SizedDomain(e, length0), v) <==> Member(e, v)
    ensures Member(SizedDomain(e, length0), v) <==> Member(SizedDomain(e, length1), v)
  {
  }

  /** `DataDomain` accepts a dynamic value only when its concrete type is the inner
      domain's carrier and the inner domain accepts it. */
  lemma DataMember(form: Domain, ty: Ty, x: Value, v: Value)
    ensures Member(DataDomain(form), Dyn(ty, x)) <==> ty == Carrier(form) && Member(form, x)
    ensures ty != Carrier(form) ==> !Member(DataDomain(form), Dyn(ty, x))
    ensures !v.Dyn? ==> !Member(DataDomain(form), v)
  {
  }

  /** `OptionNullDomain` accepts `None` and delegates on `Some`. */
  lemma OptionNullMember(e: Domain, x: Value)
    ensures Member(OptionNullDomain(e), OptNone)
    ensures Member(OptionNullDomain(e), OptSome(x)) <==> Member(e, x)
    ensures !x.OptNone? && !x.OptSome? ==> !Member(OptionNullDomain(e), x)
  {
  }

  /** `InherentNullDomain` accepts every null of its carrier and otherwise delegates. */
  lemma InherentNullMember(e: Domain, x: Value)
    ensures IsNull(x) && HasType(x, Carrier(e)) ==> Member(InherentNullDomain(e), x)
    ensures !IsNull(x) ==> (Member(InherentNullDomain(e), x) <==> Member(e, x))
  {
  }

  /** Tuples, vectors and options are ordered lexicographically, so interval validation
      rejects a pair whose first component is greater, whatever the second. */
  lemma LexicographicOrder(x: Value)
    ensures Lt(Tuple(Num(1), Num(9)), Tuple(Num(5), Num(0)))
    ensures NewIntervalDomain(TPair(TInt, TInt), Included(Tuple(Num(5), Num(0))), Included(Tuple(Num(1), Num(0))))
      == Err(Error(MakeTransformation, "lower bound may not be greater than upper bound"))
    ensures Lt(Vec([Num(1)]), Vec([Num(1), Num(0)])) && Lt(Vec([Num(1), Num(5)]), Vec([Num(2)]))
    ensures Lt(OptNone, OptSome(x))
  {
  }

  /** An interval with a NaN bound is not equal to itself. */
  lemma NaNBoundUnequal(t: Ty, upper: Bound)
    ensures !DomainEq(IntervalDomain(t, Included(NaN), upper), IntervalDomain(t, Included(NaN), upper))
  {
  }
}
