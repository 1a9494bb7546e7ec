/** The distance type the builders use: integer distances on unbounded integers. Their
    trait operations (`DistanceCast`, `Mul`, `Div`, `PartialOrd`) are the identity cast,
    exact multiplication, division truncating toward zero, and `>=`; the overflow of a
    fixed-width distance type is not modelled. */
module Distances {
  import opened Core

  function Abs(a: int): (r: nat) {
    if a >= 0 then a else -a
  }

  /** Rust's `/` on integers, which truncates toward zero (Dafny's `/` is Euclidean): the
      quotient has the sign of `a / b` and `q * b` is the multiple of `b` nearest zero that
      does not pass `a`. Division by zero panics in the source; it yields 0 here, and the
      builders of the model only ever divide by the constant 1. */
  function TruncDiv(a: int, b: int): (q: int)
    ensures b != 0 && a >= 0 ==> 0 <= q * b <= a
    ensures b != 0 && a < 0 ==> a <= q * b <= 0
    ensures b != 0 ==> Abs(a - q * b) < Abs(b)
    ensures b == 1 ==> q == a
    ensures b == -1 ==> q == -a
  {
    if b == 0 then 0
    else
      TruncQuotient(a, b);
      if (a < 0) == (b < 0) then Abs(a) / Abs(b) else -(Abs(a) / Abs(b))
  }

  /** The bounds of `TruncDiv` for the quotient of the absolute values, signed. */
  lemma TruncQuotient(a: int, b: int)
    requires b != 0
    ensures var q := if (a < 0) == (b < 0) then Abs(a) / Abs(b) else -(Abs(a) / Abs(b));
      && (a >= 0 ==> 0 <= q * b <= a)
      && (a < 0 ==> a <= q * b <= 0)
      && Abs(a - q * b) < Abs(b)
  {
    var n: int, m: int := Abs(a), Abs(b);
    var k: int := n / m;
    NatDiv(n, m);
    var p := k * m;
    var q: int := if (a < 0) == (b < 0) then k else -k;
    if b < 0 {
      assert q * b == (-q) * m;
    }
    assert q * b == if a < 0 then -p else p;
  }

  /** The Euclidean quotient of naturals rounds down to a multiple within `m` of `n`. */
  lemma NatDiv(n: nat, m: nat)
    requires m > 0
    ensures 0 <= n / m && 0 <= (n / m) * m <= n && n - (n / m) * m < m
  {
    var k := n / m;
    assert n == k * m + n % m;
    MulPositive(k + 1, m);
  }

  /** The bounds in `TruncDiv`'s contract determine the quotient: any `q` within them is
      `TruncDiv(a, b)`. */
  lemma TruncDivUnique(a: int, b: int, q: int)
    requires b != 0
    requires a >= 0 ==> 0 <= q * b <= a
    requires a < 0 ==> a <= q * b <= 0
    requires Abs(a - q * b) < Abs(b)
    ensures q == TruncDiv(a, b)
  {
    var p := TruncDiv(a, b);
    SameMultiple(a, b, q, p, q * b, p * b);
  }

  /** Two multiples of `b` in the same window of width `|b|` are the same multiple. */
  lemma SameMultiple(a: int, b: int, q: int, p: int, x: int, y: int)
    requires b != 0 && x == q * b && y == p * b
    requires a >= 0 ==> 0 <= x <= a && 0 <= y <= a
    requires a < 0 ==> a <= x <= 0 && a <= y <= 0
    requires Abs(a - x) < Abs(b) && Abs(a - y) < Abs(b)
    ensures q == p
  {
    if q != p {
      assert (q - p) * b == x - y;
      MulAtLeast(q - p, b);
    }
  }

  /** On a non-negative dividend and a positive divisor `TruncDiv` is Dafny's `/`. */
  lemma TruncDivEuclidean(a: int, b: int)
    requires a >= 0 && b > 0
    ensures TruncDiv(a, b) == a / b
  {
  }

  /** A nonzero multiple of `b` is at least `|b|` away from zero. */
  lemma MulAtLeast(k: int, b: int)
    requires k != 0 && b != 0
    ensures Abs(k * b) >= Abs(b)
  {
    if k > 0 {
      MulPositive(k, b);
    } else {
      MulPositive(-k, -b);
      assert (-k) * (-b) == k * b;
    }
  }

  lemma {:induction false} MulPositive(k: int, b: int)
    requires k >= 1
    ensures b >= 0 ==> k * b >= b
    ensures b <= 0 ==> k * b <= b
    decreases k
  {
    if k > 1 {
      MulPositive(k - 1, b);
      assert k * b == (k - 1) * b + b;
    }
  }

  /** Truncation toward zero differs from Euclidean division on a negative dividend. */
  lemma TruncDivRoundsTowardZero()
    ensures TruncDiv(-7, 2) == -3 && -7 / 2 == -4
    ensures TruncDiv(7, -2) == -3 && TruncDiv(-7, -2) == 3
  {
  }

  /** The distance operations of an integer distance: the casts are the identity. */
  function IntDistance(): (ops: DistanceOps<int, int>) {
    DistanceOps(d => d, d => d, (a, b) => a * b, TruncDiv, (a, b) => a >= b)
  }

  /** The c-stable relation on integer distances holds iff `d_out >= d_in * c`; its
      forward map is `d_in * c` and its backward map `d_out / c`. */
  lemma IntFromConstant(c: int, d_in: int, d_out: int)
    ensures NewFromConstant(IntDistance(), c).Eval(d_in, d_out) <==> d_out >= d_in * c
    ensures NewFromConstant(IntDistance(), c).forward_map.value(d_in) == d_in * c
    ensures NewFromConstant(IntDistance(), c).backward_map.value(d_out) == TruncDiv(d_out, c)
  {
  }
}
