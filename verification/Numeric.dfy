/** Integer and real arithmetic the way the Go source does it, and sums over finite maps. */
module Numeric {

  function Min(a: int, b: int): int { if a < b then a else b }

  function Max(a: int, b: int): int { if a < b then b else a }

  function RMin(a: real, b: real): real { if a < b then a else b }

  function RMax(a: real, b: real): real { if a < b then b else a }

  /** Go's integer division by a positive divisor: it truncates toward zero. */
  function TDiv(a: int, b: int): int
    requires b > 0
  {
    if a >= 0 then a / b else -((-a) / b)
  }

  /** Go's math.Round: to the nearest integer, halves away from zero. */
  function Round(x: real): int {
    if x >= 0.0 then (x + 0.5).Floor else -((-x + 0.5).Floor)
  }

  function Ceil(x: real): int { -((-x).Floor) }

  /** money.FromRupees. */
  function FromRupees(r: real): int { Round(r * 100.0) }

  /** Rounding is to the nearest whole number, and the same on both sides of zero. */
  lemma RoundsToNearest(x: real)
    ensures -0.5 <= Round(x) as real - x <= 0.5
    ensures Round(-x) == -Round(x)
    ensures x >= 0.0 && Round(x) as real - x != 0.5 ==> Round(x) as real - x > -0.5
  {
  }

  /** The floor of a product of naturals divided by one of them stays inside the other. */
  lemma ShareBound(c: int, q: int, total: int)
    requires 0 <= c && 0 <= q <= total && 0 < total
    ensures 0 <= TDiv(c * q, total) <= c
    ensures q == total ==> TDiv(c * q, total) == c
  {
    MulMono(q, total, c);
    var d := c * q / total;
    DivRange(c * q, total);
    LessByFactor(d, c, total);
    if q == total {
      LessByFactor(c, d, total);
    }
  }

  lemma MulMono(a: int, b: int, k: int)
    requires a <= b && 0 <= k
    ensures a * k <= b * k
    ensures k * a <= k * b
  {
    assert b * k - a * k == (b - a) * k;
  }

  /** Comparing products by a common positive factor compares the other factors. */
  lemma LessByFactor(a: int, b: int, k: int)
    requires k > 0
    requires a * k < b * k + k
    ensures a <= b
  {
    if a > b {
      MulMono(b + 1, a, k);
    }
  }

  lemma RLessByFactor(a: real, b: real, k: real)
    requires k > 0.0
    ensures a * k < b * k ==> a < b
    ensures a * k <= b * k ==> a <= b
  {
    assert b * k - a * k == (b - a) * k;
  }

  lemma RDistribute(a: real, b: real, k: real)
    ensures (a + b) * k == a * k + b * k
  {
  }

  lemma ProductAsReal(a: int, b: int)
    ensures (a * b) as real == (a as real) * (b as real)
  {
  }

  lemma DivRange(a: int, b: int)
    requires b > 0
    ensures (a / b) * b <= a < (a / b) * b + b
  {
  }

  lemma RMulMono(a: real, b: real, k: real)
    requires a <= b && 0.0 <= k
    ensures a * k <= b * k
    ensures k * a <= k * b
  {
    assert b * k - a * k == (b - a) * k;
  }

  // ---- sums over finite maps ----

  ghost function Sum<K>(m: map<K, int>): int
    decreases |m|
  {
    if m == map[] then 0 else
      var k :| k in m;
      m[k] + Sum(m - {k})
  }

  lemma {:induction false} SumPick<K>(m: map<K, int>, k: K)
    requires k in m
    ensures Sum(m) == m[k] + Sum(m - {k})
    decreases |m|
  {
    var j :| j in m && Sum(m) == m[j] + Sum(m - {j});
    if j != k {
      SumPick(m - {j}, k);
      SumPick(m - {k}, j);
      assert (m - {j}) - {k} == (m - {k}) - {j};
    }
  }

  lemma {:induction false} SumPut<K>(m: map<K, int>, k: K, v: int)
    ensures Sum(m[k := v]) == Sum(m) - (if k in m then m[k] else 0) + v
  {
    var n := m[k := v];
    SumPick(n, k);
    assert n - {k} == m - {k};
    if k in m {
      SumPick(m, k);
    } else {
      assert m - {k} == m;
    }
  }

  ghost function RSum<K>(m: map<K, real>): real
    decreases |m|
  {
    if m == map[] then 0.0 else
      var k :| k in m;
      m[k] + RSum(m - {k})
  }

  lemma {:induction false} RSumPick<K>(m: map<K, real>, k: K)
    requires k in m
    ensures RSum(m) == m[k] + RSum(m - {k})
    decreases |m|
  {
    var j :| j in m && RSum(m) == m[j] + RSum(m - {j});
    if j != k {
      RSumPick(m - {j}, k);
      RSumPick(m - {k}, j);
      assert (m - {j}) - {k} == (m - {k}) - {j};
    }
  }

  lemma {:induction false} RSumPut<K>(m: map<K, real>, k: K, v: real)
    ensures RSum(m[k := v]) == RSum(m) - (if k in m then m[k] else 0.0) + v
  {
    var n := m[k := v];
    RSumPick(n, k);
    assert n - {k} == m - {k};
    if k in m {
      RSumPick(m, k);
    } else {
      assert m - {k} == m;
    }
  }
}
