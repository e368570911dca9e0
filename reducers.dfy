/** The pure reducers `aggr_max`, `aggr_min` and `aggr_avg` of hass_aggregator.py,
    over integer readings. The average is exact (a `real`), not a float. */
module Reducers {

  /** `max(values)`: an element of the list that no element exceeds. */
  function AggrMax(values: seq<int>): (r: int)
    requires |values| > 0
    ensures r in values
    ensures forall v :: v in values ==> v <= r
  {
    if |values| == 1 then values[0]
    else
      var rest := AggrMax(values[1..]);
      assert values == [values[0]] + values[1..];
      if values[0] >= rest then values[0] else rest
  }

  /** `min(values)`: an element of the list that exceeds no element. */
  function AggrMin(values: seq<int>): (r: int)
    requires |values| > 0
    ensures r in values
    ensures forall v :: v in values ==> r <= v
  {
    if |values| == 1 then values[0]
    else
      var rest := AggrMin(values[1..]);
      assert values == [values[0]] + values[1..];
      if values[0] <= rest then values[0] else rest
  }

  /** `sum(values)`. */
  function Sum(values: seq<int>): int {
    if values == [] then 0 else values[0] + Sum(values[1..])
  }

  /** The sum of n readings lies between n times their minimum and n times their maximum. */
  lemma SumBounds(values: seq<int>)
    requires |values| > 0
    ensures |values| * AggrMin(values) <= Sum(values) <= |values| * AggrMax(values)
  {
    SumAtLeast(values, AggrMin(values));
    SumAtMost(values, AggrMax(values));
  }

  lemma {:induction false} SumAtLeast(values: seq<int>, lo: int)
    requires forall v :: v in values ==> lo <= v
    ensures |values| * lo <= Sum(values)
  {
    if values != [] {
      var tail := values[1..];
      assert forall v :: v in tail ==> v in values;
      SumAtLeast(tail, lo);
      assert values[0] in values;
      Distribute(|tail|, lo);
      assert |values| * lo == |tail| * lo + lo;
    }
  }

  lemma {:induction false} SumAtMost(values: seq<int>, hi: int)
    requires forall v :: v in values ==> v <= hi
    ensures Sum(values) <= |values| * hi
  {
    if values != [] {
      var tail := values[1..];
      assert forall v :: v in tail ==> v in values;
      SumAtMost(tail, hi);
      assert values[0] in values;
      Distribute(|tail|, hi);
      assert |values| * hi == |tail| * hi + hi;
    }
  }

  lemma Distribute(n: int, x: int)
    ensures (n + 1) * x == n * x + x
  {
  }

  /** `sum(values) / len(values)`: the mean, which taken len(values) times gives the sum
      and lies between the minimum and the maximum. */
  function AggrAvg(values: seq<int>): (r: real)
    requires |values| > 0
    ensures Times(r, |values|) == Sum(values) as real
    ensures AggrMin(values) as real <= r <= AggrMax(values) as real
  {
    SumBounds(values);
    Quotient(Sum(values), |values|, AggrMin(values), AggrMax(values))
  }

  /** s / n, for a sum s of n values between lo and hi. */
  function Quotient(s: int, n: int, lo: int, hi: int): (q: real)
    requires n > 0 && n * lo <= s <= n * hi
    ensures Times(q, n) == s as real
    ensures lo as real <= q <= hi as real
  {
    CastMul(n, lo);
    CastMul(n, hi);
    DivBounds(s as real, n as real, lo as real, hi as real);
    s as real / n as real
  }

  /** q taken n times. */
  function Times(q: real, n: int): real {
    q * (n as real)
  }

  lemma CastMul(a: int, b: int)
    ensures (a * b) as real == (a as real) * (b as real)
  {
  }

  lemma DivBounds(s: real, n: real, lo: real, hi: real)
    requires n > 0.0 && n * lo <= s <= n * hi
    ensures (s / n) * n == s
    ensures lo <= s / n <= hi
  {
  }
}
