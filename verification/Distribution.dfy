/** The distribution of observed values in deploy/summarize_observation.py: histogram and percentiles, over exact reals. */
module Distribution {

  // ---- the histogram ----

  function Bin(value: real, bucket: real): int
    requires bucket > 0.0
  {
    (value / bucket).Floor
  }

  /** A bin is the half-open interval of its index. */
  lemma BinBounds(value: real, bucket: real, index: int)
    requires bucket > 0.0
    ensures Bin(value, bucket) == index <==> index as real * bucket <= value < (index + 1) as real * bucket
  {
    Divides(index as real, value, bucket);
    Divides((index + 1) as real, value, bucket);
    var q := value / bucket;
    assert q.Floor == index <==> index as real <= q && !((index + 1) as real <= q);
  }

  lemma Divides(k: real, value: real, bucket: real)
    requires bucket > 0.0
    ensures k <= value / bucket <==> k * bucket <= value
  {
    var q := value / bucket;
    assert q * bucket == value;
    if k <= q {
      assert (q - k) * bucket >= 0.0;
    } else {
      assert (k - q) * bucket > 0.0;
    }
  }

  /** How many values fall into one of these bins. */
  function CountIn(values: seq<real>, bucket: real, indices: set<int>): nat
    requires bucket > 0.0
  {
    if values == [] then 0
    else
      CountIn(values[..|values| - 1], bucket, indices)
      + (if Bin(values[|values| - 1], bucket) in indices then 1 else 0)
  }

  /** The counting loop: exactly the bins that occur, each with exactly its number of values. */
  method Histogram(values: seq<real>, bucket: real) returns (bins: map<int, nat>)
    requires bucket > 0.0
    ensures forall i :: i in bins <==> Occurs(values, bucket, i)
    ensures forall i | i in bins :: bins[i] == CountIn(values, bucket, {i}) > 0
  {
    bins := map[];
    for k := 0 to |values|
      invariant forall i :: i in bins <==> Occurs(values[..k], bucket, i)
      invariant forall i | i in bins :: bins[i] == CountIn(values[..k], bucket, {i}) > 0
      invariant forall i | i !in bins :: CountIn(values[..k], bucket, {i}) == 0
    {
      var i := Bin(values[k], bucket);
      OneMore(values, bucket, k);
      bins := bins[i := (if i in bins then bins[i] else 0) + 1];
    }
    assert values[..|values|] == values;
  }

  predicate Occurs(values: seq<real>, bucket: real, i: int)
    requires bucket > 0.0
  {
    exists v :: v in values && Bin(v, bucket) == i
  }

  lemma OneMore(values: seq<real>, bucket: real, k: nat)
    requires bucket > 0.0 && k < |values|
    ensures forall i :: CountIn(values[..k + 1], bucket, {i})
                        == CountIn(values[..k], bucket, {i}) + (if Bin(values[k], bucket) == i then 1 else 0)
    ensures forall i :: Occurs(values[..k + 1], bucket, i)
                        <==> Bin(values[k], bucket) == i || Occurs(values[..k], bucket, i)
  {
    assert values[..k + 1] == values[..k] + [values[k]] && values[..k + 1][..k] == values[..k];
    forall i ensures Occurs(values[..k + 1], bucket, i)
                     <==> Bin(values[k], bucket) == i || Occurs(values[..k], bucket, i)
    {
      if Occurs(values[..k], bucket, i) {
        var v :| v in values[..k] && Bin(v, bucket) == i;
        assert v in values[..k + 1];
      }
      if Bin(values[k], bucket) == i {
        assert values[k] in values[..k + 1];
      }
    }
  }

  /** Disjoint bins add up. */
  lemma {:induction false} CountSplits(values: seq<real>, bucket: real, a: set<int>, b: set<int>)
    requires bucket > 0.0 && a !! b
    ensures CountIn(values, bucket, a + b) == CountIn(values, bucket, a) + CountIn(values, bucket, b)
  {
    if values != [] {
      CountSplits(values[..|values| - 1], bucket, a, b);
    }
  }

  lemma {:induction false} CountAll(values: seq<real>, bucket: real, indices: set<int>)
    requires bucket > 0.0 && forall v | v in values :: Bin(v, bucket) in indices
    ensures CountIn(values, bucket, indices) == |values|
  {
    if values != [] {
      assert values == values[..|values| - 1] + [values[|values| - 1]];
      CountAll(values[..|values| - 1], bucket, indices);
    }
  }

  function RowTotal(rows: seq<(int, nat)>): nat {
    if rows == [] then 0 else RowTotal(rows[..|rows| - 1]) + rows[|rows| - 1].1
  }

  function Indices(rows: seq<(int, nat)>): set<int> {
    set i | 0 <= i < |rows| :: rows[i].0
  }

  lemma {:induction false} RowsCount(values: seq<real>, bucket: real, rows: seq<(int, nat)>)
    requires bucket > 0.0 && forall i | 0 <= i < |rows| :: rows[i].1 == CountIn(values, bucket, {rows[i].0})
    requires forall i, j | 0 <= i < j < |rows| :: rows[i].0 != rows[j].0
    ensures RowTotal(rows) == CountIn(values, bucket, Indices(rows))
  {
    if rows == [] {
      assert Indices(rows) == {};
      NoneCounted(values, bucket);
    } else {
      var n := |rows| - 1;
      RowsCount(values, bucket, rows[..n]);
      assert Indices(rows) == Indices(rows[..n]) + {rows[n].0};
      CountSplits(values, bucket, Indices(rows[..n]), {rows[n].0});
    }
  }

  lemma {:induction false} NoneCounted(values: seq<real>, bucket: real)
    requires bucket > 0.0
    ensures CountIn(values, bucket, {}) == 0
  {
    if values != [] {
      NoneCounted(values[..|values| - 1], bucket);
    }
  }

  /** The bins listed once each, in any order, hold every value exactly once. */
  lemma NothingLost(values: seq<real>, bucket: real, bins: map<int, nat>, rows: seq<(int, nat)>)
    requires bucket > 0.0
    requires forall i :: i in bins <==> Occurs(values, bucket, i)
    requires forall i | i in bins :: bins[i] == CountIn(values, bucket, {i})
    requires forall i, j | 0 <= i < j < |rows| :: rows[i].0 != rows[j].0
    requires Indices(rows) == bins.Keys && forall i | 0 <= i < |rows| :: rows[i].0 in bins && rows[i].1 == bins[rows[i].0]
    ensures RowTotal(rows) == |values|
  {
    RowsCount(values, bucket, rows);
    CountAll(values, bucket, bins.Keys);
  }

  // ---- the percentiles ----

  predicate Sorted(values: seq<real>) {
    forall i, j | 0 <= i <= j < |values| :: values[i] <= values[j]
  }

  function Ceil(x: real): int {
    -((-x).Floor)
  }

  /** The interpolated value at a location between two positions. */
  function At(values: seq<real>, location: real): real
    requires 0.0 <= location <= (|values| - 1) as real
  {
    var low, high := location.Floor, Ceil(location);
    values[low] + (values[high] - values[low]) * (location - low as real)
  }

  /** The location of a fraction among the positions. */
  function Location(values: seq<real>, fraction: real): (location: real)
    requires values != [] && 0.0 <= fraction <= 1.0
    ensures 0.0 <= location <= (|values| - 1) as real
  {
    var n := (|values| - 1) as real;
    Product(n, fraction);
    Product(n, 1.0 - fraction);
    assert n * (1.0 - fraction) == n - n * fraction;
    n * fraction
  }

  function Percentile(values: seq<real>, fraction: real): real
    requires values != [] && 0.0 <= fraction <= 1.0
  {
    At(values, Location(values, fraction))
  }

  lemma LocationRises(values: seq<real>, p: real, q: real)
    requires values != [] && 0.0 <= p <= q <= 1.0
    ensures Location(values, p) <= Location(values, q)
  {
    var n := (|values| - 1) as real;
    Product(n, q - p);
    assert n * (q - p) == n * q - n * p;
  }

  lemma Product(x: real, y: real)
    requires x >= 0.0 && y >= 0.0
    ensures x * y >= 0.0
  {
  }

  lemma AtBetween(values: seq<real>, location: real)
    requires Sorted(values) && 0.0 <= location <= (|values| - 1) as real
    ensures values[location.Floor] <= At(values, location) <= values[Ceil(location)]
  {
    var low, high := location.Floor, Ceil(location);
    var step, part := values[high] - values[low], location - low as real;
    Product(step, part);
    Product(step, 1.0 - part);
    assert step * (1.0 - part) == step - step * part;
  }

  lemma AtRises(values: seq<real>, a: real, b: real)
    requires Sorted(values) && 0.0 <= a <= b <= (|values| - 1) as real
    ensures At(values, a) <= At(values, b)
  {
    AtBetween(values, a);
    AtBetween(values, b);
    if a.Floor == b.Floor && a != a.Floor as real {
      var step := values[Ceil(a)] - values[a.Floor];
      assert Ceil(a) == Ceil(b);
      Product(step, b - a);
      assert step * (b - a.Floor as real) == step * (a - a.Floor as real) + step * (b - a);
    } else if a.Floor == b.Floor {
      assert At(values, a) == values[a.Floor] by { assert (values[Ceil(a)] - values[a.Floor]) * 0.0 == 0.0; }
    } else {
      assert Ceil(a) <= b.Floor;
    }
  }

  /** Percentiles lie within the values, from the least to the greatest, and rise with the fraction. */
  lemma PercentilesRise(values: seq<real>, p: real, q: real)
    requires values != [] && Sorted(values) && 0.0 <= p <= q <= 1.0
    ensures values[0] <= Percentile(values, p) <= Percentile(values, q) <= values[|values| - 1]
  {
    hide At, Location;
    LocationRises(values, p, q);
    AtOrder(values, Location(values, p), Location(values, q));
  }

  lemma AtOrder(values: seq<real>, a: real, b: real)
    requires Sorted(values) && 0.0 <= a <= b <= (|values| - 1) as real
    ensures values[0] <= At(values, a) <= At(values, b) <= values[|values| - 1]
  {
    AtBetween(values, a);
    AtBetween(values, b);
    AtRises(values, a, b);
  }

  /** The extremes are exact. */
  lemma PercentileEnds(values: seq<real>)
    requires values != []
    ensures Percentile(values, 0.0) == values[0] && Percentile(values, 1.0) == values[|values| - 1]
  {
    var n := (|values| - 1) as real;
    assert n * 0.0 == 0.0 && n * 1.0 == n;
    assert (values[0] - values[0]) * 0.0 == 0.0;
  }
}
