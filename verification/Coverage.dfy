/** Sampling coverage of deploy/summarize_observation.py: `coverage`, over exact reals. */
module Coverage {
  import opened Options

  // ---- sorted(set(points)) ----

  predicate Rising(ps: seq<real>) {
    forall i, j | 0 <= i < j < |ps| :: ps[i] < ps[j]
  }

  lemma RisingFrom(x: real, ps: seq<real>)
    requires Rising(ps) && forall y | y in ps :: x < y
    ensures Rising([x] + ps)
  {
    var longer := [x] + ps;
    forall i, j | 0 <= i < j < |longer| ensures longer[i] < longer[j] {
      assert longer[j] == ps[j - 1] && ps[j - 1] in ps;
    }
  }

  function Insert(x: real, ps: seq<real>): (r: seq<real>)
    requires Rising(ps)
    ensures Rising(r) && (forall y :: y in r <==> y == x || y in ps)
  {
    if ps == [] || x < ps[0] then
      RisingFrom(x, ps);
      [x] + ps
    else if x == ps[0] then ps
    else
      var rest := Insert(x, ps[1..]);
      assert ps == [ps[0]] + ps[1..];
      RisingFrom(ps[0], rest);
      [ps[0]] + rest
  }

  function SortedSet(points: seq<real>): (r: seq<real>)
    ensures Rising(r) && forall y :: y in r <==> y in points
  {
    if points == [] then []
    else
      assert points == [points[0]] + points[1..];
      Insert(points[0], SortedSet(points[1..]))
  }

  function Within(ps: seq<real>, start: real, end: real): (r: seq<real>)
    requires Rising(ps)
    ensures Rising(r) && forall y :: y in r <==> y in ps && start <= y <= end
  {
    if ps == [] then []
    else
      var rest := Within(ps[1..], start, end);
      assert ps == [ps[0]] + ps[1..];
      RisingFrom(ps[0], rest);
      if start <= ps[0] <= end then [ps[0]] + rest else rest
  }

  // ---- the estimate ----

  function Ceil(x: real): int {
    -((-x).Floor)
  }

  function Max0(n: int): nat {
    if n < 0 then 0 else n
  }

  datatype Cadence = Cadence(interval: real, tolerance: real)

  /** What `summarize` demands of its settings. */
  predicate Sound(c: Cadence) {
    0.0 <= c.tolerance < c.interval
  }

  predicate IsGap(c: Cadence, left: real, right: real) {
    right - left > c.interval + c.tolerance
  }

  function MissingIn(c: Cadence, delta: real): nat
    requires Sound(c)
  {
    Max0(Ceil((delta - c.tolerance) / c.interval) - 1)
  }

  function MissingAt(c: Cadence, distance: real): nat
    requires Sound(c)
  {
    Max0(Ceil((distance - c.tolerance) / c.interval))
  }

  datatype Gap = Gap(left: real, right: real, missing: nat)

  /** The gaps among the first k+1 points, and the intervals they miss. */
  function GapsUpTo(c: Cadence, ps: seq<real>, k: nat): seq<Gap>
    requires Sound(c) && k < |ps|
  {
    if k == 0 then []
    else
      GapsUpTo(c, ps, k - 1)
      + (if IsGap(c, ps[k - 1], ps[k]) then [Gap(ps[k - 1], ps[k], MissingIn(c, ps[k] - ps[k - 1]))] else [])
  }

  function TotalMissing(gaps: seq<Gap>): nat {
    if gaps == [] then 0 else TotalMissing(gaps[..|gaps| - 1]) + gaps[|gaps| - 1].missing
  }

  datatype Report = Report(
    samples: seq<real>, bounds: Option<(real, real)>, expected: int, gaps: seq<Gap>, missing: int, complete: bool)

  /** The window: the requested one, or the observed bounds. */
  function Bounds(points: seq<real>, window: Option<(real, real)>): Option<(real, real)>
    requires Rising(points)
  {
    if window.Some? then window
    else if points == [] then None
    else Some((points[0], points[|points| - 1]))
  }

  function Samples(points: seq<real>, window: Option<(real, real)>): (r: seq<real>)
    ensures Rising(r)
  {
    var sorted := SortedSet(points);
    var bounds := Bounds(sorted, window);
    if bounds.None? then sorted else Within(sorted, bounds.value.0, bounds.value.1)
  }

  /** The estimate for samples ps of the window from start to end. */
  function Missing(c: Cadence, ps: seq<real>, start: real, end: real): nat
    requires Sound(c) && ps != []
  {
    TotalMissing(GapsUpTo(c, ps, |ps| - 1)) + MissingAt(c, ps[0] - start) + MissingAt(c, end - ps[|ps| - 1])
  }

  predicate Complete(c: Cadence, ps: seq<real>, start: real, end: real)
    requires Sound(c) && ps != []
  {
    GapsUpTo(c, ps, |ps| - 1) == [] && ps[0] - start <= c.tolerance && end - ps[|ps| - 1] <= c.tolerance
  }

  /** What the report must say, in terms of the samples inside the window. */
  predicate Reports(points: seq<real>, c: Cadence, window: Option<(real, real)>, r: Report)
    requires Sound(c)
  {
    && r.samples == Samples(points, window) && r.bounds == Bounds(SortedSet(points), window)
    && (if r.bounds.None? then r.expected == 0
        else r.expected == ((r.bounds.value.1 - r.bounds.value.0) / c.interval).Floor + 1)
    && (if r.samples == [] then r.gaps == [] && r.missing == r.expected && !r.complete
        else
          && r.bounds.Some? && r.gaps == GapsUpTo(c, r.samples, |r.samples| - 1)
          && r.missing == Missing(c, r.samples, r.bounds.value.0, r.bounds.value.1)
          && r.complete == Complete(c, r.samples, r.bounds.value.0, r.bounds.value.1))
  }

  method FindGaps(c: Cadence, samples: seq<real>) returns (gaps: seq<Gap>)
    requires Sound(c) && samples != []
    ensures gaps == GapsUpTo(c, samples, |samples| - 1)
  {
    gaps := [];
    for k := 1 to |samples|
      invariant gaps == GapsUpTo(c, samples, k - 1)
    {
      var left, right := samples[k - 1], samples[k];
      if right - left > c.interval + c.tolerance {
        gaps := gaps + [Gap(left, right, MissingIn(c, right - left))];
      }
    }
  }

  method SumMissing(gaps: seq<Gap>) returns (missing: nat)
    ensures missing == TotalMissing(gaps)
  {
    missing := 0;
    for i := 0 to |gaps|
      invariant missing == TotalMissing(gaps[..i])
    {
      assert gaps[..i + 1][..i] == gaps[..i];
      missing := missing + gaps[i].missing;
    }
    assert gaps[..|gaps|] == gaps;
  }

  /** The estimate over the samples inside the window. */
  method Measure(c: Cadence, samples: seq<real>, start: real, end: real)
    returns (gaps: seq<Gap>, missing: nat, complete: bool)
    requires Sound(c) && samples != []
    ensures gaps == GapsUpTo(c, samples, |samples| - 1)
    ensures missing == Missing(c, samples, start, end) && complete == Complete(c, samples, start, end)
  {
    gaps := FindGaps(c, samples);
    missing := SumMissing(gaps);
    var leading, trailing := samples[0] - start, end - samples[|samples| - 1];
    missing := missing + MissingAt(c, leading) + MissingAt(c, trailing);
    complete := gaps == [] && leading <= c.tolerance && trailing <= c.tolerance;
  }

  /** `coverage`. */
  method Cover(points: seq<real>, c: Cadence, window: Option<(real, real)>) returns (r: Report)
    requires Sound(c) && (window.Some? ==> window.value.0 <= window.value.1)
    ensures Reports(points, c, window, r)
  {
    hide MissingAt, MissingIn, GapsUpTo, TotalMissing, SortedSet, Within;
    var sorted := SortedSet(points);
    var bounds := Bounds(sorted, window);
    var samples := if bounds.None? then sorted else Within(sorted, bounds.value.0, bounds.value.1);
    var expected := if bounds.None? then 0 else ((bounds.value.1 - bounds.value.0) / c.interval).Floor + 1;
    if samples == [] {
      return Report(samples, bounds, expected, [], expected, false);
    }
    var gaps, missing, complete := Measure(c, samples, bounds.value.0, bounds.value.1);
    r := Report(samples, bounds, expected, gaps, missing, complete);
  }

  // ---- arithmetic of the estimates ----

  /** The time that k intervals take, and the tolerance that k samples are granted. */
  function Time(c: Cadence, k: real): real {
    c.interval * k
  }

  function Slack(c: Cadence, k: real): real {
    k * c.tolerance
  }

  lemma Adds(c: Cadence, a: real, b: real)
    ensures Time(c, a + b) == Time(c, a) + Time(c, b) && Slack(c, a + b) == Slack(c, a) + Slack(c, b)
    ensures Time(c, 0.0) == 0.0 && Slack(c, 0.0) == 0.0 && Time(c, 1.0) == c.interval && Slack(c, 1.0) == c.tolerance
  {
  }

  lemma CeilBounds(x: real)
    ensures Ceil(x) as real - 1.0 < x <= Ceil(x) as real
  {
  }

  lemma Divides(c: Cadence, x: real, k: real)
    requires Sound(c)
    ensures x / c.interval <= k <==> x <= Time(c, k)
  {
    var q := x / c.interval;
    assert q * c.interval == x;
    if q <= k {
      assert (k - q) * c.interval >= 0.0;
    } else {
      assert (q - k) * c.interval > 0.0;
    }
  }

  /** A count is 0 exactly when nothing is missing, and never less than the distance asks for. */
  lemma AtBounds(c: Cadence, distance: real)
    requires Sound(c)
    ensures MissingAt(c, distance) == 0 <==> distance <= c.tolerance
    ensures Time(c, MissingAt(c, distance) as real) >= distance - c.tolerance
  {
    var x := (distance - c.tolerance) / c.interval;
    CeilBounds(x);
    Divides(c, distance - c.tolerance, 0.0);
    Divides(c, distance - c.tolerance, MissingAt(c, distance) as real);
    Adds(c, 0.0, 0.0);
  }

  lemma InBounds(c: Cadence, delta: real)
    requires Sound(c)
    ensures MissingIn(c, delta) == 0 <==> delta <= c.interval + c.tolerance
    ensures Time(c, MissingIn(c, delta) as real + 1.0) >= delta - c.tolerance
  {
    hide Time;
    var x := (delta - c.tolerance) / c.interval;
    CeilBounds(x);
    Divides(c, delta - c.tolerance, 1.0);
    Divides(c, delta - c.tolerance, MissingIn(c, delta) as real + 1.0);
    Adds(c, 0.0, 0.0);
  }

  // ---- soundness and exactness ----

  /** Neighbouring samples i - 1 and i are at most `width` apart. */
  predicate Near(ps: seq<real>, width: real, i: nat)
    requires 0 < i < |ps|
  {
    ps[i] - ps[i - 1] <= width
  }

  predicate AllNear(ps: seq<real>, width: real, k: nat)
    requires k < |ps|
  {
    forall i | 0 < i <= k :: Near(ps, width, i)
  }

  lemma {:induction false} NoGaps(c: Cadence, ps: seq<real>, k: nat)
    requires Sound(c) && k < |ps|
    ensures GapsUpTo(c, ps, k) == [] <==> TotalMissing(GapsUpTo(c, ps, k)) == 0
    ensures GapsUpTo(c, ps, k) == [] <==> AllNear(ps, c.interval + c.tolerance, k)
  {
    if k > 0 {
      NoGaps(c, ps, k - 1);
      InBounds(c, ps[k] - ps[k - 1]);
      GapAdded(c, ps, k);
    }
  }

  lemma GapAdded(c: Cadence, ps: seq<real>, k: nat)
    requires Sound(c) && 0 < k < |ps|
    ensures TotalMissing(GapsUpTo(c, ps, k)) == TotalMissing(GapsUpTo(c, ps, k - 1)) + MissingIn(c, ps[k] - ps[k - 1])
    ensures GapsUpTo(c, ps, k) == [] <==> GapsUpTo(c, ps, k - 1) == [] && Near(ps, c.interval + c.tolerance, k)
  {
    hide MissingIn;
    InBounds(c, ps[k] - ps[k - 1]);
    var before, m := GapsUpTo(c, ps, k - 1), MissingIn(c, ps[k] - ps[k - 1]);
    if IsGap(c, ps[k - 1], ps[k]) {
      var after := before + [Gap(ps[k - 1], ps[k], m)];
      assert GapsUpTo(c, ps, k) == after && after[..|before|] == before;
      assert TotalMissing(after) == TotalMissing(before) + m;
    } else {
      assert GapsUpTo(c, ps, k) == before;
    }
  }

  /** With a sample in the window, it is complete exactly when nothing is estimated missing. */
  lemma CompleteIffNoneMissing(c: Cadence, ps: seq<real>, start: real, end: real)
    requires Sound(c) && ps != []
    ensures Complete(c, ps, start, end) <==> Missing(c, ps, start, end) == 0
  {
    hide MissingAt, GapsUpTo, TotalMissing;
    NoGaps(c, ps, |ps| - 1);
    AtBounds(c, ps[0] - start);
    AtBounds(c, end - ps[|ps| - 1]);
  }

  /** A sample lies in the closed interval from a of this width. */
  predicate Holds(ps: seq<real>, a: real, width: real) {
    exists i :: 0 <= i < |ps| && a <= ps[i] <= a + width
  }

  /** Consecutive samples close enough leave no closed interval of that length empty. */
  lemma {:induction false} DenseHolds(ps: seq<real>, n: nat, width: real, a: real)
    requires n < |ps| && AllNear(ps, width, n)
    requires ps[0] <= a + width && a <= ps[n]
    ensures Holds(ps, a, width)
  {
    if !(a <= ps[n] <= a + width) {
      assert n > 0 && Near(ps, width, n);
      DenseHolds(ps, n - 1, width, a);
    }
  }

  lemma EmptyBetween(ps: seq<real>, i: nat, a: real, width: real)
    requires Rising(ps) && 0 < i < |ps| && ps[i - 1] < a && a + width < ps[i]
    ensures !Holds(ps, a, width)
  {
    forall j | 0 <= j < |ps| ensures !(a <= ps[j] <= a + width) {
      if j < i - 1 {
        assert ps[j] < ps[i - 1];
      } else if j > i {
        assert ps[i] < ps[j];
      }
    }
  }

  /** Every closed interval of this width between the first and the last sample holds one. */
  ghost predicate Dense(ps: seq<real>, width: real)
    requires ps != []
  {
    forall a :: ps[0] <= a && a + width <= ps[|ps| - 1] ==> Holds(ps, a, width)
  }

  lemma DenseIffNear(ps: seq<real>, width: real)
    requires ps != [] && Rising(ps) && width > 0.0
    ensures Dense(ps, width) <==> AllNear(ps, width, |ps| - 1)
  {
    var n := |ps| - 1;
    if AllNear(ps, width, n) {
      forall a | ps[0] <= a && a + width <= ps[n] ensures Holds(ps, a, width) {
        DenseHolds(ps, n, width, a);
      }
    } else {
      var i :| 0 < i < |ps| && !Near(ps, width, i);
      var a := ps[i - 1] + (ps[i] - ps[i - 1] - width) / 2.0;
      EmptyBetween(ps, i, a, width);
      assert ps[0] <= ps[i - 1] && ps[i] <= ps[n];
    }
  }

  /**
   A window with samples is complete exactly when its first and last samples are within tolerance of its
   bounds and every closed interval of length interval + tolerance between them holds a sample.
   */
  lemma CompleteMeansDense(c: Cadence, ps: seq<real>, start: real, end: real)
    requires Sound(c) && ps != [] && Rising(ps)
    ensures Complete(c, ps, start, end) <==>
              ps[0] - start <= c.tolerance && end - ps[|ps| - 1] <= c.tolerance && Dense(ps, c.interval + c.tolerance)
  {
    hide GapsUpTo, Dense;
    NoGaps(c, ps, |ps| - 1);
    DenseIffNear(ps, c.interval + c.tolerance);
  }

  /** So in a complete window every closed interval of that length holds a sample. */
  lemma CompleteHolds(c: Cadence, ps: seq<real>, start: real, end: real, a: real)
    requires Sound(c) && ps != [] && Complete(c, ps, start, end)
    requires start <= a && a + (c.interval + c.tolerance) <= end
    ensures Holds(ps, a, c.interval + c.tolerance)
  {
    hide GapsUpTo;
    NoGaps(c, ps, |ps| - 1);
    DenseHolds(ps, |ps| - 1, c.interval + c.tolerance, a);
  }

  lemma {:induction false} InternalBound(c: Cadence, ps: seq<real>, k: nat)
    requires Sound(c) && k < |ps|
    ensures Time(c, TotalMissing(GapsUpTo(c, ps, k)) as real + k as real) >= ps[k] - ps[0] - Slack(c, k as real)
  {
    hide Time, Slack, MissingIn, TotalMissing;
    Adds(c, 0.0, 0.0);
    if k == 0 {
      assert TotalMissing(GapsUpTo(c, ps, 0)) == 0 by { NoGaps(c, ps, 0); }
    } else {
      InternalBound(c, ps, k - 1);
      InBounds(c, ps[k] - ps[k - 1]);
      GapAdded(c, ps, k);
      var t, m := TotalMissing(GapsUpTo(c, ps, k - 1)), MissingIn(c, ps[k] - ps[k - 1]);
      Adds(c, t as real + (k - 1) as real, m as real + 1.0);
      Adds(c, (k - 1) as real, 1.0);
      assert (t + m) as real + k as real == (t as real + (k - 1) as real) + (m as real + 1.0);
      assert k as real == (k - 1) as real + 1.0;
    }
  }

  /** Samples and missing intervals together always account for the whole window. */
  lemma SpanAccounted(c: Cadence, ps: seq<real>, start: real, end: real)
    requires Sound(c) && ps != []
    ensures var n := |ps| as real;
            n + Missing(c, ps, start, end) as real >= (end - start - Slack(c, n + 1.0)) / c.interval + 1.0
  {
    hide Time, Slack, MissingAt, TotalMissing, GapsUpTo;
    var k := |ps| - 1;
    var first, last, inner := MissingAt(c, ps[0] - start), MissingAt(c, end - ps[k]), TotalMissing(GapsUpTo(c, ps, k));
    InternalBound(c, ps, k);
    AtBounds(c, ps[0] - start);
    AtBounds(c, end - ps[k]);
    Adds(c, inner as real + k as real, first as real + last as real);
    Adds(c, first as real, last as real);
    Adds(c, k as real, 2.0);
    Adds(c, 1.0, 1.0);
    var n, total := |ps| as real, Missing(c, ps, start, end) as real;
    assert n + total - 1.0 == (inner as real + k as real) + (first as real + last as real);
    assert n + 1.0 == k as real + 2.0;
    Divides(c, end - start - Slack(c, n + 1.0), n + total - 1.0);
  }
}
