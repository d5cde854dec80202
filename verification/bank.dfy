/**
 * The log-spaced filter bank layout: `count` bins between `min` and `max`, each spanning two equal
 * ratio half-steps, with its center on the middle one. The library's ISO 226 gain function is a
 * parameter.
 */
module Bank {
  import opened Common
  import opened Float

  datatype Bin = Bin(min: real, max: real, center: real, iso226Gain: real)

  /** `Bin::bandwidth`. */
  function Bandwidth(b: Bin): (r: real)
    ensures b.min < b.max <==> 0.0 < r
  {
    b.max - b.min
  }

  /** `Bin::q`: the center over the bandwidth, an IEEE division. */
  function Q(m: Math, b: Bin): (r: real)
    ensures Division(m) && b.min < b.max ==> r * Bandwidth(b) == b.center
  {
    m.fdiv(b.center, Bandwidth(b))
  }

  /** `exp2(0) == 1`. */
  ghost predicate Exp2Zero(m: Math)
  {
    m.exp2(0.0) == 1.0
  }

  /** `exp2` undoes `log2` on positive reals. */
  ghost predicate Exp2Log2(m: Math)
  {
    forall x: real :: 0.0 < x ==> m.exp2(m.log2(x)) == x
  }

  /** The exponent step of one half-step: `log2(max / min) / (2 count)`. */
  function LogStep(m: Math, min: real, max: real, count: nat): real
    requires count > 1
  {
    m.log2(m.fdiv(max, min)) / (2 * count) as real
  }

  /** The `i`-th half-step edge, `min * exp2(step * i)`: the walk starts at `min`. */
  function Freq(m: Math, min: real, step: real, i: nat): (r: real)
    ensures i == 0 && Exp2Zero(m) ==> r == min
  {
    min * m.exp2(step * i as real)
  }

  /** With `exp2` increasing, a positive start and a positive step, each half-step edge lies above the one before. */
  lemma FreqStep(m: Math, min: real, step: real, i: nat)
    ensures Exp2Increasing(m) && min > 0.0 && step > 0.0 ==> Freq(m, min, step, i) < Freq(m, min, step, i + 1)
  {
    if Exp2Increasing(m) && min > 0.0 && step > 0.0 {
      var e, e' := step * i as real, step * (i + 1) as real;
      assert e' == e + step;
      var a, b := m.exp2(e), m.exp2(e');
      assert a < b;
      MulPositive(min, b - a);
      assert min * (b - a) == min * b - min * a;
      assert Freq(m, min, step, i) == min * a && Freq(m, min, step, i + 1) == min * b;
    }
  }

  /** A product of positive reals is positive. */
  lemma MulPositive(x: real, y: real)
    requires x > 0.0 && y > 0.0
    ensures x * y > 0.0
  {
  }

  /**
   * The layout of bin `i`: its edges are half-steps `2i` and `2i + 2`, its center `2i + 1`, and its
   * gain is the one at its own center. On an increasing walk the center lies strictly inside.
   */
  function BinAt(m: Math, gain: real -> real, min: real, step: real, i: nat): (b: Bin)
    ensures b.iso226Gain == gain(b.center)
    ensures Exp2Increasing(m) && min > 0.0 && step > 0.0 ==> b.min < b.center < b.max
  {
    var center := Freq(m, min, step, 2 * i + 1);
    FreqStep(m, min, step, 2 * i);
    FreqStep(m, min, step, 2 * i + 1);
    Bin(Freq(m, min, step, 2 * i), Freq(m, min, step, 2 * i + 2), center, gain(center))
  }

  /** Adjacent bins share an edge. */
  predicate Contiguous(bins: seq<Bin>)
  {
    forall i :: 0 <= i < |bins| - 1 ==> bins[i].max == bins[i + 1].min
  }

  /**
   * `bins`: exactly `count` bins, contiguous, starting at the first edge, each carrying the gain at
   * its own center. Both asserts of the source are preconditions.
   */
  function Bins(m: Math, gain: real -> real, min: real, max: real, count: nat): (r: seq<Bin>)
    requires max > min && count > 1
    ensures |r| == count && Contiguous(r)
    ensures r[0].min == min * m.exp2(0.0)
    ensures forall i :: 0 <= i < count ==> r[i].iso226Gain == gain(r[i].center)
    ensures forall i :: 0 <= i < count ==> r[i].center == Freq(m, min, LogStep(m, min, max, count), 2 * i + 1)
  {
    var step := LogStep(m, min, max, count);
    var r := seq(count, i requires 0 <= i < count => BinAt(m, gain, min, step, i));
    forall i | 0 <= i < count - 1
      ensures r[i].max == r[i + 1].min
    {
      assert 2 * i + 2 == 2 * (i + 1);
    }
    assert r[0].min == Freq(m, min, step, 0);
    r
  }

  /** With `exp2` increasing and `min > 0`, the half-step edges strictly increase. */
  lemma FreqIncreasing(m: Math, min: real, max: real, count: nat, i: nat, j: nat)
    requires Exp2Increasing(m) && Log2PositiveAboveOne(m) && Division(m)
    requires 0.0 < min < max && count > 1 && i < j
    ensures Freq(m, min, LogStep(m, min, max, count), i) < Freq(m, min, LogStep(m, min, max, count), j)
  {
    var step := LogStep(m, min, max, count);
    assert m.fdiv(max, min) == max / min;
    assert max / min > 1.0;
    assert step > 0.0;
    assert step * i as real < step * j as real by {
      assert step * (j as real - i as real) > 0.0;
    }
    var a, b := m.exp2(step * i as real), m.exp2(step * j as real);
    assert a < b;
    assert min * (b - a) > 0.0;
  }

  /** Every bin is well ordered, `min < center < max`, as the test checks. */
  lemma BinsWellOrdered(m: Math, gain: real -> real, min: real, max: real, count: nat)
    requires Exp2Increasing(m) && Log2PositiveAboveOne(m) && Division(m)
    requires 0.0 < min < max && count > 1
    ensures forall i :: 0 <= i < count ==> Bins(m, gain, min, max, count)[i].min < Bins(m, gain, min, max, count)[i].center < Bins(m, gain, min, max, count)[i].max
  {
    var bins := Bins(m, gain, min, max, count);
    forall i | 0 <= i < count
      ensures bins[i].min < bins[i].center < bins[i].max
    {
      FreqIncreasing(m, min, max, count, 2 * i, 2 * i + 1);
      FreqIncreasing(m, min, max, count, 2 * i + 1, 2 * i + 2);
    }
  }

  lemma FreqAt(m: Math, min: real, step: real, n: nat, e: real)
    requires step * n as real == e
    ensures Freq(m, min, step, n) == min * m.exp2(e)
  {
  }

  /** In exact arithmetic the last half-step edge, `2 count`, is `max`. */
  lemma LastEdgeIsMax(m: Math, min: real, max: real, count: nat)
    requires Exp2Log2(m) && Division(m)
    requires 0.0 < min < max && count > 1
    ensures Freq(m, min, LogStep(m, min, max, count), 2 * count) == max
  {
    var ratio := m.fdiv(max, min);
    assert ratio == max / min;
    var step := LogStep(m, min, max, count);
    assert step * (2 * count) as real == m.log2(ratio);
    FreqAt(m, min, step, 2 * count, m.log2(ratio));
    assert m.exp2(m.log2(ratio)) == ratio;
    assert min * (max / min) == max;
  }

  /** In exact arithmetic the bank covers `[min, max]`: the first edge is `min` and the last is `max`. */
  lemma BinsCoverRange(m: Math, gain: real -> real, min: real, max: real, count: nat)
    requires Exp2Zero(m) && Exp2Log2(m) && Division(m)
    requires 0.0 < min < max && count > 1
    ensures Bins(m, gain, min, max, count)[0].min == min
    ensures Bins(m, gain, min, max, count)[count - 1].max == max
  {
    var step := LogStep(m, min, max, count);
    var bins := Bins(m, gain, min, max, count);
    var last: nat := count - 1;
    assert bins[last] == BinAt(m, gain, min, step, last);
    assert 2 * last + 2 == 2 * count;
    LastEdgeIsMax(m, min, max, count);
  }

  /** The sum of the bandwidths, bin by bin. */
  function TotalBandwidth(bins: seq<Bin>): real
  {
    if bins == [] then 0.0 else TotalBandwidth(bins[..|bins| - 1]) + Bandwidth(bins[|bins| - 1])
  }

  /** The bandwidths of contiguous bins telescope to the span from the first edge to the last. */
  lemma {:induction false} BandwidthTelescopes(bins: seq<Bin>)
    requires |bins| > 0 && Contiguous(bins)
    ensures TotalBandwidth(bins) == bins[|bins| - 1].max - bins[0].min
  {
    if |bins| > 1 {
      var init := bins[..|bins| - 1];
      assert Contiguous(init);
      BandwidthTelescopes(init);
      assert bins[|bins| - 2].max == bins[|bins| - 1].min;
    }
  }

  /** `f64::MAX` exactly, `(2 - 2^-52) * 2^1023`: the starting distance of the lookup. */
  const F64Max: real := 179769313486231570814527423731704356798070567525844996598917476803157260780028538760589558632766878171540458953514382464234321326889464182768467546703537516986049910576551282076245490090389328944075868508455133942304583236903222948165808559332123348274797826204144723168738177180919299881250404026184124858368.0

  /** How far a bin's center is from `center`: `|1 - center / b.center|`. */
  function Distance(m: Math, center: real, b: Bin): real
  {
    AbsR(1.0 - m.fdiv(center, b.center))
  }

  function Distances(m: Math, center: real, bins: seq<Bin>): (r: seq<real>)
    ensures |r| == |bins| && forall i :: 0 <= i < |bins| ==> r[i] == Distance(m, center, bins[i])
  {
    seq(|bins|, i requires 0 <= i < |bins| => Distance(m, center, bins[i]))
  }

  /** `k` is the first index of a least element of `ds`. */
  predicate FirstMin(ds: seq<real>, k: nat)
  {
    && k < |ds|
    && (forall j :: 0 <= j < k ==> ds[k] < ds[j])
    && (forall j :: k < j < |ds| ==> ds[k] <= ds[j])
  }

  /** `k` is the index the lookup picks: the first least distance, or 0 when none is below `f64::MAX`. */
  predicate LookupIndex(ds: seq<real>, k: nat)
  {
    && k < |ds|
    && ((exists j :: 0 <= j < |ds| && ds[j] < F64Max) ==> FirstMin(ds, k))
    && ((forall j :: 0 <= j < |ds| ==> F64Max <= ds[j]) ==> k == 0)
  }

  /** The argmin loop of `bin_lookup`. */
  method Closest(ds: seq<real>) returns (closest: nat)
    requires |ds| > 0
    ensures LookupIndex(ds, closest)
  {
    closest := 0;
    var minDist := F64Max;
    var i := 0;
    while i < |ds|
      invariant 0 <= i <= |ds| && 0 <= closest < |ds|
      invariant minDist <= F64Max
      invariant forall j :: 0 <= j < i ==> minDist <= ds[j]
      invariant forall j :: 0 <= j < closest ==> minDist < ds[j]
      invariant minDist < F64Max ==> closest < i && ds[closest] == minDist
      invariant minDist == F64Max ==> closest == 0
    {
      if ds[i] < minDist {
        closest := i;
        minDist := ds[i];
      }
      i := i + 1;
    }
  }

  /**
   * `bin_lookup`: the bin at the first index whose center is closest to `center` in ratio; if no
   * distance is below `f64::MAX`, the first bin.
   */
  method BinLookup(m: Math, gain: real -> real, min: real, max: real, count: nat, center: real) returns (b: Bin)
    requires max > min && count > 1
    ensures exists k: nat :: LookupIndex(Distances(m, center, Bins(m, gain, min, max, count)), k) && b == Bins(m, gain, min, max, count)[k]
  {
    var bins := Bins(m, gain, min, max, count);
    var closest := Closest(Distances(m, center, bins));
    b := bins[closest];
  }
}
