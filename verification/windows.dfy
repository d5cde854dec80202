/**
 * DFT window functions: the COLA repeat interval of each window, the integrated and normalised
 * bin weights of the shape windows, and the symmetrised, peak-normalised Dolph-Chebyshev window.
 * The Dolph-Chebyshev spectrum and its inverse DFT are not modelled: their real parts are an input.
 */
module Windows {
  import opened Common
  import opened Float

  datatype WindowFunction = BoxCar | Welch | Bartlett | Hamming | DolphChebyshev(attenuationDb: real)

  /** `WindowFunction::default`. */
  const DefaultWindow: WindowFunction := DolphChebyshev(40.0)

  /**
   * `repeat`: how many samples pass between re-sums of the window. Half the length for the box
   * car, Bartlett and Hamming windows, 29.3% for Welch and a quarter for Dolph-Chebyshev, rounded up.
   */
  function Repeat(w: WindowFunction, length: nat): (r: nat)
    ensures r == 0 <==> length == 0
    ensures r <= length
    ensures (w.BoxCar? || w.Bartlett? || w.Hamming?) ==> length <= 2 * r < length + 2
    ensures w.DolphChebyshev? ==> length <= 4 * r < length + 4
    ensures w.Welch? ==> length as real * 0.293 <= r as real < length as real * 0.293 + 1.0
  {
    match w
    case BoxCar => CeilDiv(length, 2)
    case Bartlett => CeilDiv(length, 2)
    case Welch => SaturatingToNat(Ceil(length as real * 0.293))
    case Hamming => CeilDiv(length, 2)
    case DolphChebyshev(_) => CeilDiv(length, 4)
  }

  /** A non-empty window re-sums at least once per `length` samples. */
  lemma RepeatPositive(w: WindowFunction, length: nat)
    requires length > 0
    ensures 1 <= Repeat(w, length) <= length
  {
  }

  /** `boxcar`: every position weighs the same. */
  function Boxcar(x: real): (r: real)
    ensures r == 1.0
  {
    1.0
  }

  /** `welch`: a parabola over the unit interval, zero at both ends and one in the middle. */
  function WelchShape(x: real): (r: real)
    ensures 0.0 <= x <= 1.0 ==> 0.0 <= r <= 1.0
    ensures x == 0.0 || x == 1.0 ==> r == 0.0
    ensures x == 0.5 ==> r == 1.0
  {
    var t := 2.0 * x - 1.0;
    assert -1.0 <= t <= 1.0 ==> t * t <= 1.0 by {
      if -1.0 <= t <= 1.0 {
        if t >= 0.0 {
          assert t * t <= t * 1.0;
        } else {
          assert t * t <= (-t) * 1.0;
        }
      }
    }
    1.0 - t * t
  }

  /** `bartlett`: a triangle over the unit interval, zero at both ends and one in the middle. */
  function BartlettShape(x: real): (r: real)
    ensures 0.0 <= x <= 1.0 ==> 0.0 <= r <= 1.0
    ensures x == 0.0 || x == 1.0 ==> r == 0.0
    ensures x == 0.5 ==> r == 1.0
  {
    if x < 0.5 then 2.0 * x else 2.0 - 2.0 * x
  }

  /** `hamming`: with `a0 = 25/46`, the window stays between `2 a0 - 1 = 4/46` and 1 wherever `cos` is bounded. */
  function HammingShape(m: Math, x: real): (r: real)
    ensures CosBounded(m) ==> 4.0 / 46.0 <= r <= 1.0
  {
    var a0 := 25.0 / 46.0;
    a0 - (1.0 - a0) * m.cos(2.0 * Pi64 * x)
  }

  /** The Welch and Bartlett shapes are symmetric about the middle of the interval. */
  lemma ShapesSymmetric(x: real)
    ensures WelchShape(1.0 - x) == WelchShape(x)
    ensures BartlettShape(1.0 - x) == BartlettShape(x)
  {
    var t := 2.0 * x - 1.0;
    assert 2.0 * (1.0 - x) - 1.0 == -t;
    assert (-t) * (-t) == t * t;
  }

  /** The shape function a non-Dolph window integrates. */
  function Shape(m: Math, w: WindowFunction): real -> real
    requires !w.DolphChebyshev?
  {
    match w
    case BoxCar => Boxcar
    case Welch => WelchShape
    case Bartlett => BartlettShape
    case Hamming => x => HammingShape(m, x)
  }

  /** Midpoint samples taken in each bin. */
  const SamplesPerBin: nat := 512

  /** The sum of `f` at the midpoints of the first `s` sub-steps of a bin. */
  function SampleSum(f: real -> real, start: real, step: real, s: nat): real
  {
    if s == 0 then 0.0 else SampleSum(f, start, step, s - 1) + f(start + ((s - 1) as real + 0.5) * step)
  }

  /** Bin `bin` of `bins`: the mean of `f` over 512 midpoints of `[bin / bins, (bin + 1) / bins)`. */
  function RawWeight(f: real -> real, bins: nat, bin: nat): real
    requires bins > 0
  {
    var start := bin as real / bins as real;
    var end := (bin + 1) as real / bins as real;
    SampleSum(f, start, (end - start) / SamplesPerBin as real, SamplesPerBin) / SamplesPerBin as real
  }

  function RawWeights(f: real -> real, bins: nat): (r: seq<real>)
    ensures |r| == bins
  {
    seq(bins, i requires 0 <= i < bins => RawWeight(f, bins, i))
  }

  /** `fold(0.0, f64::max)`: the largest weight, or zero if none is positive. */
  function FoldMax(ws: seq<real>): (r: real)
    ensures 0.0 <= r && forall i :: 0 <= i < |ws| ==> ws[i] <= r
  {
    if ws == [] then 0.0 else MaxR(FoldMax(ws[..|ws| - 1]), ws[|ws| - 1])
  }

  /** A positive `FoldMax` is one of the weights. */
  lemma {:induction false} FoldMaxAttained(ws: seq<real>)
    requires FoldMax(ws) > 0.0
    ensures exists i :: 0 <= i < |ws| && ws[i] == FoldMax(ws)
  {
    var init := ws[..|ws| - 1];
    if FoldMax(ws) != ws[|ws| - 1] {
      FoldMaxAttained(init);
      var k :| 0 <= k < |init| && init[k] == FoldMax(init);
      assert ws[k] == FoldMax(ws);
    }
  }

  /** Multiplying by the IEEE reciprocal of a positive bound brings a value at most the bound to at most 1. */
  lemma ScaledAtMostOne(m: Math, x: real, mx: real)
    requires Division(m) && mx > 0.0 && x <= mx
    ensures x * m.fdiv(1.0, mx) <= 1.0
    ensures x == mx ==> x * m.fdiv(1.0, mx) == 1.0
  {
    var d := m.fdiv(1.0, mx);
    assert d == 1.0 / mx;
    assert d * mx == 1.0;
  }

  /** Dividing by a positive bound brings a value at most the bound to at most 1. */
  lemma DividedAtMostOne(m: Math, x: real, mx: real)
    requires Division(m) && mx > 0.0 && x <= mx
    ensures m.fdiv(x, mx) <= 1.0
    ensures x == mx ==> m.fdiv(x, mx) == 1.0
  {
    assert m.fdiv(x, mx) == x / mx;
  }

  predicate HasOne(ws: seq<real>)
  {
    exists i :: 0 <= i < |ws| && ws[i] == 1.0
  }

  /** The normalisation of `bin_weights`: unless some weight is exactly 1, every weight is multiplied by `1 / max`. */
  function Normalized(m: Math, ws: seq<real>): (r: seq<real>)
    ensures |r| == |ws|
    ensures HasOne(ws) ==> r == ws
    ensures !HasOne(ws) ==> r == Scaled(ws, m.fdiv(1.0, FoldMax(ws)))
  {
    if HasOne(ws) then ws else Scaled(ws, m.fdiv(1.0, FoldMax(ws)))
  }

  /** Every weight multiplied by `k`. */
  function Scaled(ws: seq<real>, k: real): (r: seq<real>)
    ensures |r| == |ws| && forall i :: 0 <= i < |ws| ==> r[i] == ws[i] * k
  {
    seq(|ws|, i requires 0 <= i < |ws| => ws[i] * k)
  }

  /** Scaling by the reciprocal of a positive bound on every weight leaves each at most 1, and the weights at the bound at 1. */
  lemma {:induction false} ScaledPeak(m: Math, ws: seq<real>, mx: real)
    requires Division(m) && mx > 0.0 && forall i :: 0 <= i < |ws| ==> ws[i] <= mx
    ensures forall i :: 0 <= i < |ws| ==> Scaled(ws, m.fdiv(1.0, mx))[i] <= 1.0
    ensures forall i :: 0 <= i < |ws| && ws[i] == mx ==> Scaled(ws, m.fdiv(1.0, mx))[i] == 1.0
  {
    forall i | 0 <= i < |ws|
      ensures Scaled(ws, m.fdiv(1.0, mx))[i] <= 1.0
      ensures ws[i] == mx ==> Scaled(ws, m.fdiv(1.0, mx))[i] == 1.0
    {
      ScaledAtMostOne(m, ws[i], mx);
    }
  }

  /** After normalisation by a positive maximum, every weight is at most 1 and one of them is 1. */
  lemma {:induction false} NormalizedPeakIsOne(m: Math, ws: seq<real>)
    requires Division(m) && !HasOne(ws) && FoldMax(ws) > 0.0
    ensures forall i :: 0 <= i < |ws| ==> Normalized(m, ws)[i] <= 1.0
    ensures HasOne(Normalized(m, ws))
  {
    ScaledPeak(m, ws, FoldMax(ws));
    FoldMaxAttained(ws);
    var k :| 0 <= k < |ws| && ws[k] == FoldMax(ws);
    assert Normalized(m, ws)[k] == 1.0;
  }

  /** The box car integrates to exactly one in every bin, so its weights are all one and left as they are. */
  lemma BoxcarWeightsAreOne(m: Math, bins: nat)
    requires bins > 0
    ensures Normalized(m, RawWeights(Boxcar, bins)) == seq(bins, _ => 1.0)
  {
    forall i | 0 <= i < bins
      ensures RawWeight(Boxcar, bins, i) == 1.0
    {
      var start := i as real / bins as real;
      var step := ((i + 1) as real / bins as real - start) / SamplesPerBin as real;
      SampleSumOfOne(start, step, SamplesPerBin);
    }
    assert HasOne(RawWeights(Boxcar, bins)) by {
      assert RawWeights(Boxcar, bins)[0] == 1.0;
    }
  }

  lemma {:induction false} SampleSumOfOne(start: real, step: real, s: nat)
    ensures SampleSum(Boxcar, start, step, s) == s as real
  {
    if s > 0 {
      SampleSumOfOne(start, step, s - 1);
    }
  }

  lemma SampleSumStep(f: real -> real, start: real, step: real, s: nat)
    ensures SampleSum(f, start, step, s + 1) == SampleSum(f, start, step, s) + f(start + (s as real + 0.5) * step)
  {
    assert (s + 1 - 1) as real == s as real;
  }

  /** The integration loop of `bin_weights` for one bin. */
  method IntegrateBin(f: real -> real, bins: nat, bin: nat) returns (w: real)
    requires bins > 0
    ensures w == RawWeight(f, bins, bin)
  {
    var start := bin as real / bins as real;
    var end := (bin + 1) as real / bins as real;
    var step := (end - start) / SamplesPerBin as real;
    var sum := 0.0;
    var s := 0;
    while s < SamplesPerBin
      invariant 0 <= s <= SamplesPerBin
      invariant sum == SampleSum(f, start, step, s)
    {
      SampleSumStep(f, start, step, s);
      sum := sum + f(start + (s as real + 0.5) * step);
      s := s + 1;
    }
    w := sum / SamplesPerBin as real;
  }

  /** The search of `bin_weights` for a weight of exactly 1. */
  method FindOne(ws: seq<real>) returns (found: bool)
    ensures found <==> HasOne(ws)
  {
    found := false;
    var i := 0;
    while i < |ws| && !found
      invariant 0 <= i <= |ws|
      invariant found ==> i > 0 && ws[i - 1] == 1.0
      invariant !found ==> forall j :: 0 <= j < i ==> ws[j] != 1.0
    {
      found := ws[i] == 1.0;
      i := i + 1;
    }
  }

  /** The maximum fold of `bin_weights`. */
  method FoldMaxLoop(ws: seq<real>) returns (mx: real)
    ensures mx == FoldMax(ws)
  {
    mx := 0.0;
    var i := 0;
    while i < |ws|
      invariant 0 <= i <= |ws|
      invariant mx == FoldMax(ws[..i])
    {
      assert ws[..i + 1][..i] == ws[..i];
      mx := MaxR(mx, ws[i]);
      i := i + 1;
    }
    assert ws[..|ws|] == ws;
  }

  /** The scaling loop of `bin_weights`. */
  method ScaleLoop(ws: seq<real>, k: real) returns (r: seq<real>)
    ensures r == Scaled(ws, k)
  {
    r := ws;
    var i := 0;
    while i < |ws|
      invariant 0 <= i <= |ws| && |r| == |ws|
      invariant forall j :: 0 <= j < i ==> r[j] == ws[j] * k
      invariant forall j :: i <= j < |ws| ==> r[j] == ws[j]
    {
      r := r[i := r[i] * k];
      i := i + 1;
    }
    assert r == Scaled(ws, k);
  }

  /** The normalisation of `bin_weights`: the search for a 1, the maximum fold, the scaling. */
  method Normalize(m: Math, ws: seq<real>) returns (r: seq<real>)
    ensures r == Normalized(m, ws)
  {
    var found := FindOne(ws);
    if found {
      return ws;
    }
    var mx := FoldMaxLoop(ws);
    r := ScaleLoop(ws, m.fdiv(1.0, mx));
  }

  /** `bin_weights`: integrate each bin, then normalise. */
  method BinWeights(m: Math, f: real -> real, bins: nat) returns (weights: seq<real>)
    ensures weights == Normalized(m, RawWeights(f, bins))
  {
    var raw: seq<real> := [];
    var bin := 0;
    while bin < bins
      invariant 0 <= bin <= bins
      invariant raw == RawWeights(f, bins)[..bin]
    {
      var w := IntegrateBin(f, bins, bin);
      raw := raw + [w];
      bin := bin + 1;
    }
    assert RawWeights(f, bins)[..bins] == RawWeights(f, bins);
    weights := Normalize(m, raw);
  }

  /**
   * The symmetrisation of `dolph_chebyshev_window`: each of the first `n / 2` positions and its
   * mirror both become their average; an odd window's middle is kept.
   */
  function Symmetrized(s: seq<real>): (r: seq<real>)
    ensures |r| == |s|
    ensures forall i :: 0 <= i < |s| / 2 ==> r[i] == 0.5 * (s[i] + s[|s| - 1 - i])
    ensures |s| % 2 == 1 ==> r[|s| / 2] == s[|s| / 2]
  {
    AveragedEnds(s, |s| / 2)
  }

  /** `s` with its first `k` positions and their mirrors replaced by the pair's average. */
  function AveragedEnds(s: seq<real>, k: nat): (r: seq<real>)
    requires k <= |s| / 2
    ensures |r| == |s|
  {
    seq(|s|, i requires 0 <= i < |s| => if i < k || i >= |s| - k then 0.5 * (s[i] + s[|s| - 1 - i]) else s[i])
  }

  /** One step of the averaging loop: averaging pair `k` extends the averaged ends by one. */
  lemma AveragedEndsStep(s: seq<real>, k: nat)
    requires k < |s| / 2
    ensures var avg := 0.5 * (s[k] + s[|s| - 1 - k]);
      AveragedEnds(s, k)[k := avg][|s| - 1 - k := avg] == AveragedEnds(s, k + 1)
  {
  }

  /** The symmetrised window reads the same from either end. */
  lemma SymmetrizedMirror(s: seq<real>)
    ensures forall i :: 0 <= i < |s| ==> Symmetrized(s)[i] == Symmetrized(s)[|s| - 1 - i]
  {
    var r := Symmetrized(s);
    forall i | 0 <= i < |s|
      ensures r[i] == r[|s| - 1 - i]
    {
      var j := |s| - 1 - i;
      assert s[|s| - 1 - j] == s[i];
    }
  }

  /** The in-place averaging loop. */
  method Symmetrize(out: array<real>)
    modifies out
    ensures out[..] == Symmetrized(old(out[..]))
  {
    ghost var s := out[..];
    var n := out.Length;
    var i := 0;
    assert AveragedEnds(s, 0) == s;
    while i < n / 2
      invariant 0 <= i <= n / 2 && n == |s|
      invariant out[..] == AveragedEnds(s, i)
    {
      assert out[i] == s[i] && out[n - 1 - i] == s[n - 1 - i];
      var avg := 0.5 * (out[i] + out[n - 1 - i]);
      AveragedEndsStep(s, i);
      out[i] := avg;
      out[n - 1 - i] := avg;
      i := i + 1;
    }
  }

  /** Every element divided by `d` with IEEE division. */
  function DividedBy(m: Math, s: seq<real>, d: real): (r: seq<real>)
    ensures |r| == |s| && forall i :: 0 <= i < |s| ==> r[i] == m.fdiv(s[i], d)
  {
    seq(|s|, i requires 0 <= i < |s| => m.fdiv(s[i], d))
  }

  /** Dividing by a positive bound on every element leaves each at most 1, and the elements at the bound at 1. */
  lemma {:induction false} DividedPeak(m: Math, s: seq<real>, mx: real)
    requires Division(m) && mx > 0.0 && forall i :: 0 <= i < |s| ==> s[i] <= mx
    ensures forall i :: 0 <= i < |s| ==> DividedBy(m, s, mx)[i] <= 1.0
    ensures forall i :: 0 <= i < |s| && s[i] == mx ==> DividedBy(m, s, mx)[i] == 1.0
  {
    forall i | 0 <= i < |s|
      ensures DividedBy(m, s, mx)[i] <= 1.0
      ensures s[i] == mx ==> DividedBy(m, s, mx)[i] == 1.0
    {
      DividedAtMostOne(m, s[i], mx);
    }
  }

  /** `fold(f64::NEG_INFINITY, f64::max)` over a non-empty window: its largest element. */
  function MaxOf(s: seq<real>): (r: real)
    requires |s| > 0
    ensures forall i :: 0 <= i < |s| ==> s[i] <= r
  {
    if |s| == 1 then s[0] else MaxR(MaxOf(s[..|s| - 1]), s[|s| - 1])
  }

  /** The maximum of a non-empty window is one of its elements. */
  lemma {:induction false} MaxOfAttained(s: seq<real>)
    requires |s| > 0
    ensures exists i :: 0 <= i < |s| && s[i] == MaxOf(s)
  {
    if |s| > 1 && MaxOf(s) != s[|s| - 1] {
      var init := s[..|s| - 1];
      MaxOfAttained(init);
      var k :| 0 <= k < |init| && init[k] == MaxOf(init);
      assert s[k] == MaxOf(s);
    } else {
      assert s[|s| - 1] == MaxOf(s);
    }
  }

  /** The Dolph-Chebyshev window from the real parts of its inverse DFT: symmetrised, then divided by its maximum. */
  function DolphWindow(m: Math, raw: seq<real>): (r: seq<real>)
    requires |raw| >= 2
    ensures |r| == |raw| && forall i :: 0 <= i < |r| ==> r[i] == r[|r| - 1 - i]
  {
    SymmetrizedMirror(raw);
    var sym := Symmetrized(raw);
    DividedBy(m, sym, MaxOf(sym))
  }

  /** With a positive peak, the Dolph-Chebyshev window peaks at exactly 1. */
  lemma {:induction false} DolphPeakIsOne(m: Math, raw: seq<real>)
    requires Division(m) && |raw| >= 2 && MaxOf(Symmetrized(raw)) > 0.0
    ensures forall i :: 0 <= i < |raw| ==> DolphWindow(m, raw)[i] <= 1.0
    ensures exists i :: 0 <= i < |raw| && DolphWindow(m, raw)[i] == 1.0
  {
    var sym := Symmetrized(raw);
    DividedPeak(m, sym, MaxOf(sym));
    MaxOfAttained(sym);
    var k :| 0 <= k < |sym| && sym[k] == MaxOf(sym);
    assert DolphWindow(m, raw)[k] == 1.0;
  }

  /** The maximum fold of `dolph_chebyshev_window`. */
  method MaxLoop(a: array<real>) returns (mx: real)
    requires a.Length > 0
    ensures mx == MaxOf(a[..])
  {
    mx := a[0];
    var i := 1;
    assert a[..1] == [a[0]];
    while i < a.Length
      invariant 1 <= i <= a.Length
      invariant mx == MaxOf(a[..i])
    {
      assert a[..i + 1][..i] == a[..i];
      mx := MaxR(mx, a[i]);
      i := i + 1;
    }
    assert a[..a.Length] == a[..];
  }

  /** The in-place division loop of `dolph_chebyshev_window`. */
  method DivideLoop(m: Math, a: array<real>, d: real)
    modifies a
    ensures a[..] == DividedBy(m, old(a[..]), d)
  {
    ghost var s := a[..];
    var i := 0;
    while i < a.Length
      invariant 0 <= i <= a.Length
      invariant forall j :: 0 <= j < i ==> a[j] == m.fdiv(s[j], d)
      invariant forall j :: i <= j < a.Length ==> a[j] == s[j]
    {
      a[i] := m.fdiv(a[i], d);
      i := i + 1;
    }
    assert a[..] == DividedBy(m, s, d);
  }

  /**
   * `dolph_chebyshev_window`. `raw` is the real part of the inverse DFT of the Dolph-Chebyshev
   * spectrum for `|raw|` points; both asserts of the source are preconditions.
   */
  method DolphChebyshevWindow(m: Math, raw: seq<real>, attenuationDb: real) returns (out: seq<real>)
    requires |raw| >= 2 && attenuationDb > 0.0
    ensures out == DolphWindow(m, raw)
  {
    var a := new real[|raw|](i requires 0 <= i < |raw| => raw[i]);
    assert a[..] == raw;
    Symmetrize(a);
    var mx := MaxLoop(a);
    DivideLoop(m, a, mx);
    out := a[..];
  }

  /** What `make_window` builds for `size` points; `raw` is used by the Dolph-Chebyshev window only. */
  function Window(m: Math, w: WindowFunction, size: nat, raw: seq<real>): (r: seq<real>)
    requires w.DolphChebyshev? ==> |raw| == size && size >= 2
    ensures |r| == size
  {
    if w.DolphChebyshev? then DolphWindow(m, raw) else Normalized(m, RawWeights(Shape(m, w), size))
  }

  /** Whether `make_window` accepts its arguments: the Dolph-Chebyshev asserts. */
  predicate Accepts(w: WindowFunction, size: nat, raw: seq<real>)
  {
    w.DolphChebyshev? ==> |raw| == size && size >= 2 && w.attenuationDb > 0.0
  }

  /** `make_window`. */
  method MakeWindow(m: Math, w: WindowFunction, size: nat, raw: seq<real>) returns (r: seq<real>)
    requires Accepts(w, size, raw)
    ensures r == Window(m, w, size, raw)
  {
    if w.DolphChebyshev? {
      r := DolphChebyshevWindow(m, raw, w.attenuationDb);
    } else {
      r := BinWeights(m, Shape(m, w), size);
    }
  }

  /** `make_window_32`: the same window, each weight rounded to f32, so the same length. */
  method MakeWindow32(m: Math, w: WindowFunction, size: nat, raw: seq<real>) returns (r: seq<real>)
    requires Accepts(w, size, raw)
    ensures |r| == |Window(m, w, size, raw)| == size
    ensures forall i :: 0 <= i < size ==> r[i] == m.toF32(Window(m, w, size, raw)[i])
  {
    var wide := MakeWindow(m, w, size, raw);
    r := seq(|wide|, i requires 0 <= i < |wide| => m.toF32(wide[i]));
  }
}
