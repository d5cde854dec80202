/**
 * The single Goertzel-style DFT filter. Each sample is multiplied by the conjugate of a rotating
 * phase and pushed into a full ring of `length` terms, dropping the oldest. Every `window_repeat`
 * samples the ring is re-summed under the window weights; in between the previous output is
 * repeated, as a short-time Fourier transform with COLA overlap does.
 */
module Dft {
  import opened Common
  import opened Float
  import Windows
  import Dsp

  datatype Complex = Complex(re: real, im: real)

  const Zero: Complex := Complex(0.0, 0.0)

  function Norm2(c: Complex): (r: real)
    ensures 0.0 <= r
  {
    c.re * c.re + c.im * c.im
  }

  /** The phase multiplied by the rotation per sample. */
  function Rotate(p: Complex, v: Complex): Complex
  {
    Complex(p.re * v.re - p.im * v.im, p.re * v.im + p.im * v.re)
  }

  /** The squared magnitude is multiplicative under rotation. */
  lemma RotateNorm(p: Complex, v: Complex)
    ensures Norm2(Rotate(p, v)) == Norm2(p) * Norm2(v)
  {
    var a, b, c, d := p.re, p.im, v.re, v.im;
    calc {
      Norm2(Rotate(p, v));
      (a * c - b * d) * (a * c - b * d) + (a * d + b * c) * (a * d + b * c);
      (a * a + b * b) * (c * c + d * d);
    }
  }

  /** The Goertzel term of `sample`: the sample times the conjugate phase. */
  function Term(sample: real, phase: Complex): Complex
  {
    Complex(sample * phase.re, -sample * phase.im)
  }

  /** The fold of `process`: the sum of the first `n` terms, each scaled by its window weight. */
  function WindowedSum(terms: seq<Complex>, factors: seq<real>, n: nat): Complex
    requires n <= |terms| && n <= |factors|
  {
    if n == 0 then Zero
    else
      var s := WindowedSum(terms, factors, n - 1);
      Complex(s.re + terms[n - 1].re * factors[n - 1], s.im + terms[n - 1].im * factors[n - 1])
  }

  /** A ring of zero terms sums to zero under any window. */
  lemma {:induction false} ZeroTermsSumToZero(terms: seq<Complex>, factors: seq<real>, n: nat)
    requires n <= |terms| && n <= |factors| && forall i :: 0 <= i < |terms| ==> terms[i] == Zero
    ensures WindowedSum(terms, factors, n) == Zero
  {
    if n > 0 {
      ZeroTermsSumToZero(terms, factors, n - 1);
    }
  }

  /** `2 |sum| / window_norm`, the amplitude reported for a re-summed window. */
  function Amplitude(m: Math, sum: Complex, windowNorm: real): real
  {
    m.fdiv(2.0 * m.sqrt(Norm2(sum)), windowNorm)
  }

  /** With a positive window weight, the amplitude is never negative. */
  lemma AmplitudeNonNegative(m: Math, sum: Complex, windowNorm: real)
    requires Division(m) && SqrtNonNegative(m) && windowNorm > 0.0
    ensures Amplitude(m, sum, windowNorm) >= 0.0
  {
    var s := m.sqrt(Norm2(sum));
    assert s >= 0.0;
    assert m.fdiv(2.0 * s, windowNorm) == 2.0 * s / windowNorm;
  }

  /** The drift correction: the phase divided by its magnitude. */
  function Renormalized(m: Math, p: Complex): Complex
  {
    var n := m.sqrt(Norm2(p));
    Complex(m.fdiv(p.re, n), m.fdiv(p.im, n))
  }

  /** With exact square root and division, a phase of non-zero magnitude comes back on the unit circle. */
  lemma RenormalizedIsUnit(m: Math, p: Complex)
    requires Division(m) && SqrtExact(m) && Norm2(p) > 0.0
    ensures Norm2(Renormalized(m, p)) == 1.0
  {
    var q := Norm2(p);
    var n := m.sqrt(q);
    assert n * n == q && n >= 0.0;
    RootNonZero(n, q);
    var r := Renormalized(m, p);
    assert r.re == p.re / n && r.im == p.im / n;
    UnitScale(p.re, p.im, n);
  }

  lemma RootNonZero(n: real, q: real)
    requires n * n == q && q > 0.0
    ensures n != 0.0
  {
  }

  lemma UnitScale(a: real, b: real, n: real)
    requires n != 0.0 && n * n == a * a + b * b
    ensures (a / n) * (a / n) + (b / n) * (b / n) == 1.0
  {
    var t := 1.0 / n;
    assert a / n == a * t && b / n == b * t;
    calc {
      (a * t) * (a * t) + (b * t) * (b * t);
      (a * a + b * b) * (t * t);
      (n * n) * (t * t);
      (n * t) * (n * t);
      1.0;
    }
  }

  /** The counter after a call that found it at `r`: reset to 0 and then incremented when it hit `wr`. */
  function NextRepeated(r: nat, wr: nat): (n: nat)
    ensures n >= 1
    ensures 1 <= wr && r <= wr ==> n <= wr
  {
    if r == wr then 1 else r + 1
  }

  /** The counter after `k` calls on a fresh filter. */
  function RepeatedAfter(wr: nat, k: nat): nat
  {
    if k == 0 then 0 else NextRepeated(RepeatedAfter(wr, k - 1), wr)
  }

  /** After `k >= 1` calls the counter reads `(k - 1) mod window_repeat + 1`. */
  lemma {:induction false} RepeatedClosedForm(wr: nat, k: nat)
    requires wr >= 1 && k >= 1
    ensures RepeatedAfter(wr, k) == (k - 1) % wr + 1
  {
    if k > 1 {
      RepeatedClosedForm(wr, k - 1);
      ModSucc(k - 2, wr);
    }
  }

  /**
   * The COLA pacing: call number `k` (counting from 1) re-sums the window exactly when `k > 1`
   * and `k - 1` is a multiple of `window_repeat`. The first `window_repeat` calls return the
   * initial 0, and afterwards the output changes once every `window_repeat` calls.
   */
  lemma {:induction false} ResumSchedule(wr: nat, k: nat)
    requires wr >= 1 && k >= 1
    ensures RepeatedAfter(wr, k - 1) == wr <==> k > 1 && (k - 1) % wr == 0
  {
    if k > 1 {
      RepeatedClosedForm(wr, k - 1);
      ModSucc(k - 2, wr);
    }
  }

  /** The summation fold of `process`, over the ring from oldest to newest. */
  method SumWindow(terms: seq<Complex>, factors: seq<real>) returns (sum: Complex)
    requires |terms| == |factors|
    ensures sum == WindowedSum(terms, factors, |terms|)
  {
    sum := Zero;
    var i := 0;
    while i < |terms|
      invariant 0 <= i <= |terms|
      invariant sum == WindowedSum(terms, factors, i)
    {
      sum := Complex(sum.re + terms[i].re * factors[i], sum.im + terms[i].im * factors[i]);
      i := i + 1;
    }
  }

  class Dft {
    const windowChoice: Windows.WindowFunction
    const windowFactors: seq<real>
    const windowNorm: real
    const center: real
    const gain: real
    const velocity: Complex
    const windowRepeat: nat
    var terms: seq<Complex>
    var phase: Complex
    var repeated: nat
    var lastOutput: real

    /** The ring is as long as the window, and the counter never passes the repeat interval. */
    ghost predicate Valid()
      reads this
    {
      && |terms| == |windowFactors|
      && windowRepeat == Windows.Repeat(windowChoice, |windowFactors|)
      && repeated <= windowRepeat
    }

    /** `Dft::new`: `raw` is the inverse-DFT input of the Dolph-Chebyshev window. */
    constructor (m: Math, center: real, sampleRate: real, length: nat, choice: Windows.WindowFunction, raw: seq<real>)
      requires Windows.Accepts(choice, length, raw)
      ensures Valid()
      ensures |windowFactors| == length && |terms| == length
      ensures forall i :: 0 <= i < length ==> windowFactors[i] == m.toF32(Windows.Window(m, choice, length, raw)[i])
      ensures forall i :: 0 <= i < length ==> terms[i] == Zero
      ensures windowNorm == SumR(windowFactors) && windowChoice == choice
      ensures windowRepeat == Windows.Repeat(choice, length)
      ensures repeated == 0 && lastOutput == 0.0 && phase == Complex(1.0, 0.0) && gain == 1.0
      ensures this.center == m.toF32(center)
      ensures velocity == Complex(m.toF32(m.cos(m.fdiv(Tau64 * center, sampleRate))), m.toF32(m.sin(m.fdiv(Tau64 * center, sampleRate))))
    {
      var factors := Windows.MakeWindow32(m, choice, length, raw);
      var scalarVelocity := m.fdiv(Tau64 * center, sampleRate);
      windowChoice := choice;
      windowFactors := factors;
      windowNorm := SumR(factors);
      terms := seq(length, _ => Zero);
      this.center := m.toF32(center);
      gain := 1.0;
      velocity := Complex(m.toF32(m.cos(scalarVelocity)), m.toF32(m.sin(scalarVelocity)));
      windowRepeat := Windows.Repeat(choice, length);
      phase := Complex(1.0, 0.0);
      repeated := 0;
      lastOutput := 0.0;
    }

    /** `length`: the samples needed to fill the window. */
    function Length(): (r: nat)
      reads this
      requires Valid()
      ensures r == |windowFactors| == |terms|
    {
      |windowFactors|
    }

    /**
     * `process`. The oldest term is overwritten by the new one and becomes the newest; the phase
     * advances. When the counter has reached `window_repeat` the window is re-summed over the new
     * ring and the phase is renormalised; otherwise the last output is returned again. The ring's
     * `first_mut().unwrap()` needs a non-empty window.
     */
    method Process(m: Math, sample: real) returns (out: real)
      requires Valid() && |terms| > 0
      modifies this
      ensures Valid()
      ensures terms == old(terms)[1..] + [Term(sample, old(phase))]
      ensures repeated == NextRepeated(old(repeated), windowRepeat)
      ensures 1 <= repeated <= windowRepeat
      ensures old(repeated) == windowRepeat ==>
        && lastOutput == Amplitude(m, WindowedSum(terms, windowFactors, |terms|), windowNorm)
        && phase == Renormalized(m, Rotate(old(phase), velocity))
      ensures old(repeated) != windowRepeat ==>
        lastOutput == old(lastOutput) && phase == Rotate(old(phase), velocity)
      ensures out == lastOutput
    {
      Windows.RepeatPositive(windowChoice, |windowFactors|);
      var term := Term(sample, phase);
      terms := terms[1..] + [term];
      phase := Rotate(phase, velocity);
      if repeated == windowRepeat {
        repeated := 0;
        var sum := SumWindow(terms, windowFactors);
        lastOutput := Amplitude(m, sum, windowNorm);
        phase := Renormalized(m, phase);
      }
      repeated := repeated + 1;
      out := lastOutput;
    }
  }

  /** `from_args`: a window of `ceil(q fs / center)` samples, the cast saturating at zero. */
  function ArgsLength(m: Math, args: Dsp.FilterArgs): (r: nat)
    ensures m.fdiv(args.q * args.fs, args.center) <= r as real
  {
    SaturatingToNat(Ceil(m.fdiv(args.q * args.fs, args.center)))
  }

  /** `Dft::from_args`. */
  method FromArgs(m: Math, args: Dsp.FilterArgs, raw: seq<real>) returns (d: Dft)
    requires Windows.Accepts(args.windowChoice, ArgsLength(m, args), raw)
    ensures fresh(d) && d.Valid() && d.Length() == ArgsLength(m, args) && d.windowChoice == args.windowChoice
  {
    d := new Dft(m, args.center, args.fs, ArgsLength(m, args), args.windowChoice, raw);
  }
}
