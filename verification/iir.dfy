/**
 * The IIR resonators and their cascades. `Biquad`, `Svf` and `CytomicSvf` are second-order
 * sections: two state registers `s1`, `s2` and constant coefficients computed once in f64 and
 * rounded to f32. They are modelled by one class `Sos` whose coefficients say which of the three
 * it is. A `Cascade` feeds each sample through its sections in order and scales by a post gain;
 * its sections may take Butterworth Q ratios and staggered center frequencies.
 */
module Iir {
  import opened Common
  import opened Float
  import Dsp

  datatype Kind = Biquad | Svf | Cytomic

  datatype Coefficients =
    | BiquadCoefficients(a1: real, a2: real, b0: real, b1: real, b2: real)
    | SvfCoefficients(g: real, r: real, h: real)
    | CytomicCoefficients(a1: real, a2: real, a3: real, norm: real)

  function KindOf(c: Coefficients): Kind
  {
    match c
    case BiquadCoefficients(_, _, _, _, _) => Biquad
    case SvfCoefficients(_, _, _) => Svf
    case CytomicCoefficients(_, _, _, _) => Cytomic
  }

  /** The two integrator registers of a section. */
  datatype SosState = SosState(s1: real, s2: real)

  const Rest: SosState := SosState(0.0, 0.0)

  /** `Biquad::new`: the band-pass RBJ design in f64, normalised by `a0` and rounded to f32. */
  function BiquadDesign(m: Math, f0: real, fs: real, q: real): Coefficients
  {
    var w0 := m.fdiv(Tau64 * f0, fs);
    var alpha := m.fdiv(m.sin(w0), 2.0 * q);
    var a0 := 1.0 + alpha;
    BiquadCoefficients(
      m.toF32(m.fdiv(-2.0 * m.cos(w0), a0)), m.toF32(m.fdiv(1.0 - alpha, a0)),
      m.toF32(m.fdiv(alpha, a0)), m.toF32(m.fdiv(0.0, a0)), m.toF32(m.fdiv(-alpha, a0)))
  }

  /** `Svf::new`: the prewarped integrator gain, the damping `1/Q` and the feedback gain. */
  function SvfDesign(m: Math, f0: real, fs: real, q: real): Coefficients
  {
    var g := m.tan(m.fdiv(Pi64 * f0, fs));
    var r := m.fdiv(1.0, q);
    SvfCoefficients(m.toF32(g), m.toF32(r), m.toF32(m.fdiv(1.0, 1.0 + r * g + g * g)))
  }

  /** `CytomicSvf::new`. */
  function CytomicDesign(m: Math, f0: real, fs: real, q: real): Coefficients
  {
    var g := m.tan(m.fdiv(Pi64 * f0, fs));
    var k := m.fdiv(1.0, q);
    var denom := 1.0 + g * (g + k);
    CytomicCoefficients(
      m.toF32(m.fdiv(1.0, denom)), m.toF32(m.fdiv(g, denom)), m.toF32(m.fdiv(g * g, denom)),
      m.toF32(m.fdiv(1.0, q)))
  }

  /** `SoS::new` of each section type. */
  function Design(kind: Kind, m: Math, f0: real, fs: real, q: real): (r: Coefficients)
    ensures KindOf(r) == kind
  {
    match kind
    case Biquad => BiquadDesign(m, f0, fs, q)
    case Svf => SvfDesign(m, f0, fs, q)
    case Cytomic => CytomicDesign(m, f0, fs, q)
  }

  /** `Biquad::process`, transposed direct form II: the output and the new registers. */
  function BiquadStep(a1: real, a2: real, b0: real, b1: real, b2: real, s: SosState, x: real): (r: (real, SosState))
    ensures s == Rest && x == 0.0 ==> r.0 == 0.0 && r.1.s1 == 0.0 && r.1.s2 == 0.0
  {
    var y := b0 * x + s.s1;
    (y, SosState(b1 * x - a1 * y + s.s2, b2 * x - a2 * y))
  }

  /** `Svf::process`: the topology-preserving transform; the band-pass output scaled by `r`. */
  function SvfStep(g: real, r: real, h: real, s: SosState, x: real): (out: (real, SosState))
    ensures s == Rest && x == 0.0 ==> out.0 == 0.0 && out.1.s1 == 0.0 && out.1.s2 == 0.0
  {
    var hp := (x - (r + g) * s.s1 - s.s2) * h;
    var v1 := g * hp;
    var bp := v1 + s.s1;
    var v2 := g * bp;
    var lp := v2 + s.s2;
    (bp * r, SosState(bp + v1, lp + v2))
  }

  /** `CytomicSvf::process`; the fused multiply-adds are exact here. */
  function CytomicStep(a1: real, a2: real, a3: real, norm: real, s: SosState, x: real): (r: (real, SosState))
    ensures s == Rest && x == 0.0 ==> r.0 == 0.0 && r.1.s1 == 0.0 && r.1.s2 == 0.0
  {
    var a2s1 := a2 * s.s1;
    var tmp := a2 * s.s1 + s.s2;
    var v3 := x - tmp + a2s1;
    var v1 := a1 * s.s1 + a2 * v3;
    var v2 := a3 * v3 + tmp;
    (v1 * norm, SosState(2.0 * v1 - s.s1, 2.0 * v2 - s.s2))
  }

  /** One sample through a section of any kind. */
  function Step(c: Coefficients, s: SosState, x: real): (real, SosState)
  {
    match c
    case BiquadCoefficients(a1, a2, b0, b1, b2) => BiquadStep(a1, a2, b0, b1, b2, s, x)
    case SvfCoefficients(g, r, h) => SvfStep(g, r, h, s, x)
    case CytomicCoefficients(a1, a2, a3, norm) => CytomicStep(a1, a2, a3, norm, s, x)
  }

  /**
   * Three successive samples through a biquad obey its difference equation
   * `y[n] = b0 x[n] + b1 x[n-1] + b2 x[n-2] - a1 y[n-1] - a2 y[n-2]`, whatever the registers held.
   */
  lemma BiquadDifferenceEquation(a1: real, a2: real, b0: real, b1: real, b2: real, s: SosState, x0: real, x1: real, x2: real)
    ensures var (y0, t0) := BiquadStep(a1, a2, b0, b1, b2, s, x0);
      var (y1, t1) := BiquadStep(a1, a2, b0, b1, b2, t0, x1);
      var (y2, _) := BiquadStep(a1, a2, b0, b1, b2, t1, x2);
      y2 == b0 * x2 + b1 * x1 + b2 * x0 - a1 * y1 - a2 * y0
  {
  }

  /** The registers `a * s + b * t`. */
  function Mix(a: real, s: SosState, b: real, t: SosState): SosState
  {
    SosState(a * s.s1 + b * t.s1, a * s.s2 + b * t.s2)
  }

  /** The step `mixed` is the mix `a * from_s + b * from_t` of two steps, in output and registers. */
  predicate Superposed(fromS: (real, SosState), fromT: (real, SosState), mixed: (real, SosState), a: real, b: real)
  {
    && mixed.0 == a * fromS.0 + b * fromT.0
    && mixed.1.s1 == a * fromS.1.s1 + b * fromT.1.s1
    && mixed.1.s2 == a * fromS.1.s2 + b * fromT.1.s2
  }

  /** Scaling distributes over a mix, on either side. */
  lemma ScaleMix(k: real, a: real, u: real, b: real, v: real)
    ensures k * (a * u + b * v) == a * (k * u) + b * (k * v)
    ensures (a * u + b * v) * k == a * (u * k) + b * (v * k)
  {
  }

  /** A value known to be a mix, scaled, is the mix of the scaled values. */
  lemma MixScaled(k: real, w: real, a: real, u: real, b: real, v: real)
    requires w == a * u + b * v
    ensures k * w == a * (k * u) + b * (k * v)
  {
    ScaleMix(k, a, u, b, v);
  }

  /** Mixing commutes with sums and differences. */
  lemma MixAdd(a: real, p: real, q: real, b: real, u: real, v: real)
    ensures (a * p + b * u) + (a * q + b * v) == a * (p + q) + b * (u + v)
  {
  }

  lemma MixSub(a: real, p: real, q: real, b: real, u: real, v: real)
    ensures (a * p + b * u) - (a * q + b * v) == a * (p - q) + b * (u - v)
  {
  }

  lemma BiquadLinear(a1: real, a2: real, b0: real, b1: real, b2: real, s: SosState, t: SosState, x: real, y: real, a: real, b: real)
    ensures Superposed(BiquadStep(a1, a2, b0, b1, b2, s, x), BiquadStep(a1, a2, b0, b1, b2, t, y),
      BiquadStep(a1, a2, b0, b1, b2, Mix(a, s, b, t), a * x + b * y), a, b)
  {
    var ys, yt := b0 * x + s.s1, b0 * y + t.s1;
    ScaleMix(b0, a, x, b, y);
    MixAdd(a, b0 * x, s.s1, b, b0 * y, t.s1);
    ScaleMix(b1, a, x, b, y);
    ScaleMix(b2, a, x, b, y);
    ScaleMix(a1, a, ys, b, yt);
    ScaleMix(a2, a, ys, b, yt);
    MixSub(a, b1 * x, a1 * ys, b, b1 * y, a1 * yt);
    MixSub(a, b2 * x, a2 * ys, b, b2 * y, a2 * yt);
    MixAdd(a, b1 * x - a1 * ys, s.s2, b, b1 * y - a1 * yt, t.s2);
  }

  /** The band-pass value of `SvfStep`, written out as a combination of the input and the registers. */
  function SvfBand(g: real, r: real, h: real, s: SosState, x: real): real
  {
    g * h * x + (1.0 - g * h * (r + g)) * s.s1 - g * h * s.s2
  }

  /** `SvfStep` in terms of its band-pass value: the output and both new registers follow from it. */
  lemma SvfClosed(g: real, r: real, h: real, s: SosState, x: real)
    ensures var out, bp := SvfStep(g, r, h, s, x), SvfBand(g, r, h, s, x);
      && out.0 == r * bp
      && out.1.s1 == 2.0 * bp - s.s1
      && out.1.s2 == 2.0 * g * bp + s.s2
  {
  }

  lemma SvfBandLinear(g: real, r: real, h: real, s: SosState, t: SosState, x: real, y: real, a: real, b: real)
    ensures SvfBand(g, r, h, Mix(a, s, b, t), a * x + b * y) == a * SvfBand(g, r, h, s, x) + b * SvfBand(g, r, h, t, y)
  {
  }

  /**
   * Three steps given in the closed form of `SvfClosed` superpose when their band-pass values and
   * registers do.
   */
  lemma SvfSuperposed(g: real, r: real, outS: (real, SosState), outT: (real, SosState), outM: (real, SosState),
                      s: SosState, t: SosState, bs: real, bt: real, bm: real, a: real, b: real)
    requires outS.0 == r * bs && outS.1.s1 == 2.0 * bs - s.s1 && outS.1.s2 == 2.0 * g * bs + s.s2
    requires outT.0 == r * bt && outT.1.s1 == 2.0 * bt - t.s1 && outT.1.s2 == 2.0 * g * bt + t.s2
    requires var m := Mix(a, s, b, t);
      outM.0 == r * bm && outM.1.s1 == 2.0 * bm - m.s1 && outM.1.s2 == 2.0 * g * bm + m.s2
    requires bm == a * bs + b * bt
    ensures Superposed(outS, outT, outM, a, b)
  {
    MixScaled(r, bm, a, bs, b, bt);
    MixScaled(2.0 * g, bm, a, bs, b, bt);
  }

  lemma SvfLinear(g: real, r: real, h: real, s: SosState, t: SosState, x: real, y: real, a: real, b: real)
    ensures Superposed(SvfStep(g, r, h, s, x), SvfStep(g, r, h, t, y), SvfStep(g, r, h, Mix(a, s, b, t), a * x + b * y), a, b)
  {
    var m, z := Mix(a, s, b, t), a * x + b * y;
    SvfClosed(g, r, h, s, x);
    SvfClosed(g, r, h, t, y);
    SvfClosed(g, r, h, m, z);
    SvfBandLinear(g, r, h, s, t, x, y, a, b);
    SvfSuperposed(g, r, SvfStep(g, r, h, s, x), SvfStep(g, r, h, t, y), SvfStep(g, r, h, m, z), s, t,
      SvfBand(g, r, h, s, x), SvfBand(g, r, h, t, y), SvfBand(g, r, h, m, z), a, b);
  }

  lemma CytomicLinear(a1: real, a2: real, a3: real, norm: real, s: SosState, t: SosState, x: real, y: real, a: real, b: real)
    ensures Superposed(CytomicStep(a1, a2, a3, norm, s, x), CytomicStep(a1, a2, a3, norm, t, y),
      CytomicStep(a1, a2, a3, norm, Mix(a, s, b, t), a * x + b * y), a, b)
  {
    ScaleMix(a2, a, s.s1, b, t.s1);
    ScaleMix(a1, a, s.s1, b, t.s1);
    var vs, vt := x - (a2 * s.s1 + s.s2) + a2 * s.s1, y - (a2 * t.s1 + t.s2) + a2 * t.s1;
    ScaleMix(a2, a, vs, b, vt);
    ScaleMix(a3, a, vs, b, vt);
    var v1s, v1t := a1 * s.s1 + a2 * vs, a1 * t.s1 + a2 * vt;
    ScaleMix(norm, a, v1s, b, v1t);
  }

  /**
   * Every section is linear: from mixed registers, a mixed input gives the same mix of the two
   * outputs and of the two new register pairs.
   */
  lemma StepLinear(c: Coefficients, s: SosState, t: SosState, x: real, y: real, a: real, b: real)
    ensures Superposed(Step(c, s, x), Step(c, t, y), Step(c, Mix(a, s, b, t), a * x + b * y), a, b)
  {
    match c
    case BiquadCoefficients(a1, a2, b0, b1, b2) => BiquadLinear(a1, a2, b0, b1, b2, s, t, x, y, a, b);
    case SvfCoefficients(g, r, h) => SvfLinear(g, r, h, s, t, x, y, a, b);
    case CytomicCoefficients(a1, a2, a3, norm) => CytomicLinear(a1, a2, a3, norm, s, t, x, y, a, b);
  }

  /** A section at rest stays at rest on silence and outputs silence. */
  lemma StepAtRest(c: Coefficients)
    ensures Step(c, Rest, 0.0) == (0.0, Rest)
  {
  }

  /** `Biquad`, `Svf` or `CytomicSvf`: constant coefficients and two registers updated per sample. */
  class Sos {
    const coeffs: Coefficients
    var s1: real
    var s2: real

    function State(): SosState
      reads this
    {
      SosState(s1, s2)
    }

    /** `SoS::new`: the registers start at rest. */
    constructor (kind: Kind, m: Math, f0: real, fs: real, q: real)
      ensures coeffs == Design(kind, m, f0, fs, q) && State() == Rest
    {
      coeffs := Design(kind, m, f0, fs, q);
      s1 := 0.0;
      s2 := 0.0;
    }

    /** `Filter::process`: each sample goes to the `process` of the section's type. */
    method Process(x: real) returns (y: real)
      modifies this
      ensures y == Step(coeffs, old(State()), x).0 && State() == Step(coeffs, old(State()), x).1
    {
      match coeffs
      case BiquadCoefficients(_, _, _, _, _) => y := ProcessBiquad(x);
      case SvfCoefficients(_, _, _) => y := ProcessSvf(x);
      case CytomicCoefficients(_, _, _, _) => y := ProcessCytomic(x);
    }

    /** `Biquad::process`. */
    method ProcessBiquad(x: real) returns (y: real)
      requires coeffs.BiquadCoefficients?
      modifies this
      ensures (y, State()) == BiquadStep(coeffs.a1, coeffs.a2, coeffs.b0, coeffs.b1, coeffs.b2, old(State()), x)
    {
      ghost var before := State();
      var a1, a2, b0, b1, b2 := coeffs.a1, coeffs.a2, coeffs.b0, coeffs.b1, coeffs.b2;
      y := b0 * x + s1;
      s1 := b1 * x - a1 * y + s2;
      s2 := b2 * x - a2 * y;
      ghost var r := BiquadStep(a1, a2, b0, b1, b2, before, x);
      assert y == r.0 && State() == r.1;
    }

    /** `Svf::process`. */
    method ProcessSvf(x: real) returns (y: real)
      requires coeffs.SvfCoefficients?
      modifies this
      ensures (y, State()) == SvfStep(coeffs.g, coeffs.r, coeffs.h, old(State()), x)
    {
      ghost var before := State();
      var g, r, h := coeffs.g, coeffs.r, coeffs.h;
      var hp := (x - (r + g) * s1 - s2) * h;
      var v1 := g * hp;
      var bp := v1 + s1;
      s1 := bp + v1;
      var v2 := g * bp;
      var lp := v2 + s2;
      s2 := lp + v2;
      y := bp * r;
      ghost var step := SvfStep(g, r, h, before, x);
      assert y == step.0 && State() == step.1;
    }

    /** `CytomicSvf::process`. */
    method ProcessCytomic(x: real) returns (y: real)
      requires coeffs.CytomicCoefficients?
      modifies this
      ensures (y, State()) == CytomicStep(coeffs.a1, coeffs.a2, coeffs.a3, coeffs.norm, old(State()), x)
    {
      ghost var before := State();
      var a1, a2, a3, norm := coeffs.a1, coeffs.a2, coeffs.a3, coeffs.norm;
      var a2s1 := a2 * s1;
      var tmp := a2 * s1 + s2;
      var v3 := x - tmp + a2s1;
      var v1 := a1 * s1 + a2 * v3;
      var v2 := a3 * v3 + tmp;
      s1 := 2.0 * v1 - s1;
      s2 := 2.0 * v2 - s2;
      y := v1 * norm;
      ghost var r := CytomicStep(a1, a2, a3, norm, before, x);
      assert y == r.0 && State() == r.1;
    }
  }

  /** `Filter::from_args` of a single section: the arguments' center, rate and Q. */
  method SosFromArgs(m: Math, kind: Kind, args: Dsp.FilterArgs) returns (s: Sos)
    ensures fresh(s) && s.coeffs == Design(kind, m, args.center, args.fs, args.q) && s.State() == Rest
  {
    s := new Sos(kind, m, args.center, args.fs, args.q);
  }

  /** The first `n` sections run in order on `x`: the last output and the new registers. */
  function RunPrefix(cs: seq<Coefficients>, ss: seq<SosState>, x: real, n: nat): (r: (real, seq<SosState>))
    requires n <= |cs| && n <= |ss|
    ensures |r.1| == n
  {
    if n == 0 then (x, [])
    else
      var prev := RunPrefix(cs, ss, x, n - 1);
      var next := Step(cs[n - 1], ss[n - 1], prev.0);
      (next.0, prev.1 + [next.1])
  }

  function Run(cs: seq<Coefficients>, ss: seq<SosState>, x: real): (r: (real, seq<SosState>))
    requires |cs| == |ss|
    ensures |r.1| == |cs|
  {
    RunPrefix(cs, ss, x, |cs|)
  }

  predicate AllAtRest(ss: seq<SosState>)
  {
    forall i :: 0 <= i < |ss| ==> ss[i] == Rest
  }

  /** A cascade at rest stays at rest on silence and outputs silence. */
  lemma {:induction false} RunAtRest(cs: seq<Coefficients>, ss: seq<SosState>, n: nat)
    requires n <= |cs| && n <= |ss| && AllAtRest(ss)
    ensures RunPrefix(cs, ss, 0.0, n).0 == 0.0 && AllAtRest(RunPrefix(cs, ss, 0.0, n).1)
  {
    if n > 0 {
      RunAtRest(cs, ss, n - 1);
      StepAtRest(cs[n - 1]);
    }
  }

  /** The angle of Butterworth pole `k` of an `order`-th order filter, `(2k + 1) pi / (2 order)`. */
  function Theta(m: Math, order: nat, k: nat): real
  {
    m.fdiv((2.0 * k as real + 1.0) * Pi64, 2.0 * order as real)
  }

  /** The Q of the section for pole `k`, `1 / (2 sin theta)`. */
  function PoleQ(m: Math, order: nat, k: nat): real
  {
    m.fdiv(1.0, 2.0 * m.sin(Theta(m, order, k)))
  }

  /** `butterworth_q_factors`: one Q per section, poles taken from the last to the first. Odd orders panic. */
  function ButterworthQFactors(m: Math, order: nat): (r: seq<real>)
    requires order % 2 == 0
    ensures |r| == order / 2
  {
    seq(order / 2, i requires 0 <= i < order / 2 => PoleQ(m, order, order / 2 - 1 - i))
  }

  /** Entry `i` belongs to pole `order/2 - 1 - i`: the poles are listed from the last to the first. */
  lemma ButterworthQAt(m: Math, order: nat, i: nat)
    requires order % 2 == 0 && i < order / 2
    ensures ButterworthQFactors(m, order)[i] == PoleQ(m, order, order / 2 - 1 - i)
  {
  }

  /** Pole angles grow with `k` and stay inside `(0, pi/2)`. */
  lemma ThetaBounds(m: Math, order: nat, k: nat, k': nat)
    requires Division(m) && order % 2 == 0 && k <= k' < order / 2
    ensures 0.0 < Theta(m, order, k) <= Theta(m, order, k') < Pi64 / 2.0
    ensures k < k' ==> Theta(m, order, k) < Theta(m, order, k')
  {
    var d := 2.0 * order as real;
    var c, c' := 2.0 * k as real + 1.0, 2.0 * k' as real + 1.0;
    assert 2.0 * c' < d;
    ScaledFractions(c, c', d, Pi64);
  }

  /** For `0 < c <= c'` with `2 c' < d`, the fractions `c p / d <= c' p / d` of a positive `p` lie in `(0, p / 2)`. */
  lemma ScaledFractions(c: real, c': real, d: real, p: real)
    requires 0.0 < c <= c' && 2.0 * c' < d && 0.0 < p
    ensures 0.0 < c * p / d <= c' * p / d < p / 2.0
    ensures c < c' ==> c * p / d < c' * p / d
  {
    var t, t' := c * p / d, c' * p / d;
    assert t * d == c * p && t' * d == c' * p;
    assert c * p <= c' * p;
    assert 2.0 * c' * p < d * p;
    assert 0.0 < t by { assert t * d > 0.0; }
    assert t <= t' by { assert (t' - t) * d >= 0.0; }
    assert t' < p / 2.0 by { assert (p / 2.0 - t') * d > 0.0; }
    if c < c' {
      assert (t' - t) * d > 0.0;
    }
  }

  lemma HalfInverseAntitone(a: real, b: real)
    requires 0.0 < a < b
    ensures 1.0 / (2.0 * b) < 1.0 / (2.0 * a) && 0.0 < 1.0 / (2.0 * b)
  {
    assert 2.0 * a * (1.0 / (2.0 * a)) == 1.0;
    assert 2.0 * b * (1.0 / (2.0 * b)) == 1.0;
  }

  /**
   * The Butterworth Qs are positive and strictly ascending, as the factors checked for orders 6
   * and 8 are: later entries belong to poles closer to the real axis.
   */
  lemma ButterworthAscending(m: Math, order: nat, i: nat, j: nat)
    requires Division(m) && SinRising(m) && order % 2 == 0 && i < j < order / 2
    ensures 0.0 < ButterworthQFactors(m, order)[i] < ButterworthQFactors(m, order)[j]
  {
    var n := order / 2;
    var ki, kj := n - 1 - i, n - 1 - j;
    ButterworthQAt(m, order, i);
    ButterworthQAt(m, order, j);
    ThetaBounds(m, order, kj, ki);
    var ti, tj := Theta(m, order, ki), Theta(m, order, kj);
    assert 0.0 < m.sin(tj) < m.sin(ti) < m.sin(Pi64 / 2.0);
    HalfInverseAntitone(m.sin(tj), m.sin(ti));
  }

  lemma ButterworthPositive(m: Math, order: nat, i: nat)
    requires Division(m) && SinRising(m) && order % 2 == 0 && i < order / 2
    ensures 0.0 < ButterworthQFactors(m, order)[i]
  {
    var k := order / 2 - 1 - i;
    ButterworthQAt(m, order, i);
    ThetaBounds(m, order, k, k);
    var t, half := Theta(m, order, k), Pi64 / 2.0;
    assert 0.0 < t < half;
    assert 0.0 < m.sin(t) < m.sin(half);
    assert 2.0 * m.sin(t) > 0.0;
  }

  lemma {:induction false} SumPositive(s: seq<real>)
    requires |s| > 0 && forall i :: 0 <= i < |s| ==> 0.0 < s[i]
    ensures 0.0 < SumR(s)
  {
    if |s| > 1 {
      SumPositive(s[..|s| - 1]);
    }
  }

  /**
   * Whether factor `i` of a stagger list over `count` Butterworth Qs is pushed below the center
   * (`exp2(-b log2 scale)`): the even entries when `count` is even, the odd ones otherwise.
   */
  predicate Shrinks(count: nat, i: nat)
  {
    (i % 2 == 0 && count % 2 == 0) || (i % 2 == 1 && count % 2 != 0)
  }

  /** The Butterworth Qs a cascade of `stages` sections staggers by: those of order `2 (stages - 1)`. */
  function StaggerButters(m: Math, stages: nat): (r: seq<real>)
    requires stages >= 1
    ensures |r| == stages - 1
  {
    ButterworthQFactors(m, (stages - 1) * 2)
  }

  /** The exponent of stagger factor `i`: its share `b` of the Qs, times `log2(scale)`, signed. */
  function StaggerExponent(butters: seq<real>, butterNorm: real, logScale: real, i: nat): real
    requires i < |butters|
  {
    var b := butters[i] * butterNorm;
    if Shrinks(|butters|, i) then -b * logScale else b * logScale
  }

  /** The factors in the order `stagger_factors` pushes them, before the final reverse. */
  function Pushed(m: Math, stages: nat, scale: real): (r: seq<real>)
    requires stages >= 1
    ensures |r| == stages - 1
  {
    seq(stages - 1, i requires 0 <= i < stages - 1 => m.exp2(PushedExponent(m, stages, scale, i)))
  }

  /** The exponent of pushed factor `i`, with `stagger_factors`' own Qs, normalisation and scale. */
  function PushedExponent(m: Math, stages: nat, scale: real, i: nat): real
    requires stages >= 1 && i < stages - 1
  {
    var butters := StaggerButters(m, stages);
    StaggerExponent(butters, m.fdiv(1.0, SumR(butters)), m.log2(scale), i)
  }

  function Reverse(s: seq<real>): (r: seq<real>)
    ensures |r| == |s| && forall i :: 0 <= i < |s| ==> r[i] == s[|s| - 1 - i]
  {
    if s == [] then [] else Reverse(s[1..]) + [s[0]]
  }

  /**
   * `stagger_factors`: `stages - 1` factors, none for a single stage, in reverse push order.
   * `stages - 1` underflows for zero stages.
   */
  method StaggerFactors(m: Math, stages: nat, scale: real) returns (factors: seq<real>)
    requires stages >= 1
    ensures factors == Reverse(Pushed(m, stages, scale))
    ensures |factors| == stages - 1
  {
    if stages == 1 {
      return [];
    }
    var logScale := m.log2(scale);
    var butters := StaggerButters(m, stages);
    var butterNorm := m.fdiv(1.0, SumR(butters));
    factors := [];
    var i := 0;
    while i < stages - 1
      invariant 0 <= i <= stages - 1
      invariant factors == Pushed(m, stages, scale)[..i]
    {
      var b := butters[i] * butterNorm;
      var even := |butters| % 2 == 0;
      var factor;
      if (i % 2 == 0 && even) || (i % 2 == 1 && !even) {
        factor := m.exp2(-b * logScale);
      } else {
        factor := m.exp2(b * logScale);
      }
      assert Shrinks(|butters|, i) == ((i % 2 == 0 && even) || (i % 2 == 1 && !even));
      assert StaggerExponent(butters, butterNorm, logScale, i) == if Shrinks(|butters|, i) then -b * logScale else b * logScale;
      assert factor == m.exp2(StaggerExponent(butters, butterNorm, logScale, i));
      assert PushedExponent(m, stages, scale, i) == StaggerExponent(butters, butterNorm, logScale, i);
      assert Pushed(m, stages, scale)[i] == factor;
      assert Pushed(m, stages, scale)[..i + 1] == Pushed(m, stages, scale)[..i] + [factor];
      factors := factors + [factor];
      i := i + 1;
    }
    factors := Reverse(factors);
  }

  /**
   * The returned factors alternate around the center, starting above it: consecutive entries
   * take opposite signs of exponent, and the first returned (last pushed) one grows.
   */
  lemma StaggerAlternates(stages: nat, i: nat)
    requires stages >= 2 && i < stages - 1
    ensures !Shrinks(stages - 1, stages - 2)
    ensures i + 1 < stages - 1 ==> (Shrinks(stages - 1, i) <==> !Shrinks(stages - 1, i + 1))
  {
  }

  lemma MulLess(a: real, b: real, c: real)
    requires 0.0 < a < b && 0.0 < c
    ensures 0.0 < a * c < b * c
  {
  }

  lemma MulPositive(a: real, b: real)
    requires 0.0 < a && 0.0 < b
    ensures 0.0 < a * b
  {
  }

  /** With positive Qs, norm and log scale, the exponent is negative exactly for the shrinking entries. */
  lemma ExponentSign(butters: seq<real>, norm: real, ls: real, i: nat)
    requires i < |butters| && 0.0 < butters[i] && 0.0 < norm && 0.0 < ls
    ensures Shrinks(|butters|, i) ==> StaggerExponent(butters, norm, ls, i) < 0.0
    ensures !Shrinks(|butters|, i) ==> StaggerExponent(butters, norm, ls, i) > 0.0
    ensures AbsR(StaggerExponent(butters, norm, ls, i)) == butters[i] * norm * ls
  {
    var b := butters[i] * norm;
    MulPositive(butters[i], norm);
    MulPositive(b, ls);
  }

  /** Larger positive Qs give exponents of larger magnitude, and none is zero. */
  lemma ExponentsOrdered(butters: seq<real>, norm: real, ls: real, i: nat, j: nat)
    requires i < j < |butters| && 0.0 < butters[i] < butters[j] && 0.0 < norm && 0.0 < ls
    ensures 0.0 < AbsR(StaggerExponent(butters, norm, ls, i)) < AbsR(StaggerExponent(butters, norm, ls, j))
  {
    ExponentSign(butters, norm, ls, i);
    ExponentSign(butters, norm, ls, j);
    MulLess(butters[i], butters[j], norm);
    MulLess(butters[i] * norm, butters[j] * norm, ls);
  }

  /** The Qs `stagger_factors` uses are positive, and so is their normalisation `1 / sum`. */
  lemma StaggerButtersPositive(m: Math, stages: nat)
    requires Division(m) && SinRising(m) && stages >= 2
    ensures forall k :: 0 <= k < stages - 1 ==> 0.0 < StaggerButters(m, stages)[k]
    ensures 0.0 < m.fdiv(1.0, SumR(StaggerButters(m, stages)))
  {
    var order := (stages - 1) * 2;
    var butters := StaggerButters(m, stages);
    assert order % 2 == 0 && order / 2 == stages - 1;
    forall k | 0 <= k < stages - 1
      ensures 0.0 < butters[k]
    {
      ButterworthPositive(m, order, k);
    }
    SumPositive(butters);
    assert m.fdiv(1.0, SumR(butters)) == 1.0 / SumR(butters);
  }

  /**
   * "Staggers begin large and get small": for `scale > 1` the exponent magnitudes strictly grow
   * in push order, so they shrink along the returned list, and none is zero.
   */
  lemma StaggerMagnitudes(m: Math, stages: nat, scale: real, i: nat, j: nat)
    requires Division(m) && SinRising(m) && Log2PositiveAboveOne(m) && scale > 1.0
    requires stages >= 2 && i < j < stages - 1
    ensures 0.0 < AbsR(PushedExponent(m, stages, scale, i)) < AbsR(PushedExponent(m, stages, scale, j))
  {
    var order := (stages - 1) * 2;
    assert order % 2 == 0 && order / 2 == stages - 1;
    var butters := StaggerButters(m, stages);
    StaggerButtersPositive(m, stages);
    ButterworthAscending(m, order, i, j);
    var norm, ls := m.fdiv(1.0, SumR(butters)), m.log2(scale);
    assert ButterworthQFactors(m, order) == butters;
    assert 0.0 < butters[i] < butters[j];
    assert 0.0 < norm && 0.0 < ls;
    ExponentsOrdered(butters, norm, ls, i, j);
    assert PushedExponent(m, stages, scale, i) == StaggerExponent(butters, norm, ls, i);
    assert PushedExponent(m, stages, scale, j) == StaggerExponent(butters, norm, ls, j);
  }

  /** With `exp2` increasing and `exp2(0) == 1`, a factor lies below the center exactly when it shrinks. */
  lemma StaggerSides(m: Math, stages: nat, scale: real, i: nat)
    requires Division(m) && SinRising(m) && Log2PositiveAboveOne(m) && Exp2Increasing(m) && m.exp2(0.0) == 1.0
    requires scale > 1.0 && stages >= 2 && i < stages - 1
    ensures Pushed(m, stages, scale)[i] < 1.0 <==> Shrinks(stages - 1, i)
    ensures Pushed(m, stages, scale)[i] > 1.0 <==> !Shrinks(stages - 1, i)
  {
    var butters := StaggerButters(m, stages);
    StaggerButtersPositive(m, stages);
    ExponentSign(butters, m.fdiv(1.0, SumR(butters)), m.log2(scale), i);
    var e := PushedExponent(m, stages, scale, i);
    assert Pushed(m, stages, scale)[i] == m.exp2(e);
    if Shrinks(stages - 1, i) {
      assert m.exp2(e) < m.exp2(0.0);
    } else {
      assert m.exp2(0.0) < m.exp2(e);
    }
  }

  /**
   * What the `pop` of the `from_args` closure yields for each of `n` stages: the top of `stack`
   * while it lasts, then nothing; without a stack, nothing at all.
   */
  function Pops(stack: Option<seq<real>>, n: nat): (r: seq<Option<real>>)
    ensures |r| == n
    decreases n
  {
    if n == 0 then []
    else if stack.Some? && |stack.value| > 0 then
      [Some(stack.value[|stack.value| - 1])] + Pops(Some(stack.value[..|stack.value| - 1]), n - 1)
    else [None] + Pops(stack, n - 1)
  }

  /** Popping hands out the stack from its top: stage `k` takes entry `|s| - 1 - k` while there is one. */
  lemma {:induction false} PopsFromTop(s: seq<real>, n: nat, k: nat)
    requires k < n
    ensures Pops(Some(s), n)[k] == if k < |s| then Some(s[|s| - 1 - k]) else None
  {
    if k > 0 {
      if |s| > 0 {
        PopsFromTop(s[..|s| - 1], n - 1, k - 1);
      } else {
        PopsFromTop(s, n - 1, k - 1);
      }
    }
  }

  /** Without staggers nothing is ever popped. */
  lemma {:induction false} PopsWithoutStack(n: nat, k: nat)
    requires k < n
    ensures Pops(None, n)[k] == None
  {
    if k > 0 {
      PopsWithoutStack(n - 1, k - 1);
    }
  }

  /** The staggers `from_args` starts from, if any. */
  function InitialStaggers(m: Math, args: Dsp.FilterArgs): Option<seq<real>>
    requires args.stagger.Some? ==> args.stages >= 1
  {
    if args.stagger.Some? then Some(Reverse(Pushed(m, args.stages, args.stagger.value))) else None
  }

  /** A stage's center: `center` times the stagger popped for it, or `center` when none is. */
  function CenterFrom(center: real, popped: Option<real>): real
  {
    if popped.Some? then center * popped.value else center
  }

  /** The center of stage `i`: `center` times the stagger popped for it, or `center` when none is. */
  function StageCenter(m: Math, args: Dsp.FilterArgs, i: nat): real
    requires args.stagger.Some? ==> args.stages >= 1
    requires i < args.stages
  {
    CenterFrom(args.center, Pops(InitialStaggers(m, args), args.stages)[i])
  }

  /**
   * Stage `i` is detuned by the `i`-th pushed factor; the final stage, for which no stagger is
   * left, is at the true center.
   */
  lemma StaggeredCenters(m: Math, args: Dsp.FilterArgs, i: nat)
    requires args.stagger.Some? && args.stages >= 1 && i < args.stages
    ensures i < args.stages - 1 ==> StageCenter(m, args, i) == args.center * Pushed(m, args.stages, args.stagger.value)[i]
    ensures i == args.stages - 1 ==> StageCenter(m, args, i) == args.center
  {
    var p := Pushed(m, args.stages, args.stagger.value);
    PopsFromTop(Reverse(p), args.stages, i);
  }

  /** The final stage is always at the true center, with or without staggers. */
  lemma FinalStageAtCenter(m: Math, args: Dsp.FilterArgs)
    requires args.stages >= 1
    ensures StageCenter(m, args, args.stages - 1) == args.center
  {
    if args.stagger.Some? {
      StaggeredCenters(m, args, args.stages - 1);
    } else {
      PopsWithoutStack(args.stages, args.stages - 1);
    }
  }

  /** Without staggers every stage is at the true center. */
  lemma UnstaggeredCenters(m: Math, args: Dsp.FilterArgs)
    requires args.stagger.None?
    ensures forall i :: 0 <= i < args.stages ==> StageCenter(m, args, i) == args.center
  {
    forall i | 0 <= i < args.stages
      ensures StageCenter(m, args, i) == args.center
    {
      PopsWithoutStack(args.stages, i);
    }
  }

  /** `sqrt(1 / stages)`, the Q normalisation across the cascade. */
  function QNorm(m: Math, stages: nat): real
  {
    m.sqrt(m.fdiv(1.0, stages as real))
  }

  /** A stage's Q: `q` normalised by `qNorm`, times the stage's Butterworth ratio when asked for. */
  function QFrom(q: real, butterworth: bool, bqfs: seq<real>, qNorm: real, i: nat): real
    requires butterworth ==> i < |bqfs|
  {
    if butterworth then q * (bqfs[i] * qNorm) else q * qNorm
  }

  /** The Q of stage `i`: the arguments' Q, normalised, times the Butterworth ratio when asked for. */
  function StageQ(m: Math, args: Dsp.FilterArgs, i: nat): real
    requires i < args.stages
  {
    QFrom(args.q, args.butterworth, ButterworthQFactors(m, args.stages * 2), QNorm(m, args.stages), i)
  }

  /** With Butterworth ratios and a positive Q, later stages have strictly higher Q. */
  lemma StageQAscending(m: Math, args: Dsp.FilterArgs, i: nat, j: nat)
    requires Division(m) && SinRising(m) && SqrtExact(m)
    requires args.butterworth && args.q > 0.0 && i < j < args.stages
    ensures 0.0 < StageQ(m, args, i) < StageQ(m, args, j)
  {
    var order := args.stages * 2;
    assert order % 2 == 0 && order / 2 == args.stages;
    ButterworthAscending(m, order, i, j);
    var n := QNorm(m, args.stages);
    var x := m.fdiv(1.0, args.stages as real);
    assert x == 1.0 / args.stages as real && x > 0.0;
    assert n * n == x && n >= 0.0;
    assert n > 0.0;
    var bs := ButterworthQFactors(m, order);
    assert 0.0 < bs[i] * n < bs[j] * n;
    assert args.q * (bs[i] * n) < args.q * (bs[j] * n);
  }

  predicate Distinct(stages: seq<Sos>)
  {
    forall i, j :: 0 <= i < j < |stages| ==> stages[i] != stages[j]
  }

  /** The `pop` of the `from_args` closure: the top of the stack, if there is a non-empty one. */
  method PopStagger(staggers: Option<seq<real>>, ghost n: nat) returns (popped: Option<real>, rest: Option<seq<real>>)
    requires n >= 1
    ensures Pops(staggers, n) == [popped] + Pops(rest, n - 1)
  {
    popped, rest := None, staggers;
    if staggers.Some? {
      var stack := staggers.value;
      if |stack| > 0 {
        popped := Some(stack[|stack| - 1]);
        rest := Some(stack[..|stack| - 1]);
      }
    }
  }

  /**
   * The centers and Qs the `from_args` closure computes, stage by stage: the staggers are pushed
   * once and then popped, one per stage, while they last.
   */
  method StageParameterLists(m: Math, args: Dsp.FilterArgs) returns (centers: seq<real>, qs: seq<real>)
    requires args.stagger.Some? ==> args.stages >= 1
    ensures |centers| == args.stages && |qs| == args.stages
    ensures forall i :: 0 <= i < args.stages ==> centers[i] == StageCenter(m, args, i) && qs[i] == StageQ(m, args, i)
  {
    var bqfs := ButterworthQFactors(m, args.stages * 2);
    var staggers: Option<seq<real>> := None;
    if args.stagger.Some? {
      var factors := StaggerFactors(m, args.stages, args.stagger.value);
      staggers := Some(factors);
    }
    var qNorm := m.sqrt(m.fdiv(1.0, args.stages as real));
    ghost var all := Pops(InitialStaggers(m, args), args.stages);
    centers, qs := CollectStageParameters(args.center, args.q, args.butterworth, args.stages, bqfs, qNorm, staggers, all);
  }

  /** The loop of the `from_args` closure, on the values it reads. */
  method CollectStageParameters(center: real, q: real, butterworth: bool, stages: nat, bqfs: seq<real>, qNorm: real,
                                staggers: Option<seq<real>>, ghost all: seq<Option<real>>) returns (centers: seq<real>, qs: seq<real>)
    requires |bqfs| == stages && all == Pops(staggers, stages)
    ensures |centers| == stages && |qs| == stages
    ensures forall i :: 0 <= i < stages ==> centers[i] == CenterFrom(center, all[i]) && qs[i] == QFrom(q, butterworth, bqfs, qNorm, i)
  {
    var rest := staggers;
    centers, qs := [], [];
    var i := 0;
    while i < stages
      invariant 0 <= i <= stages && |centers| == i && |qs| == i
      invariant forall j :: 0 <= j < i ==> centers[j] == CenterFrom(center, all[j]) && qs[j] == QFrom(q, butterworth, bqfs, qNorm, j)
      invariant Pops(rest, stages - i) == all[i..]
    {
      var popped;
      popped, rest := PopStagger(rest, stages - i);
      assert all[i] == popped && all[i + 1..] == Pops(rest, stages - i - 1);
      var f0 := if popped.Some? then center * popped.value else center;
      var stageQ := if butterworth then q * (bqfs[i] * qNorm) else q * qNorm;
      centers, qs := centers + [f0], qs + [stageQ];
      i := i + 1;
    }
  }

  /** One round of the `from_args` loop: a new section at rest, at the next center and Q. */
  method PushStage(m: Math, kind: Kind, fs: real, centers: seq<real>, qs: seq<real>, stages: seq<Sos>) returns (more: seq<Sos>)
    requires |centers| == |qs| && |stages| < |centers| && Distinct(stages)
    requires forall j :: 0 <= j < |stages| ==> stages[j].coeffs == Design(kind, m, centers[j], fs, qs[j])
    ensures |more| == |stages| + 1 && more == stages + [more[|stages|]] && fresh(more[|stages|]) && Distinct(more)
    ensures more[|stages|].State() == Rest
    ensures forall j :: 0 <= j < |more| ==> more[j].coeffs == Design(kind, m, centers[j], fs, qs[j])
  {
    var i := |stages|;
    var stage := new Sos(kind, m, centers[i], fs, qs[i]);
    more := stages + [stage];
  }

  /**
   * The section loop of `Cascade::from_args`: one new section at rest per pair of center and Q,
   * in order.
   */
  method BuildStages(m: Math, kind: Kind, fs: real, centers: seq<real>, qs: seq<real>) returns (stages: seq<Sos>)
    requires |centers| == |qs|
    ensures |stages| == |centers| && Distinct(stages)
    ensures forall i :: 0 <= i < |stages| ==> fresh(stages[i]) && stages[i].State() == Rest
    ensures forall i :: 0 <= i < |stages| ==> stages[i].coeffs == Design(kind, m, centers[i], fs, qs[i])
  {
    stages := [];
    var i := 0;
    while i < |centers|
      invariant 0 <= i <= |centers| && |stages| == i && Distinct(stages)
      invariant forall j :: 0 <= j < i ==> fresh(stages[j]) && stages[j].State() == Rest
      invariant forall j :: 0 <= j < i ==> stages[j].coeffs == Design(kind, m, centers[j], fs, qs[j])
    {
      stages := PushStage(m, kind, fs, centers, qs, stages);
      i := i + 1;
    }
  }

  /** A sample scaled by a gain. */
  function Gained(x: real, gain: real): real
  {
    x * gain
  }

  /** `Cascade<T>`: the sections of one kind, the arguments they were built from and the post gain. */
  class Cascade {
    const kind: Kind
    const stages: seq<Sos>
    const args: Dsp.FilterArgs
    const postGain: real

    /** The sections are distinct objects of the cascade's kind. */
    predicate Valid()
    {
      Distinct(stages) && forall i :: 0 <= i < |stages| ==> KindOf(stages[i].coeffs) == kind
    }

    function Coeffs(): (r: seq<Coefficients>)
      ensures |r| == |stages| && forall i :: 0 <= i < |stages| ==> r[i] == stages[i].coeffs
    {
      seq(|stages|, i requires 0 <= i < |stages| => stages[i].coeffs)
    }

    ghost function States(): (r: seq<SosState>)
      reads stages
      ensures |r| == |stages| && forall i :: 0 <= i < |stages| ==> r[i] == stages[i].State()
    {
      seq(|stages|, i requires 0 <= i < |stages| reads stages => stages[i].State())
    }

    /**
     * `Cascade::from_args`: exactly `args.stages` sections at rest, each at its stage's center
     * and Q, and a post gain of `gain_factor` rounded to f32.
     */
    constructor (m: Math, kind: Kind, args: Dsp.FilterArgs)
      requires args.stagger.Some? ==> args.stages >= 1
      ensures Valid() && this.kind == kind && this.args == args
      ensures |stages| == args.stages && postGain == m.toF32(args.gainFactor)
      ensures forall i :: 0 <= i < |stages| ==> fresh(stages[i]) && stages[i].State() == Rest
      ensures forall i :: 0 <= i < |stages| ==>
        stages[i].coeffs == Design(kind, m, StageCenter(m, args, i), args.fs, StageQ(m, args, i))
    {
      var centers, qs := StageParameterLists(m, args);
      var built := BuildStages(m, kind, args.fs, centers, qs);
      this.kind := kind;
      stages := built;
      this.args := args;
      postGain := m.toF32(args.gainFactor);
    }

    /** One section of `Cascade::process`: section `i` takes the output of the ones before it. */
    method Advance(i: nat, x: real, ghost before: seq<SosState>, ghost sample: real, ghost run: (real, seq<SosState>))
        returns (y: real, ghost next: (real, seq<SosState>))
      requires Valid() && i < |stages| && |before| == |stages|
      requires run == RunPrefix(Coeffs(), before, sample, i) && x == run.0
      requires forall j :: 0 <= j < i ==> stages[j].State() == run.1[j]
      requires forall j :: i <= j < |stages| ==> stages[j].State() == before[j]
      modifies stages[i]
      ensures next == RunPrefix(Coeffs(), before, sample, i + 1) && y == next.0
      ensures forall j :: 0 <= j < i + 1 ==> stages[j].State() == next.1[j]
      ensures forall j :: i + 1 <= j < |stages| ==> stages[j].State() == before[j]
    {
      ghost var step := Step(stages[i].coeffs, before[i], x);
      y := stages[i].Process(x);
      next := (y, run.1 + [stages[i].State()]);
      forall j | 0 <= j < |stages| && j != i
        ensures stages[j].State() == old(stages[j].State())
      {
        assert stages[j] != stages[i];
      }
    }

    /** The sections of `Cascade::process` in vector order, before the post gain. */
    method RunSections(sample: real) returns (out: real)
      requires Valid()
      modifies stages
      ensures out == Run(Coeffs(), old(States()), sample).0
      ensures States() == Run(Coeffs(), old(States()), sample).1
    {
      ghost var before := States();
      ghost var run := RunPrefix(Coeffs(), before, sample, 0);
      out := sample;
      var i := 0;
      while i < |stages|
        invariant 0 <= i <= |stages|
        invariant run == RunPrefix(Coeffs(), before, sample, i) && out == run.0
        invariant forall j :: 0 <= j < i ==> stages[j].State() == run.1[j]
        invariant forall j :: i <= j < |stages| ==> stages[j].State() == before[j]
      {
        out, run := Advance(i, out, before, sample, run);
        i := i + 1;
      }
    }

    /** `Cascade::process`: the sample through every section in vector order, then the post gain. */
    method Process(sample: real) returns (out: real)
      requires Valid()
      modifies stages
      ensures out == Gained(Run(Coeffs(), old(States()), sample).0, postGain)
      ensures States() == Run(Coeffs(), old(States()), sample).1
    {
      out := RunSections(sample);
      out := Gained(out, postGain);
    }
  }
}
