/**
 * The shared DSP arguments and the test-signal generators: `FilterArgs` with its default and
 * sample counts, the fixed `sine_gen` oscillator and the frequency-modulated `SineSweeper`. Both
 * generators rotate a phasor `(re, im)` by `(cos, sin)` of the angular step and emit `im` first.
 */
module Dsp {
  import opened Common
  import opened Float
  import Windows

  /** `MAX_FREQ_OLD_PEOPLE` */
  const MaxFreqOldPeople: real := 12333.0
  /** `MIN_FREQ_CHEAP_DRIVERS` */
  const MinFreqCheapDrivers: real := 24.0

  datatype FilterArgs = FilterArgs(
    q: real,
    center: real,
    fs: real,
    gainFactor: real,
    butterworth: bool,
    stagger: Option<real>,
    stages: nat,
    windowChoice: Windows.WindowFunction)

  /** `FilterArgs::default`. */
  const DefaultArgs: FilterArgs :=
    FilterArgs(10.0, 1000.0, 48000.0, 1.0, false, None, 4, Windows.DolphChebyshev(40.0))

  /**
   * `(fs / f0 * nwaves).ceil() as usize`: the samples that cover `nwaves` cycles of `f0`. The cast
   * saturates, so a negative count is zero.
   */
  function CycleSamples(m: Math, fs: real, f0: real, nwaves: real): (r: nat)
    ensures m.fdiv(fs, f0) * nwaves <= r as real
    ensures 0.0 <= m.fdiv(fs, f0) * nwaves ==> (r as real) < m.fdiv(fs, f0) * nwaves + 1.0
  {
    SaturatingToNat(Ceil(m.fdiv(fs, f0) * nwaves))
  }

  /** `FilterArgs::nsamples`. */
  function ArgsSamples(m: Math, args: FilterArgs, nwaves: real): (r: nat)
    ensures Division(m) && args.center != 0.0 ==> args.fs / args.center * nwaves <= r as real
    ensures Division(m) && args.center != 0.0 && 0.0 <= args.fs / args.center * nwaves ==>
      (r as real) < args.fs / args.center * nwaves + 1.0
  {
    assert Division(m) && args.center != 0.0 ==> m.fdiv(args.fs, args.center) == args.fs / args.center;
    CycleSamples(m, args.fs, args.center, nwaves)
  }

  /** The angular step `TAU * f0 / fs`, divided in IEEE arithmetic. */
  function Omega(m: Math, f0: real, fs: real): real
  {
    m.fdiv(Tau64 * f0, fs)
  }

  /** The state both generators advance: the phasor and the rotation it is multiplied by. */
  datatype Oscillator = Oscillator(re: real, im: real, cos: real, sin: real)

  /** The starting state for `f0` at `fs`: phasor `(1, 0)`, rotation by `omega`. */
  function Start(m: Math, f0: real, fs: real): (o: Oscillator)
    ensures o.re == 1.0 && o.im == 0.0
  {
    var omega := Omega(m, f0, fs);
    Oscillator(1.0, 0.0, m.cos(omega), m.sin(omega))
  }

  /** One sample: the phasor multiplied by the rotation, the rotation kept. */
  function Step(o: Oscillator): (r: Oscillator)
    ensures r.cos == o.cos && r.sin == o.sin
  {
    Oscillator(o.re * o.cos - o.im * o.sin, o.re * o.sin + o.im * o.cos, o.cos, o.sin)
  }

  /** The first `n` samples emitted from state `o`, each the `im` part before its step, cast to f32. */
  function Emitted(m: Math, o: Oscillator, n: nat): (r: seq<real>)
    ensures |r| == n
    ensures n > 0 ==> r[0] == m.toF32(o.im)
    decreases n
  {
    if n == 0 then [] else [m.toF32(o.im)] + Emitted(m, Step(o), n - 1)
  }

  function Power(o: Oscillator): real
  {
    o.re * o.re + o.im * o.im
  }

  /** Rotating by a unit rotation keeps the phasor's squared magnitude, so the amplitude stays put. */
  lemma StepKeepsPower(o: Oscillator)
    requires o.cos * o.cos + o.sin * o.sin == 1.0
    ensures Power(Step(o)) == Power(o)
  {
    var a, b, c, s := o.re, o.im, o.cos, o.sin;
    calc {
      Power(Step(o));
      (a * c - b * s) * (a * c - b * s) + (a * s + b * c) * (a * s + b * c);
      a * a * (c * c + s * s) + b * b * (c * c + s * s);
      a * a + b * b;
    }
  }

  /** Every step keeps the squared magnitude, however many samples are drawn. */
  lemma {:induction false} PowerInvariant(o: Oscillator, n: nat)
    requires o.cos * o.cos + o.sin * o.sin == 1.0
    ensures Power(StepN(o, n)) == Power(o)
    ensures StepN(o, n).cos == o.cos && StepN(o, n).sin == o.sin
  {
    if n > 0 {
      PowerInvariant(o, n - 1);
      StepKeepsPower(StepN(o, n - 1));
    }
  }

  /** The state after `n` samples. */
  function StepN(o: Oscillator, n: nat): Oscillator
  {
    if n == 0 then o else Step(StepN(o, n - 1))
  }

  /** `sine_gen`: the closure's captured `re` and `im`, with `cos` and `sin` fixed at creation. */
  class SineGen {
    var re: real
    var im: real
    const cos: real
    const sin: real

    function State(): Oscillator
      reads this
    {
      Oscillator(re, im, cos, sin)
    }

    constructor (m: Math, f0: real, fs: real)
      ensures State() == Start(m, f0, fs)
    {
      var omega := Omega(m, f0, fs);
      re, im := 1.0, 0.0;
      cos, sin := m.cos(omega), m.sin(omega);
    }

    /** The iterator's `next`: emit `im`, then rotate. */
    method Next(m: Math) returns (out: real)
      modifies this
      ensures out == m.toF32(old(im))
      ensures State() == Step(old(State()))
    {
      out := m.toF32(im);
      var newRe := re * cos - im * sin;
      var newIm := re * sin + im * cos;
      re, im := newRe, newIm;
    }
  }

  /** `SineSweeper`: the same oscillator, whose rotation `set_frequency` can change. */
  class SineSweeper {
    var re: real
    var im: real
    var omega: real
    var cos: real
    var sin: real
    const fs: real
    const f0: real

    function State(): Oscillator
      reads this
    {
      Oscillator(re, im, cos, sin)
    }

    constructor (m: Math, f0: real, fs: real)
      ensures State() == Start(m, f0, fs)
      ensures this.f0 == f0 && this.fs == fs && omega == Omega(m, f0, fs)
    {
      var omega := Omega(m, f0, fs);
      re, im := 1.0, 0.0;
      this.omega := omega;
      cos, sin := m.cos(omega), m.sin(omega);
      this.fs, this.f0 := fs, f0;
    }

    /** Changes the rotation only: the phasor, `fs` and `f0` stay. */
    method SetFrequency(m: Math, f0: real)
      modifies this
      ensures omega == Omega(m, f0, fs) && cos == m.cos(omega) && sin == m.sin(omega)
      ensures re == old(re) && im == old(im)
    {
      omega := Omega(m, f0, fs);
      cos := m.cos(omega);
      sin := m.sin(omega);
    }

    /** `center`: the constructor's frequency, whatever `set_frequency` was given since. */
    function Center(): (r: real)
      ensures r == f0
    {
      f0
    }

    /** `nsamples`: the same rounding as `FilterArgs::nsamples`, at the constructor's frequency. */
    function NSamples(m: Math, nwaves: real): (r: nat)
      ensures r == CycleSamples(m, fs, f0, nwaves)
    {
      CycleSamples(m, fs, f0, nwaves)
    }

    method Next(m: Math) returns (out: real)
      modifies this
      ensures out == m.toF32(old(im))
      ensures State() == Step(old(State()))
      ensures omega == old(omega)
    {
      out := m.toF32(im);
      var newRe := re * cos - im * sin;
      var newIm := re * sin + im * cos;
      re, im := newRe, newIm;
    }
  }

  /** `FilterArgs::sine_gen`: a sweeper at the arguments' center and sample rate. */
  method ArgsSineGen(m: Math, args: FilterArgs) returns (s: SineSweeper)
    ensures fresh(s) && s.State() == Start(m, args.center, args.fs) && s.f0 == args.center
  {
    s := new SineSweeper(m, args.center, args.fs);
  }

  /**
   * Drawing `n` samples from a generator whose state is `Start(m, f0, fs)` yields
   * `Emitted(m, Start(m, f0, fs), n)`: `sine_gen` and a sweeper left at its frequency emit the
   * same sequence, starting with the f32 cast of 0.
   */
  method DrawSweeper(m: Math, s: SineSweeper, n: nat) returns (out: seq<real>)
    modifies s
    ensures out == Emitted(m, old(s.State()), n)
    ensures s.State() == StepN(old(s.State()), n)
  {
    ghost var o := s.State();
    out := [];
    var i := 0;
    while i < n
      invariant 0 <= i <= n
      invariant s.State() == StepN(o, i)
      invariant out + Emitted(m, StepN(o, i), n - i) == Emitted(m, o, n)
    {
      var x := s.Next(m);
      EmittedUnfold(m, StepN(o, i), n - i);
      out := out + [x];
      i := i + 1;
    }
  }

  method DrawSineGen(m: Math, s: SineGen, n: nat) returns (out: seq<real>)
    modifies s
    ensures out == Emitted(m, old(s.State()), n)
    ensures s.State() == StepN(old(s.State()), n)
  {
    ghost var o := s.State();
    out := [];
    var i := 0;
    while i < n
      invariant 0 <= i <= n
      invariant s.State() == StepN(o, i)
      invariant out + Emitted(m, StepN(o, i), n - i) == Emitted(m, o, n)
    {
      var x := s.Next(m);
      EmittedUnfold(m, StepN(o, i), n - i);
      out := out + [x];
      i := i + 1;
    }
  }

  lemma EmittedUnfold(m: Math, o: Oscillator, n: nat)
    requires n > 0
    ensures Emitted(m, o, n) == [m.toF32(o.im)] + Emitted(m, Step(o), n - 1)
  {
  }

  /** The two generators, built for the same `f0` and `fs`, emit the same samples. */
  method SameSamples(m: Math, f0: real, fs: real, n: nat) returns (a: seq<real>, b: seq<real>)
    ensures a == b == Emitted(m, Start(m, f0, fs), n)
  {
    var g := new SineGen(m, f0, fs);
    var s := new SineSweeper(m, f0, fs);
    a := DrawSineGen(m, g, n);
    b := DrawSweeper(m, s, n);
  }
}
