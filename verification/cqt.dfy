/**
 * The constant-Q transform node. Each bin keeps a ring of complex terms, one per decimated input
 * sample, multiplied by a rotating phase; the bin's output is the sum of its ring. Reading every
 * `decimation`-th sample, the bin carries a `skip` from one input slice to the next so that its
 * reads stay on one decimation grid across slices.
 */
module ConstantQ {
  import opened Common
  import opened Float
  import opened Graph
  import opened RawAudio
  import Iso226

  datatype Complex = Complex(re: real, im: real)

  function Power(c: Complex): real { c.re * c.re + c.im * c.im }

  function Mag(m: Math, c: Complex): real { m.sqrt(Power(c)) }

  function Scale(c: Complex, s: real): Complex { Complex(c.re * s, c.im * s) }

  function AddC(a: Complex, b: Complex): Complex { Complex(a.re + b.re, a.im + b.im) }

  datatype AudioComplex = AudioComplex(left: Complex, right: Complex)

  const ZeroTerm: AudioComplex := AudioComplex(Complex(0.0, 0.0), Complex(0.0, 0.0))

  /** A ring of `n` zero terms. */
  function ZeroRing(n: nat): (r: seq<AudioComplex>)
    ensures |r| == n && forall i :: 0 <= i < n ==> r[i] == ZeroTerm
  {
    seq(n, _ => ZeroTerm)
  }

  /** One bin's output. */
  datatype Cqt = Cqt(left: Complex, right: Complex, leftPerceptual: real, rightPerceptual: real, freq: real, iso226Factor: real)

  /** The input sample rate the bins assume. */
  const SampleRate: real := 48000.0

  /** The phase step of one decimated sample: a turn per period of the center frequency. */
  function BinVelocity(center: real, decimation: nat): real
  {
    Tau * center * decimation as real / SampleRate
  }

  /** A phase advanced by one step, wrapped once when it passes a full turn. */
  function Advance(phase: real, velocity: real): real
  {
    var p := phase + velocity;
    if p > Tau then p - Tau else p
  }

  /** The phase after `k` steps. */
  function PhaseAt(phase: real, velocity: real, k: nat): real
  {
    if k == 0 then phase else Advance(PhaseAt(phase, velocity, k - 1), velocity)
  }

  /**
   * The term of one sample at `phase`. `sin_cos` returns the sine first, so the real part is the
   * sample times the sine and the imaginary part minus the sample times the cosine.
   */
  function Term(m: Math, a: Audio, phase: real): AudioComplex
  {
    var c := m.sin(phase);
    var s := m.cos(phase);
    AudioComplex(Complex(a.left * c, -a.left * s), Complex(a.right * c, -a.right * s))
  }

  /** Terms for `picked`, the phase advancing by one step per term. */
  function NewTerms(m: Math, picked: seq<Audio>, velocity: real, phase: real): (r: seq<AudioComplex>)
    ensures |r| == |picked|
  {
    if picked == [] then []
    else NewTerms(m, picked[..|picked| - 1], velocity, phase) + [Term(m, picked[|picked| - 1], PhaseAt(phase, velocity, |picked| - 1))]
  }

  /** The `k`-th new term is the `k`-th picked sample's term at `k` phase steps. */
  lemma {:induction false} NewTermsAt(m: Math, picked: seq<Audio>, velocity: real, phase: real, k: nat)
    requires k < |picked|
    ensures NewTerms(m, picked, velocity, phase)[k] == Term(m, picked[k], PhaseAt(phase, velocity, k))
    decreases |picked|
  {
    if k < |picked| - 1 {
      assert picked[..|picked| - 1][k] == picked[k];
      NewTermsAt(m, picked[..|picked| - 1], velocity, phase, k);
    }
  }

  /** The `k`-th of the `len / d` samples that `step_by(d)` yields lies inside the slice. */
  lemma DecimatedBound(len: nat, d: nat, k: nat)
    requires d > 0 && k < len / d
    ensures k * d < len
  {
    DivMod(len, d);
    MulBound(k, len / d, d);
  }

  /**
   * `input.iter().step_by(d).take(input.len() / d)`: the samples at 0, d, .., (n - 1) d, where
   * `n` is the slice's length divided by `d`.
   */
  function Decimated(input: seq<Audio>, d: nat): (r: seq<Audio>)
    requires d > 0
    ensures |r| == |input| / d
  {
    seq(|input| / d, k requires 0 <= k < |input| / d => DecimatedBound(|input|, d, k); input[k * d])
  }

  /** The `k`-th decimated sample is the input sample at `k * d`. */
  lemma DecimatedAt(input: seq<Audio>, d: nat, k: nat)
    requires d > 0 && k < |input| / d
    ensures k * d < |input| && Decimated(input, d)[k] == input[k * d]
  {
    DecimatedBound(|input|, d, k);
  }

  /** The part of a slice after a carried skip: all of it when the skip is zero. */
  function Unskipped(input: seq<Audio>, skip: nat): (r: seq<Audio>)
    requires skip <= |input|
    ensures |r| == |input| - skip && (skip == 0 ==> r == input)
  {
    if skip != 0 then input[skip..] else input
  }

  /** A non-zero skip also advances the phase by one step, without the wrap of `Advance`. */
  function SkipPhase(phase: real, velocity: real, skip: nat): real
  {
    if skip != 0 then phase + velocity else phase
  }

  /** How many samples a slice of `len` with `skip` samples to pass over yields. */
  function ReadLen(len: nat, skip: nat, d: nat): nat
    requires skip <= len && d > 0
  {
    (len - skip) / d
  }

  /** The skip carried to the next slice. */
  function NextSkip(len: nat, skip: nat, d: nat): (r: nat)
    requires skip <= len && d > 0
    ensures r < d
  {
    (d - (len - skip) % d) % d
  }

  /**
   * The skip carry keeps reads on one grid: the next slice's first read, `NextSkip` samples past
   * the end of this one, is a whole number of decimation steps after this slice's first read.
   */
  lemma SkipCarryAligned(len: nat, skip: nat, d: nat)
    requires skip <= len && d > 0
    ensures (len - skip + NextSkip(len, skip, d)) % d == 0
    ensures len - skip + NextSkip(len, skip, d) == (if (len - skip) % d == 0 then ReadLen(len, skip, d) else ReadLen(len, skip, d) + 1) * d
  {
    var q, r := (len - skip) / d, (len - skip) % d;
    DivMod(len - skip, d);
    if r == 0 {
      ModMultiple(1, d);
      ModMultiple(q, d);
    } else {
      DivModUnique(d - r, d, 0, d - r);
      assert (q + 1) * d == q * d + d;
      ModMultiple(q + 1, d);
    }
  }

  /**
   * The read count rounds down: when the slice does not end on the grid, the grid sample at
   * `skip + ReadLen * d` is inside the slice yet not read, and the next slice starts after it.
   */
  lemma LastGridSampleUnread(len: nat, skip: nat, d: nat)
    requires skip <= len && d > 0 && (len - skip) % d != 0
    ensures skip + ReadLen(len, skip, d) * d < len
    ensures len + NextSkip(len, skip, d) == skip + (ReadLen(len, skip, d) + 1) * d
  {
    DivMod(len - skip, d);
    SkipCarryAligned(len, skip, d);
  }

  /** Each slice can be consumed in turn: every carried skip fits in the next slice. */
  predicate Consumable(lens: seq<nat>, skip: nat, d: nat)
    requires d > 0
    decreases |lens|
  {
    lens == [] || (skip <= lens[0] && Consumable(lens[1..], NextSkip(lens[0], skip, d), d))
  }

  /** `n` positions `d` apart from `start`. */
  function GridPositions(n: nat, start: nat, d: nat): (r: seq<nat>)
    ensures |r| == n && forall k :: 0 <= k < n ==> r[k] == start + k * d
  {
    seq(n, k requires 0 <= k < n => start + k * d)
  }

  /** The positions, counted from the start of the stream at `base`, a bin reads from slices of lengths `lens`. */
  function StreamReads(lens: seq<nat>, skip: nat, d: nat, base: nat): seq<nat>
    requires d > 0 && Consumable(lens, skip, d)
    decreases |lens|
  {
    if lens == [] then []
    else
      var next := NextSkip(lens[0], skip, d);
      GridPositions(ReadLen(lens[0], skip, d), base + skip, d) + StreamReads(lens[1..], next, d, base + lens[0])
  }

  /** `p` is `origin` plus a whole number of steps of `d`. */
  predicate OnGrid(p: int, origin: int, d: nat)
    requires d > 0
  {
    p >= origin && (p - origin) % d == 0
  }

  lemma GridShift(p: int, origin: int, step: nat, d: nat)
    requires d > 0 && step % d == 0 && OnGrid(p, origin + step, d)
    ensures OnGrid(p, origin, d)
  {
    var a: nat := p - origin - step;
    DivMod(a, d);
    DivMod(step, d);
    assert p - origin == (a / d + step / d) * d;
    ModMultiple(a / d + step / d, d);
  }

  /**
   * Across any run of slices, every sample a bin reads sits on the decimation grid that starts at
   * the first slice's skip: its position in the concatenated stream is that skip plus a multiple of
   * the decimation.
   */
  lemma {:induction false} StreamReadsOnGrid(lens: seq<nat>, skip: nat, d: nat, base: nat)
    requires d > 0 && Consumable(lens, skip, d)
    ensures forall i :: 0 <= i < |StreamReads(lens, skip, d, base)| ==> OnGrid(StreamReads(lens, skip, d, base)[i], base + skip, d)
    decreases |lens|
  {
    if lens != [] {
      var next := NextSkip(lens[0], skip, d);
      var head := GridPositions(ReadLen(lens[0], skip, d), base + skip, d);
      var tail := StreamReads(lens[1..], next, d, base + lens[0]);
      assert StreamReads(lens, skip, d, base) == head + tail;
      StreamReadsOnGrid(lens[1..], next, d, base + lens[0]);
      SkipCarryAligned(lens[0], skip, d);
      forall i | 0 <= i < |head + tail|
        ensures OnGrid((head + tail)[i], base + skip, d)
      {
        if i < |head| {
          ModMultiple(i, d);
        } else {
          assert OnGrid(tail[i - |head|], base + lens[0] + next, d);
          GridShift(tail[i - |head|], base + skip, lens[0] - skip + next, d);
        }
      }
    }
  }

  /** The per-channel sums of a ring of terms. */
  function SumTerms(terms: seq<AudioComplex>): AudioComplex
  {
    if terms == [] then ZeroTerm
    else
      var s := SumTerms(terms[..|terms| - 1]);
      var t := terms[|terms| - 1];
      AudioComplex(AddC(s.left, t.left), AddC(s.right, t.right))
  }

  /** A ring of zero terms sums to zero. */
  lemma {:induction false} ZeroRingSumsToZero(n: nat)
    ensures SumTerms(ZeroRing(n)) == ZeroTerm
  {
    if n > 0 {
      assert ZeroRing(n)[..n - 1] == ZeroRing(n - 1);
      ZeroRingSumsToZero(n - 1);
    }
  }

  /** The approximate phon level of one channel's sum: `20 log10` of its scaled magnitude, plus the ISO 226 correction. */
  function Perceptual(m: Math, sum: Complex, effectiveLen: nat, offset: real): real
    requires effectiveLen > 0
  {
    var norm := 1.0 / effectiveLen as real;
    20.0 * m.log10(Mag(m, Scale(sum, norm * Sqrt2))) + offset
  }

  /*
   * The ring of terms is always full. Seen oldest first, it is its storage read from the slot of
   * the oldest term, `readIndex`, to the end (the head `as_mut_slices` returns, `capacity -
   * readIndex` terms) and then from the start up to that slot (the tail, `readIndex` terms).
   */

  /**
   * The ring, oldest first, once the read and the write index have both moved on by `n`: the
   * survivors, then the `n` slots handed back to the writer, which still hold the dropped terms.
   */
  function Rolled<T>(view: seq<T>, n: nat): (r: seq<T>)
    requires n <= |view|
    ensures |r| == |view| && r[..|view| - n] == view[n..] && r[|view| - n..] == view[..n]
  {
    view[n..] + view[..n]
  }

  /** `head_index` as written: a write of `n` terms shorter than the tail starts at the head's first slot. */
  function HeadIndex(n: nat, headLen: nat, tailLen: nat): nat
  {
    if n >= tailLen then SaturatingToNat(headLen + tailLen - n) else 0
  }

  /** The head index that writes into the slots just handed back: a write that fits in the tail skips the whole head. */
  function HeadIndexCorrected(n: nat, headLen: nat, tailLen: nat): nat
  {
    if n >= tailLen then SaturatingToNat(headLen + tailLen - n) else headLen
  }

  /**
   * The chain of a `c`-slot ring's head from `hi` and of its tail from `tail_len - n`
   * (saturating), with the oldest term at slot `r`, has room for all `n` terms.
   */
  predicate ChainFits(c: nat, r: nat, n: nat, hi: nat)
  {
    r < c && hi <= c - r && (c - r - hi) + Min(n, r) >= n
  }

  /**
   * The ring, oldest first, after `added` goes through that chain: the head's slots from `hi` on
   * take the first terms, the tail's last `min(n, r)` slots the others.
   */
  function Written<T>(rolled: seq<T>, r: nat, added: seq<T>, hi: nat): (ring: seq<T>)
    requires ChainFits(|rolled|, r, |added|, hi)
    ensures |ring| == |rolled|
  {
    var c, n := |rolled|, |added|;
    var h := Min(n, c - r - hi);
    var ts := c - Min(n, r);
    rolled[..hi] + added[..h] + rolled[hi + h..ts] + added[h..] + rolled[ts + (n - h)..]
  }

  /** Writing the first `h` new terms from `hi`, then the others from `ts`, is `Written`. */
  lemma TwoBlocks<T>(before: seq<T>, r: nat, added: seq<T>, hi: nat, n: nat, h: nat, ts: nat, middle: seq<T>, after: seq<T>)
    requires ChainFits(|before|, r, |added|, hi)
    requires n == |added| && h == Min(n, |before| - r - hi) && ts == |before| - Min(n, r)
    requires middle == before[..hi] + added[0..0 + h] + before[hi + h..]
    requires after == middle[..ts] + added[h..h + (n - h)] + middle[ts + (n - h)..]
    ensures after == Written(before, r, added, hi)
  {
    assert middle[..ts] == before[..hi] + added[..h] + before[hi + h..ts];
  }

  /** Both head index rules leave the chain room for every term. */
  lemma HeadIndexFits(c: nat, r: nat, n: nat)
    requires r < c && n <= c
    ensures ChainFits(c, r, n, HeadIndex(n, c - r, r))
    ensures ChainFits(c, r, n, HeadIndexCorrected(n, c - r, r))
  {
  }

  /**
   * `consume`'s update of a ring whose oldest term sits at slot `r`, as written: `n` terms roll
   * off, the oldest slot moves on by `n`, and `added` goes through the chain `head_index` picks.
   */
  function RingAsWritten<T>(view: seq<T>, r: nat, added: seq<T>): (ring: seq<T>)
    requires r < |view| && |added| <= |view|
    ensures |ring| == |view|
  {
    var next := (r + |added|) % |view|;
    HeadIndexFits(|view|, next, |added|);
    Written(Rolled(view, |added|), next, added, HeadIndex(|added|, |view| - next, next))
  }

  /** The same update with the corrected head index. */
  function RingCorrected<T>(view: seq<T>, r: nat, added: seq<T>): (ring: seq<T>)
    requires r < |view| && |added| <= |view|
    ensures |ring| == |view|
  {
    var next := (r + |added|) % |view|;
    HeadIndexFits(|view|, next, |added|);
    Written(Rolled(view, |added|), next, added, HeadIndexCorrected(|added|, |view| - next, next))
  }

  /** The write a method makes from the rolled ring, the new oldest slot and a head index is `RingAsWritten` when the index follows the rule as written. */
  lemma WrittenAsWritten<T>(view: seq<T>, r: nat, added: seq<T>, rolled: seq<T>, next: nat, hi: nat)
    requires r < |view| && |added| <= |view|
    requires rolled == Rolled(view, |added|) && next == (r + |added|) % |view| && hi == HeadIndex(|added|, |view| - next, next)
    ensures ChainFits(|rolled|, next, |added|, hi) && Written(rolled, next, added, hi) == RingAsWritten(view, r, added)
  {
    HeadIndexFits(|view|, next, |added|);
  }

  /** The same with the corrected rule and `RingCorrected`. */
  lemma WrittenCorrected<T>(view: seq<T>, r: nat, added: seq<T>, rolled: seq<T>, next: nat, hi: nat)
    requires r < |view| && |added| <= |view|
    requires rolled == Rolled(view, |added|) && next == (r + |added|) % |view| && hi == HeadIndexCorrected(|added|, |view| - next, next)
    ensures ChainFits(|rolled|, next, |added|, hi) && Written(rolled, next, added, hi) == RingCorrected(view, r, added)
  {
    HeadIndexFits(|view|, next, |added|);
  }

  /** With the corrected head index the update is a sliding window: the survivors in order, then the new terms. */
  lemma RingCorrectedSlides<T>(view: seq<T>, r: nat, added: seq<T>)
    requires r < |view| && |added| <= |view|
    ensures RingCorrected(view, r, added) == view[|added|..] + added
  {
    var c, n := |view|, |added|;
    var next := (r + n) % c;
    var rolled := Rolled(view, n);
    if n < next {
      assert rolled[..c - next] + rolled[c - next..c - n] == view[n..];
    }
  }

  /**
   * As written, the update is the same sliding window whenever the write reaches into the head
   * (the new oldest slot is at most `n`) or writes nothing.
   */
  lemma RingAsWrittenSlides<T>(view: seq<T>, r: nat, added: seq<T>)
    requires r < |view| && |added| <= |view|
    requires |added| >= (r + |added|) % |view| || |added| == 0
    ensures RingAsWritten(view, r, added) == view[|added|..] + added
  {
    var c, n := |view|, |added|;
    var next := (r + n) % c;
    var hi := HeadIndex(n, c - next, next);
    WrittenAsWritten(view, r, added, Rolled(view, n), next, hi);
    if n >= next {
      RingCorrectedSlides(view, r, added);
      WrittenCorrected(view, r, added, Rolled(view, n), next, hi);
    } else {
      WrittenEmpty(Rolled(view, 0), next, added, hi);
      assert Rolled(view, 0) == view;
    }
  }

  /** Writing nothing leaves the rolled ring as it is. */
  lemma WrittenEmpty<T>(rolled: seq<T>, next: nat, added: seq<T>, hi: nat)
    requires ChainFits(|rolled|, next, 0, hi) && added == []
    ensures Written(rolled, next, added, hi) == rolled
  {
    assert Written(rolled, next, added, hi) == rolled[..hi] + rolled[hi..];
  }

  /**
   * A non-empty write through the chain from the head's first slot, when the tail is longer than
   * the write: the first terms, as many as the head holds, land on the oldest survivors; when the
   * head holds the whole write, the ring is the new terms and then the rest of the rolled ring.
   */
  lemma WrittenFromHeadStart<T>(rolled: seq<T>, next: nat, added: seq<T>)
    requires ChainFits(|rolled|, next, |added|, 0) && 0 < |added| < next
    ensures var k := Min(|added|, |rolled| - next);
      k > 0 && Written(rolled, next, added, 0)[..k] == added[..k]
    ensures |added| <= |rolled| - next ==> Written(rolled, next, added, 0) == added + rolled[|added|..]
  {
    var c, n := |rolled|, |added|;
    var k := Min(n, c - next);
    assert Min(n, next) == n;
    var rest := rolled[k..c - n] + added[k..] + rolled[c - k..];
    var w := Written(rolled, next, added, 0);
    assert w == rolled[..0] + added[..k] + rolled[k..c - n] + added[k..] + rolled[c - n + (n - k)..];
    assert rolled[..0] == [];
    assert w == added[..k] + rest;
    assert (added[..k] + rest)[..k] == added[..k];
    if n <= c - next {
      assert k == n && added[..k] == added && added[k..] == [];
      assert rolled[n..c - n] + rolled[c - n..] == rolled[n..];
    }
  }

  /**
   * As written, a non-empty write shorter than the tail puts its first terms, as many as the head
   * holds, over the oldest survivors; when the head holds the whole write, the ring is the new
   * terms followed by the rest of the rolled ring.
   */
  lemma RingAsWrittenOverwrites<T>(view: seq<T>, r: nat, added: seq<T>, next: nat)
    requires r < |view| && next == (r + |added|) % |view| && 0 < |added| < next
    ensures var k := Min(|added|, |view| - next);
      k > 0 && RingAsWritten(view, r, added)[..k] == added[..k]
    ensures |added| <= |view| - next ==> RingAsWritten(view, r, added) == added + Rolled(view, |added|)[|added|..]
  {
    HeadIndexFits(|view|, next, |added|);
    assert HeadIndex(|added|, |view| - next, next) == 0;
    WrittenFromHeadStart(Rolled(view, |added|), next, added);
  }

  /**
   * The two updates agree when the write reaches into the head or is empty; otherwise the oldest
   * slots of the as-written ring hold the new terms the corrected ring keeps at its newest end.
   */
  lemma RingsAgree<T>(view: seq<T>, r: nat, added: seq<T>, next: nat)
    requires r < |view| && |added| <= |view| && next == (r + |added|) % |view|
    ensures |added| >= next || |added| == 0 ==> RingAsWritten(view, r, added) == RingCorrected(view, r, added)
    ensures 0 < |added| < next ==>
      var k := Min(|added|, |view| - next);
      k > 0 && RingAsWritten(view, r, added)[..k] == RingCorrected(view, r, added)[|view| - |added|..|view| - |added| + k]
  {
    var c, n := |view|, |added|;
    RingCorrectedSlides(view, r, added);
    if n >= next || n == 0 {
      RingAsWrittenSlides(view, r, added);
    } else {
      RingAsWrittenOverwrites(view, r, added, next);
      var k := Min(n, c - next);
      assert (view[n..] + added)[c - n..c - n + k] == added[..k];
    }
  }

  /**
   * Three writes of 800 terms into a 2400-term ring whose oldest term sits at slot 0. As written,
   * the second write lands on the oldest survivors of the first, and the third write then rolls
   * it off: the ring ends as the first block, 800 of the initial terms and the third block.
   */
  lemma ThreeSlicesAsWritten<T>(z: seq<T>, a: seq<T>, b: seq<T>, c: seq<T>)
    requires |z| == 2400 && |a| == 800 && |b| == 800 && |c| == 800
    ensures RingAsWritten(RingAsWritten(RingAsWritten(z, 0, a), 800, b), 1600, c) == a + z[800..1600] + c
  {
    FirstSlice(z, a);
    SecondSlice(z[800..] + a, b);
    assert (z[800..] + a)[1600..] + (z[800..] + a)[..800] == a + z[800..1600];
    ThirdSlice(b + a + z[800..1600], c);
    assert (b + a + z[800..1600])[800..] == a + z[800..1600];
  }

  /** The first write of the three reaches the head: the ring slides. */
  lemma FirstSlice<T>(z: seq<T>, a: seq<T>)
    requires |z| == 2400 && |a| == 800
    ensures RingAsWritten(z, 0, a) == z[800..] + a
  {
    RingAsWrittenSlides(z, 0, a);
  }

  /** The second write is shorter than the 1600-term tail: as written it lands on the oldest survivors. */
  lemma SecondSlice<T>(w: seq<T>, b: seq<T>)
    requires |w| == 2400 && |b| == 800
    ensures RingAsWritten(w, 800, b) == b + w[1600..] + w[..800]
  {
    RingAsWrittenOverwrites(w, 800, b, 1600);
    assert Rolled(w, 800)[800..] == w[1600..] + w[..800];
  }

  /** The third write brings the oldest slot back to 0: the ring slides. */
  lemma ThirdSlice<T>(w: seq<T>, c: seq<T>)
    requires |w| == 2400 && |c| == 800
    ensures RingAsWritten(w, 1600, c) == w[800..] + c
  {
    RingAsWrittenSlides(w, 1600, c);
  }

  /** The corrected update keeps all three blocks of the same three writes. */
  lemma ThreeSlicesCorrected<T>(z: seq<T>, a: seq<T>, b: seq<T>, c: seq<T>)
    requires |z| == 2400 && |a| == 800 && |b| == 800 && |c| == 800
    ensures RingCorrected(RingCorrected(RingCorrected(z, 0, a), 800, b), 1600, c) == a + b + c
  {
    RingCorrectedSlides(z, 0, a);
    var c1 := z[800..] + a;
    RingCorrectedSlides(c1, 800, b);
    var c2 := z[1600..] + a + b;
    assert c1[800..] + b == c2;
    RingCorrectedSlides(c2, 1600, c);
    assert c2[800..] == a + b;
  }

  /**
   * The two updates of those three writes differ whenever the second block differs from the
   * initial terms that take its place.
   */
  lemma ThreeSlicesCounterexample<T>(z: seq<T>, a: seq<T>, b: seq<T>, c: seq<T>)
    requires |z| == 2400 && |a| == 800 && |b| == 800 && |c| == 800 && b != z[800..1600]
    ensures RingAsWritten(RingAsWritten(RingAsWritten(z, 0, a), 800, b), 1600, c)
      != RingCorrected(RingCorrected(RingCorrected(z, 0, a), 800, b), 1600, c)
  {
    ThreeSlicesAsWritten(z, a, b, c);
    ThreeSlicesCorrected(z, a, b, c);
    var aw, co := a + z[800..1600] + c, a + b + c;
    assert aw[800..1600] == z[800..1600] && co[800..1600] == b;
  }

  /** Writing `x` just past a block written over `before` from `at` extends the block by `x`. */
  lemma BlockGrows<T>(before: seq<T>, written: seq<T>, at: nat, x: T)
    requires at + |written| < |before|
    ensures (before[..at] + written + before[at + |written|..])[at + |written| := x]
      == before[..at] + (written + [x]) + before[at + |written| + 1..]
  {
  }

  /** The part of a bin that consuming changes; `readIndex` is the storage slot of the ring's oldest term. */
  datatype BinState = BinState(terms: seq<AudioComplex>, phase: real, skip: nat, readIndex: nat)

  class CqtBin {
    const center: real
    /** ISO 226 correction, in dB. */
    const iso226Offset: real
    /** The phase step of one decimated sample. */
    const velocity: real
    const decimation: nat
    /** The ring's capacity, its number of decimated samples. */
    const capacity: nat
    /** The ring, oldest term first. */
    var terms: seq<AudioComplex>
    var readIndex: nat
    var phase: real
    var skip: nat

    ghost predicate Valid()
      reads this
    {
      && decimation > 0 && capacity > 0 && capacity * decimation >= 800
      && |terms| == capacity && readIndex < capacity && skip < decimation
    }

    function State(): BinState
      reads this
    {
      BinState(terms, phase, skip, readIndex)
    }

    /** `len`: the ring's capacity, the number of decimated samples in the window. */
    function Len(): nat
    {
      capacity
    }

    /** `effective_len`: the window's length in input samples, at least one frame of 800. */
    function EffectiveLen(): (r: nat)
      requires decimation > 0 && capacity * decimation >= 800
      ensures r >= 800 && r % decimation == 0 && r / decimation == Len()
    {
      ModMultiple(capacity, decimation);
      capacity * decimation
    }

    /**
     * `CqtBin::new`: a ring of `ceil(size / decimation)` zero terms covering at least 800 input
     * samples, its oldest term at the first slot, and the ISO 226 gain at the center frequency.
     */
    constructor (m: Math, center: real, size: nat, decimation: nat)
      requires decimation > 0
      requires CeilDiv(size, decimation) * decimation >= 800
      ensures Valid()
      ensures this.center == center && this.decimation == decimation
      ensures capacity == CeilDiv(size, decimation) && capacity * decimation >= size
      ensures terms == ZeroRing(capacity) && readIndex == 0 && phase == 0.0 && skip == 0
      ensures iso226Offset == Iso226.Gain(m, center).value
      ensures velocity == BinVelocity(center, decimation)
    {
      var len := CeilDiv(size, decimation);
      CeilDivBounds(size, decimation);
      FactorPositive(len, decimation);
      this.center := center;
      this.decimation := decimation;
      capacity := len;
      terms := ZeroRing(len);
      readIndex := 0;
      phase := 0.0;
      skip := 0;
      var gain := Iso226.Gain(m, center);
      iso226Offset := gain.value;
      velocity := BinVelocity(center, decimation);
    }

    /** The ring can take `input`: the carried skip fits in it, and it yields no more terms than the ring holds. */
    predicate Accepts(s: BinState, input: seq<Audio>)
      requires decimation > 0
    {
      s.skip <= |input| && ReadLen(|input|, s.skip, decimation) <= capacity
    }

    /** `s` is a state of this bin's ring. */
    predicate Fits(s: BinState)
    {
      |s.terms| == capacity && s.readIndex < capacity
    }

    /** The terms `consume` writes for `input`: one per decimated sample after the skip, from the skipped phase on. */
    function Added(m: Math, s: BinState, input: seq<Audio>): (r: seq<AudioComplex>)
      requires decimation > 0 && Accepts(s, input)
      ensures |r| == ReadLen(|input|, s.skip, decimation)
    {
      var rest := Unskipped(input, s.skip);
      NewTerms(m, Decimated(rest, decimation), velocity, SkipPhase(s.phase, velocity, s.skip))
    }

    /**
     * The state `consume` leaves, as written: a non-zero skip passes over that many samples and
     * one phase step; the `n` oldest terms roll off, where `n` is the rest's length divided by the
     * decimation; the terms of samples 0, d, .., (n - 1) d of the rest go through the chain the
     * `head_index` rule picks.
     */
    function NextStateAsWritten(m: Math, s: BinState, input: seq<Audio>): (r: BinState)
      requires decimation > 0 && Fits(s) && Accepts(s, input)
      ensures Fits(r) && r.skip < decimation
      ensures r.skip == NextSkip(|input|, s.skip, decimation)
      ensures r.readIndex == (s.readIndex + ReadLen(|input|, s.skip, decimation)) % capacity
      ensures r.phase == PhaseAt(SkipPhase(s.phase, velocity, s.skip), velocity, ReadLen(|input|, s.skip, decimation))
    {
      var n := ReadLen(|input|, s.skip, decimation);
      BinState(RingAsWritten(s.terms, s.readIndex, Added(m, s, input)),
               PhaseAt(SkipPhase(s.phase, velocity, s.skip), velocity, n),
               NextSkip(|input|, s.skip, decimation), (s.readIndex + n) % capacity)
    }

    /**
     * The state `consume` is meant to leave: the same, except that the new terms follow every
     * survivor, so the ring stays a sliding window over the decimated input.
     */
    function NextState(m: Math, s: BinState, input: seq<Audio>): (r: BinState)
      requires decimation > 0 && Fits(s) && Accepts(s, input)
      ensures Fits(r) && r.skip < decimation
      ensures r.skip == NextSkip(|input|, s.skip, decimation)
      ensures r.readIndex == (s.readIndex + ReadLen(|input|, s.skip, decimation)) % capacity
      ensures r.phase == PhaseAt(SkipPhase(s.phase, velocity, s.skip), velocity, ReadLen(|input|, s.skip, decimation))
      ensures r.terms[..capacity - ReadLen(|input|, s.skip, decimation)] == s.terms[ReadLen(|input|, s.skip, decimation)..]
      ensures r.terms[capacity - ReadLen(|input|, s.skip, decimation)..] == Added(m, s, input)
    {
      var n := ReadLen(|input|, s.skip, decimation);
      RingCorrectedSlides(s.terms, s.readIndex, Added(m, s, input));
      BinState(RingCorrected(s.terms, s.readIndex, Added(m, s, input)),
               PhaseAt(SkipPhase(s.phase, velocity, s.skip), velocity, n),
               NextSkip(|input|, s.skip, decimation), (s.readIndex + n) % capacity)
    }

    /**
     * The as-written next state is the intended one whenever the write reaches into the head or
     * is empty.
     */
    lemma NextStatesAgree(m: Math, s: BinState, input: seq<Audio>)
      requires decimation > 0 && Fits(s) && Accepts(s, input)
      requires var n := ReadLen(|input|, s.skip, decimation); n >= (s.readIndex + n) % capacity || n == 0
      ensures NextStateAsWritten(m, s, input) == NextState(m, s, input)
    {
      var added := Added(m, s, input);
      RingAsWrittenSlides(s.terms, s.readIndex, added);
      RingCorrectedSlides(s.terms, s.readIndex, added);
    }

    /**
     * Otherwise, as written, the first new terms, as many as the head holds, land on the oldest
     * slots of the ring, where `NextState` keeps survivors; the new oldest slot is the same.
     */
    lemma NextStatesDiffer(m: Math, s: BinState, input: seq<Audio>)
      requires decimation > 0 && Fits(s) && Accepts(s, input)
      requires var n := ReadLen(|input|, s.skip, decimation); 0 < n < (s.readIndex + n) % capacity
      ensures var n := ReadLen(|input|, s.skip, decimation);
        var w := NextStateAsWritten(m, s, input);
        var k := Min(n, capacity - w.readIndex);
        && k > 0 && w.terms[..k] == Added(m, s, input)[..k]
        && w.readIndex == NextState(m, s, input).readIndex
    {
      var n, added := ReadLen(|input|, s.skip, decimation), Added(m, s, input);
      var next := (s.readIndex + n) % capacity;
      assert |added| == n && |s.terms| == capacity;
      RingAsWrittenOverwrites(s.terms, s.readIndex, added, next);
      var w := NextStateAsWritten(m, s, input);
      assert w.terms == RingAsWritten(s.terms, s.readIndex, added) && w.readIndex == next;
    }

    /**
     * The steps `consume` takes give `NextStateAsWritten`: the skip taken from `input`, the `n` oldest terms
     * rolled off with the oldest slot moved to `next`, and the new terms written from slot `hi`
     * that the `head_index` rule as written picks.
     */
    lemma StepsAsWritten(m: Math, s: BinState, input: seq<Audio>, rest: seq<Audio>, skipped: real, n: nat, rolled: seq<AudioComplex>, next: nat, hi: nat, t: BinState)
      requires decimation > 0 && Fits(s) && Accepts(s, input)
      requires rest == Unskipped(input, s.skip) && skipped == SkipPhase(s.phase, velocity, s.skip)
      requires n == ReadLen(|input|, s.skip, decimation) == |rest| / decimation
      requires rolled == Rolled(s.terms, n) && next == (s.readIndex + n) % capacity && hi == HeadIndex(n, capacity - next, next)
      requires t.terms == Written(rolled, next, NewTerms(m, Decimated(rest, decimation), velocity, skipped), hi)
      requires t.phase == PhaseAt(skipped, velocity, n) && t.skip == NextSkip(|input|, s.skip, decimation) && t.readIndex == next
      ensures t == NextStateAsWritten(m, s, input)
    {
      WrittenAsWritten(s.terms, s.readIndex, Added(m, s, input), rolled, next, hi);
    }

    /**
     * The steps `consume` takes give `NextState`: the skip taken from `input`, the `n` oldest terms
     * rolled off with the oldest slot moved to `next`, and the new terms written from slot `hi`
     * that the corrected rule picks.
     */
    lemma StepsCorrected(m: Math, s: BinState, input: seq<Audio>, rest: seq<Audio>, skipped: real, n: nat, rolled: seq<AudioComplex>, next: nat, hi: nat, t: BinState)
      requires decimation > 0 && Fits(s) && Accepts(s, input)
      requires rest == Unskipped(input, s.skip) && skipped == SkipPhase(s.phase, velocity, s.skip)
      requires n == ReadLen(|input|, s.skip, decimation) == |rest| / decimation
      requires rolled == Rolled(s.terms, n) && next == (s.readIndex + n) % capacity && hi == HeadIndexCorrected(n, capacity - next, next)
      requires t.terms == Written(rolled, next, NewTerms(m, Decimated(rest, decimation), velocity, skipped), hi)
      requires t.phase == PhaseAt(skipped, velocity, n) && t.skip == NextSkip(|input|, s.skip, decimation) && t.readIndex == next
      ensures t == NextState(m, s, input)
    {
      WrittenCorrected(s.terms, s.readIndex, Added(m, s, input), rolled, next, hi);
    }

    /** `CqtBin::consume`, as written. */
    method Consume(m: Math, input: seq<Audio>)
      requires Valid() && Accepts(State(), input)
      modifies this`terms, this`readIndex, this`phase, this`skip
      ensures Valid()
      ensures State() == NextStateAsWritten(m, old(State()), input)
    {
      ghost var before := State();
      var rest, readLen := TakeSkip(input);
      ghost var skipped := phase;
      RollOff(readLen);
      var headIndex := HeadIndex(readLen, capacity - readIndex, readIndex);
      HeadIndexFits(capacity, readIndex, readLen);
      ghost var rolled := terms;
      RollOn(m, rest, readLen, headIndex);
      StepsAsWritten(m, before, input, rest, skipped, readLen, rolled, readIndex, headIndex, State());
    }

    /** `CqtBin::consume` with the corrected head index. */
    method ConsumeCorrected(m: Math, input: seq<Audio>)
      requires Valid() && Accepts(State(), input)
      modifies this`terms, this`readIndex, this`phase, this`skip
      ensures Valid()
      ensures State() == NextState(m, old(State()), input)
    {
      ghost var before := State();
      var rest, readLen := TakeSkip(input);
      ghost var skipped := phase;
      RollOff(readLen);
      var headIndex := HeadIndexCorrected(readLen, capacity - readIndex, readIndex);
      HeadIndexFits(capacity, readIndex, readLen);
      ghost var rolled := terms;
      RollOn(m, rest, readLen, headIndex);
      StepsCorrected(m, before, input, rest, skipped, readLen, rolled, readIndex, headIndex, State());
    }

    /**
     * The start of `consume`: a carried skip passes over that many samples and one phase step;
     * the rest's length fixes the number of terms to read and the skip carried to the next slice.
     */
    method TakeSkip(input: seq<Audio>) returns (rest: seq<Audio>, readLen: nat)
      requires decimation > 0 && skip <= |input|
      modifies this`phase, this`skip
      ensures rest == Unskipped(input, old(skip)) && phase == SkipPhase(old(phase), velocity, old(skip))
      ensures readLen == ReadLen(|input|, old(skip), decimation) == |rest| / decimation
      ensures skip == NextSkip(|input|, old(skip), decimation)
    {
      rest := input;
      if skip != 0 {
        phase := phase + velocity;
        rest := input[skip..];
      }
      readLen := |rest| / decimation;
      skip := (decimation - |rest| % decimation) % decimation;
    }

    /**
     * Rolls off the `n` oldest terms: `clear` when that is the whole ring, otherwise the read
     * index moves on by `n`; the write index then moves on by `n` as well, so the ring stays full.
     */
    method RollOff(n: nat)
      requires |terms| == capacity && readIndex < capacity && n <= capacity
      modifies this`terms, this`readIndex
      ensures terms == Rolled(old(terms), n) && readIndex == (old(readIndex) + n) % capacity
    {
      if n == capacity {
        // `clear` reads every term, which brings the oldest slot round to where it was
        assert terms[n..] + terms[..n] == terms;
        DivModUnique(readIndex + capacity, capacity, 1, readIndex);
      } else {
        terms := terms[n..] + terms[..n];
        readIndex := (readIndex + n) % capacity;
      }
    }

    /**
     * The roll-on of `consume`: the terms of samples 0, d, .., (n - 1) d of `rest` go through the
     * chain of the head from slot `hi` and the tail, one phase step per term.
     */
    method RollOn(m: Math, rest: seq<Audio>, n: nat, hi: nat)
      requires decimation > 0 && n == |rest| / decimation
      requires |terms| == capacity && ChainFits(capacity, readIndex, n, hi)
      modifies this`terms, this`phase
      ensures terms == Written(old(terms), readIndex, NewTerms(m, Decimated(rest, decimation), velocity, old(phase)), hi)
      ensures phase == PhaseAt(old(phase), velocity, n)
    {
      ghost var base, before := phase, terms;
      ghost var added := NewTerms(m, Decimated(rest, decimation), velocity, base);
      var h := Min(n, capacity - readIndex - hi);
      var ts := capacity - Min(n, readIndex);
      WriteBlock(m, rest, 0, h, hi, base);
      ghost var middle := terms;
      WriteBlock(m, rest, h, n - h, ts, base);
      TwoBlocks(before, readIndex, added, hi, n, h, ts, middle, terms);
    }

    /**
     * Writes the terms of decimated samples `from` .. `from + count - 1` into ring positions `at` ..
     * `at + count - 1`, the phase being that many steps past `base`.
     */
    method WriteBlock(m: Math, rest: seq<Audio>, from: nat, count: nat, at: nat, ghost base: real)
      requires decimation > 0 && from + count <= |rest| / decimation && at + count <= |terms|
      requires phase == PhaseAt(base, velocity, from)
      modifies this`terms, this`phase
      ensures terms == old(terms)[..at] + NewTerms(m, Decimated(rest, decimation), velocity, base)[from..from + count] + old(terms)[at + count..]
      ensures phase == PhaseAt(base, velocity, from + count)
    {
      ghost var added := NewTerms(m, Decimated(rest, decimation), velocity, base);
      ghost var before := terms;
      var p := phase;
      var k := 0;
      while k < count
        invariant k <= count
        invariant p == PhaseAt(base, velocity, from + k)
        invariant terms == before[..at] + added[from..from + k] + before[at + k..]
      {
        BlockGrows(before, added[from..from + k], at, added[from + k]);
        assert added[from..from + k + 1] == added[from..from + k] + [added[from + k]];
        p := WriteTerm(m, rest, from + k, at + k, p, base);
        k := k + 1;
      }
      phase := p;
    }

    /**
     * One step of the roll-on loop: the term of picked sample `k`, the `k`-th item of `step_by`,
     * at its phase goes to ring position `at`, and the phase moves on.
     */
    method WriteTerm(m: Math, rest: seq<Audio>, k: nat, at: nat, p: real, ghost base: real) returns (next: real)
      requires decimation > 0 && k < |rest| / decimation && at < |terms|
      requires p == PhaseAt(base, velocity, k)
      modifies this`terms
      ensures terms == old(terms)[at := NewTerms(m, Decimated(rest, decimation), velocity, base)[k]]
      ensures next == PhaseAt(base, velocity, k + 1)
    {
      var pos := k * decimation;
      DecimatedAt(rest, decimation, k);
      NewTermsAt(m, Decimated(rest, decimation), velocity, base, k);
      terms := terms[at := Term(m, rest[pos], p)];
      next := p + velocity;
      if next > Tau {
        next := next - Tau;
      }
    }

    /** What `produce` reports for the current ring. */
    function Output(m: Math): Cqt
      reads this
      requires Valid()
    {
      var sum := SumTerms(terms);
      Cqt(sum.left, sum.right,
          Perceptual(m, sum.left, EffectiveLen(), iso226Offset),
          Perceptual(m, sum.right, EffectiveLen(), iso226Offset),
          center, m.powf(10.0, iso226Offset / 10.0))
    }

    /**
     * `CqtBin::produce`: sums every term of the ring per channel and reports the sums with their
     * perceptual levels, changing nothing.
     */
    method Produce(m: Math) returns (out: Cqt)
      requires Valid()
      ensures out == Output(m)
      ensures out.left == SumTerms(terms).left && out.right == SumTerms(terms).right && out.freq == center
    {
      var lRe, lIm, rRe, rIm := 0.0, 0.0, 0.0, 0.0;
      var i := 0;
      while i < |terms|
        invariant 0 <= i <= |terms|
        invariant SumTerms(terms[..i]) == AudioComplex(Complex(lRe, lIm), Complex(rRe, rIm))
      {
        assert terms[..i + 1][..i] == terms[..i];
        lRe := lRe + terms[i].left.re;
        lIm := lIm + terms[i].left.im;
        rRe := rRe + terms[i].right.re;
        rIm := rIm + terms[i].right.im;
        i := i + 1;
      }
      assert terms[..|terms|] == terms;
      var sum := AudioComplex(Complex(lRe, lIm), Complex(rRe, rIm));
      out := Cqt(sum.left, sum.right,
                 Perceptual(m, sum.left, capacity * decimation, iso226Offset),
                 Perceptual(m, sum.right, capacity * decimation, iso226Offset),
                 center, m.powf(10.0, iso226Offset / 10.0));
    }
  }

  /** No bin appears twice. */
  predicate Distinct(bins: seq<CqtBin>)
  {
    forall i, j :: 0 <= i < j < |bins| ==> bins[i] != bins[j]
  }

  /** Bins are distinct objects, each valid. */
  ghost predicate BinsValid(bins: seq<CqtBin>)
    reads bins
  {
    Distinct(bins) && forall i :: 0 <= i < |bins| ==> bins[i].Valid()
  }

  /** The bins' states, in order. */
  ghost function States(bins: seq<CqtBin>): (r: seq<BinState>)
    reads bins
    ensures |r| == |bins| && forall i :: 0 <= i < |bins| ==> r[i] == bins[i].State()
  {
    seq(|bins|, i requires 0 <= i < |bins| reads bins => bins[i].State())
  }

  class CqtNode {
    const bins: seq<CqtBin>
    const q: real
    const output: array<Cqt>

    ghost predicate Valid()
      reads this, bins
    {
      BinsValid(bins) && output.Length == |bins|
    }

    /** The node over bins that were already laid out. */
    constructor (bins: seq<CqtBin>, q: real, default: Cqt)
      requires BinsValid(bins)
      ensures Valid() && this.bins == bins && this.q == q && fresh(output)
    {
      this.bins := bins;
      this.q := q;
      output := new Cqt[|bins|](_ => default);
    }

    /** `resolution`: the number of bins, which is also the number of outputs. */
    function Resolution(): (r: nat)
      reads this, bins
      requires Valid()
      ensures r == output.Length
    {
      |bins|
    }

    /** One bin of `CqtNode::consume`: bin `i` consumes the input, the other bins are untouched. */
    method ConsumeBin(m: Math, i: nat, incoming: seq<Audio>, ghost before: seq<BinState>)
      requires Valid() && i < |bins| && |before| == |bins|
      requires forall j :: 0 <= j < |bins| ==> bins[j].Fits(before[j]) && bins[j].Accepts(before[j], incoming)
      requires forall j :: 0 <= j < i ==> bins[j].State() == bins[j].NextStateAsWritten(m, before[j], incoming)
      requires forall j :: i <= j < |bins| ==> bins[j].State() == before[j]
      modifies bins[i]
      ensures Valid()
      ensures forall j :: 0 <= j < i + 1 ==> bins[j].State() == bins[j].NextStateAsWritten(m, before[j], incoming)
      ensures forall j :: i + 1 <= j < |bins| ==> bins[j].State() == before[j]
    {
      bins[i].Consume(m, incoming);
      forall j | 0 <= j < |bins| && j != i
        ensures bins[j].State() == old(bins[j].State()) && bins[j].Valid() == old(bins[j].Valid())
      {
        assert bins[j] != bins[i];
      }
    }

    /** `CqtNode::consume`: every bin consumes the same fresh part of the input. */
    method Consume(m: Math, input: GraphBuffer<Audio>)
      requires Valid() && input.Valid()
      requires forall i :: 0 <= i < |bins| ==> bins[i].Accepts(bins[i].State(), input.Fresh())
      modifies bins
      ensures Valid()
      ensures forall i :: 0 <= i < |bins| ==> bins[i].State() == bins[i].NextStateAsWritten(m, old(bins[i].State()), old(input.Fresh()))
    {
      var incoming := input.Fresh();
      ghost var before := States(bins);
      var i := 0;
      while i < |bins|
        invariant 0 <= i <= |bins| && Valid()
        invariant forall j :: 0 <= j < i ==> bins[j].State() == bins[j].NextStateAsWritten(m, before[j], incoming)
        invariant forall j :: i <= j < |bins| ==> bins[j].State() == before[j]
      {
        ConsumeBin(m, i, incoming, before);
        i := i + 1;
      }
    }

    /** `CqtNode::produce`: overwrites each output with its bin's output. */
    method Produce(m: Math) returns (out: array<Cqt>)
      requires Valid()
      modifies output
      ensures out == output
      ensures forall i :: 0 <= i < |bins| ==> output[i] == bins[i].Output(m)
    {
      var i := 0;
      while i < output.Length
        invariant 0 <= i <= output.Length
        invariant forall j :: 0 <= j < i ==> output[j] == bins[j].Output(m)
      {
        output[i] := bins[i].Produce(m);
        i := i + 1;
      }
      out := output;
    }
  }
}
