/**
 * Equal-loudness correction after ISO 226:2023: the parameters of Table 1 (frequency, exponent of
 * loudness perception `af`, threshold of hearing `tf`, magnitude of the linear transfer function
 * `lu`), interpolated linearly between rows and clamped at the ends, and the gain that maps a level
 * on the 70-phon curve at some frequency to the level the same loudness has at 1 kHz.
 */
module Iso226 {
  import opened Common
  import opened Float
  import AudioContext

  const CurvePhons: real := 70.0

  /** The reference frequency of the gain, 1 kHz. */
  const ReferenceFreq: real := 1000.0

  const Freq: seq<real> := [
    20.0, 25.0, 31.5, 40.0, 50.0, 63.0, 80.0, 100.0, 125.0, 160.0, 200.0, 250.0, 315.0, 400.0,
    500.0, 630.0, 800.0, 1000.0, 1250.0, 1600.0, 2000.0, 2500.0, 3150.0, 4000.0, 5000.0, 6300.0,
    8000.0, 10000.0, 12500.0]

  const Af: seq<real> := [
    0.635, 0.602, 0.569, 0.537, 0.509, 0.482, 0.456, 0.433, 0.412, 0.391, 0.373, 0.357, 0.343,
    0.330, 0.320, 0.311, 0.303, 0.300, 0.295, 0.292, 0.290, 0.290, 0.289, 0.289, 0.289, 0.293,
    0.303, 0.323, 0.354]

  const Lu: seq<real> := [
    -31.5, -27.2, -23.1, -19.3, -16.1, -13.1, -10.4, -8.2, -6.3, -4.6, -3.2, -2.1, -1.2, -0.5, 0.0,
    0.4, 0.5, 0.0, -2.7, -4.2, -1.2, 1.4, 2.3, 1.0, -2.3, -7.2, -11.2, -10.9, -3.5]

  const Tf: seq<real> := [
    78.1, 68.7, 59.5, 51.1, 44.0, 37.5, 31.5, 26.5, 22.1, 17.9, 14.4, 11.4, 8.6, 6.2, 4.4, 3.0,
    2.2, 2.4, 3.5, 1.7, -1.3, -4.2, -6.0, -5.4, -1.5, 6.0, 12.6, 13.9, 12.3]

  /** The three parameters, in the order of the table's columns. */
  datatype Params = Params(af: real, tf: real, lu: real)

  /** A parameter table: a frequency column and the three parameter columns. */
  datatype Table = Table(freq: seq<real>, af: seq<real>, tf: seq<real>, lu: seq<real>)

  /** Columns of one length, at least two rows, frequencies strictly increasing. */
  ghost predicate WellFormed(t: Table)
  {
    && |t.freq| >= 2 && |t.af| == |t.freq| && |t.tf| == |t.freq| && |t.lu| == |t.freq|
    && forall i :: 0 <= i < |t.freq| - 1 ==> t.freq[i] < t.freq[i + 1]
  }

  function Row(t: Table, i: nat): Params
    requires WellFormed(t) && i < |t.freq|
  {
    Params(t.af[i], t.tf[i], t.lu[i])
  }

  function Last(t: Table): nat
    requires WellFormed(t)
  {
    |t.freq| - 1
  }

  predicate Between(v: real, a: real, b: real) { MinR(a, b) <= v <= MaxR(a, b) }

  /** `freq` lies in the interval `[freq[j], freq[j + 1])` of the table. */
  predicate InInterval(t: Table, freq: real, j: int)
  {
    0 <= j < |t.freq| - 1 && t.freq[j] <= freq < t.freq[j + 1]
  }

  /** Table 1 of ISO 226:2023. */
  const Table1: Table := Table(Freq, Af, Tf, Lu)

  /** Table 1 is well formed, and its exponent column is at least 0.289 throughout. */
  lemma Table1WellFormed()
    ensures WellFormed(Table1) && Last(Table1) == 28
    ensures Table1.freq[0] == 20.0 && Table1.freq[28] == 12500.0 && Table1.freq[17] == 1000.0
    ensures forall i :: 0 <= i < 29 ==> Table1.af[i] >= 0.289
  {
  }

  /** The frequencies of a well-formed table are strictly increasing, not only pairwise adjacent. */
  lemma {:induction false} FreqIncreasing(t: Table, i: nat, j: nat)
    requires WellFormed(t) && i < j < |t.freq|
    ensures t.freq[i] < t.freq[j]
    decreases j - i
  {
    if i + 1 < j {
      FreqIncreasing(t, i + 1, j);
    }
  }

  /** The loop of `interpolate_table` from `i` on: the first interval from `i` that holds `freq`. */
  function FindInterval(t: Table, freq: real, i: nat): (r: Option<nat>)
    requires WellFormed(t) && i <= Last(t)
    ensures r.Some? ==> i <= r.value && InInterval(t, freq, r.value)
    ensures r.None? ==> forall j :: i <= j ==> !InInterval(t, freq, j)
    decreases Last(t) - i
  {
    if i == Last(t) then None
    else if t.freq[i] <= freq < t.freq[i + 1] then Some(i)
    else FindInterval(t, freq, i + 1)
  }

  /** A frequency lies in exactly one interval, which the loop finds. */
  lemma IntervalUnique(t: Table, freq: real, i: int, j: int)
    requires WellFormed(t) && InInterval(t, freq, i) && InInterval(t, freq, j)
    ensures i == j
  {
    if i < j {
      FreqIncreasing(t, i + 1, j);
    } else if j < i {
      FreqIncreasing(t, j + 1, i);
    }
  }

  /** A frequency at or above the first entry and below the last one lies in some interval. */
  lemma {:induction false} IntervalExists(t: Table, freq: real, i: nat)
    requires WellFormed(t) && i < Last(t) && t.freq[i] <= freq < t.freq[Last(t)]
    ensures FindInterval(t, freq, i).Some?
    decreases Last(t) - i
  {
    if !(freq < t.freq[i + 1]) {
      IntervalExists(t, freq, i + 1);
    }
  }

  /**
   * The search loop of `interpolate_table`: the first interval holding `freq`. Between the first
   * and the last frequency it always finds one, so `unreachable!()` is never reached.
   */
  method SearchInterval(t: Table, freq: real) returns (r: Option<nat>)
    requires WellFormed(t)
    ensures r == FindInterval(t, freq, 0)
    ensures t.freq[0] <= freq < t.freq[Last(t)] ==> r.Some? && InInterval(t, freq, r.value)
  {
    if t.freq[0] <= freq < t.freq[Last(t)] {
      IntervalExists(t, freq, 0);
    }
    var i := 0;
    while i < Last(t)
      invariant i <= Last(t)
      invariant FindInterval(t, freq, i) == FindInterval(t, freq, 0)
      decreases Last(t) - i
    {
      if t.freq[i] <= freq < t.freq[i + 1] {
        return Some(i);
      }
      i := i + 1;
    }
    return None;
  }

  lemma MulNonNegative(x: real, y: real)
    requires 0.0 <= x && 0.0 <= y
    ensures 0.0 <= x * y
  {
  }

  /** Linear interpolation with a fraction in [0, 1] stays between its end points. */
  lemma LerpBetween(a: real, b: real, k: real)
    requires 0.0 <= k <= 1.0
    ensures Between((b - a) * k + a, a, b)
  {
    var d := if a <= b then b - a else a - b;
    MulNonNegative(d, k);
    MulNonNegative(d, 1.0 - k);
    assert d * (1.0 - k) == d - d * k;
    if a <= b {
      assert (b - a) * k == d * k;
    } else {
      assert (b - a) * k == -(d * k);
    }
  }

  /** Interpolates rows `j` and `j + 1` at `freq`. */
  function Interpolate(t: Table, freq: real, j: nat): (r: Params)
    requires WellFormed(t) && InInterval(t, freq, j)
    ensures Between(r.af, t.af[j], t.af[j + 1])
    ensures Between(r.tf, t.tf[j], t.tf[j + 1])
    ensures Between(r.lu, t.lu[j], t.lu[j + 1])
    ensures freq == t.freq[j] ==> r == Row(t, j)
  {
    var width := t.freq[j + 1] - t.freq[j];
    var k := (freq - t.freq[j]) / width;
    assert k * width == freq - t.freq[j];
    assert 0.0 <= k <= 1.0 by {
      if k < 0.0 { MulNonNegative(-k, width); }
      if k > 1.0 { MulNonNegative(k - 1.0, width); }
    }
    LerpBetween(t.af[j], t.af[j + 1], k);
    LerpBetween(t.tf[j], t.tf[j + 1], k);
    LerpBetween(t.lu[j], t.lu[j + 1], k);
    Params((t.af[j + 1] - t.af[j]) * k + t.af[j], (t.tf[j + 1] - t.tf[j]) * k + t.tf[j], (t.lu[j + 1] - t.lu[j]) * k + t.lu[j])
  }

  /**
   * `interpolate_table` over a table: clamped to the first row at or below the first frequency and
   * to the last row at or above the last one, interpolated within the one interval that holds the
   * frequency otherwise.
   */
  function Lookup(t: Table, freq: real): (r: Params)
    requires WellFormed(t)
    ensures freq <= t.freq[0] ==> r == Row(t, 0)
    ensures freq >= t.freq[Last(t)] ==> r == Row(t, Last(t))
    ensures forall j :: InInterval(t, freq, j) ==>
      Between(r.af, t.af[j], t.af[j + 1]) && Between(r.tf, t.tf[j], t.tf[j + 1]) && Between(r.lu, t.lu[j], t.lu[j + 1])
  {
    if freq <= t.freq[0] then
      FreqIncreasing(t, 0, Last(t));
      assert forall j :: InInterval(t, freq, j) ==> j == 0 by {
        forall j | InInterval(t, freq, j) ensures j == 0 {
          if j > 0 { FreqIncreasing(t, 0, j); }
        }
      }
      Row(t, 0)
    else if freq >= t.freq[Last(t)] then
      assert forall j :: !InInterval(t, freq, j) by {
        forall j | InInterval(t, freq, j) ensures false {
          if j + 1 < Last(t) { FreqIncreasing(t, j + 1, Last(t)); }
        }
      }
      Row(t, Last(t))
    else
      IntervalExists(t, freq, 0);
      var j := FindInterval(t, freq, 0).value;
      assert forall i :: InInterval(t, freq, i) ==> i == j by {
        forall i | InInterval(t, freq, i) ensures i == j {
          IntervalUnique(t, freq, i, j);
        }
      }
      Interpolate(t, freq, j)
  }

  /** At a frequency of the table, the result is that row exactly. */
  lemma TableFrequencyGivesRow(t: Table, i: nat)
    requires WellFormed(t) && i < |t.freq|
    ensures Lookup(t, t.freq[i]) == Row(t, i)
  {
    if 0 < i < Last(t) {
      FreqIncreasing(t, 0, i);
      FreqIncreasing(t, i, Last(t));
      var j := FindInterval(t, t.freq[i], 0);
      IntervalExists(t, t.freq[i], 0);
      IntervalUnique(t, t.freq[i], i, j.value);
    }
  }

  /** `interpolate_table` itself, on Table 1. */
  function InterpolateTable(freq: real): (r: Params)
    ensures r.af >= 0.289
    ensures freq <= 20.0 ==> r == Params(Af[0], Tf[0], Lu[0])
    ensures freq >= 12500.0 ==> r == Params(Af[28], Tf[28], Lu[28])
  {
    Table1WellFormed();
    var r := Lookup(Table1, freq);
    assert r.af >= 0.289 by {
      if Table1.freq[0] < freq < Table1.freq[28] {
        IntervalExists(Table1, freq, 0);
        var j := FindInterval(Table1, freq, 0).value;
        assert Table1.af[j] >= 0.289 && Table1.af[j + 1] >= 0.289;
      }
    }
    r
  }

  /** The loudness term `A_f` of the 70-phon curve for the parameters `p`. */
  function AfTotal(m: Math, p: Params): real
  {
    var afPart := m.powf(0.4 * m.powf(10.0, (p.tf + p.lu) / 10.0 - 9.0), p.af);
    4.47 / 1000.0 * (m.powf(10.0, 0.025 * CurvePhons) - 1.15) + afPart
  }

  /**
   * The sound pressure level of the 70-phon curve for the parameters `p`: the level `L` with
   * `10^((L + lu - 94) * af / 10) == A_f`, so raising ten to it recovers the loudness term.
   */
  function Spl(m: Math, p: Params): (r: real)
    requires p.af > 0.0
    ensures Log10Inverse(m) && AfTotal(m, p) > 0.0 ==>
      m.powf(10.0, (r + p.lu - 94.0) * p.af / 10.0) == AfTotal(m, p)
  {
    var l := m.log10(AfTotal(m, p));
    var r := (10.0 / p.af) * l - p.lu + 94.0;
    assert (r + p.lu - 94.0) * p.af / 10.0 == l by {
      assert r + p.lu - 94.0 == (10.0 / p.af) * l;
      assert (10.0 / p.af) * p.af == 10.0;
    }
    assert Log10Inverse(m) && AfTotal(m, p) > 0.0 ==> m.powf(10.0, l) == AfTotal(m, p);
    r
  }

  /**
   * `iso226_phon2spl`: the sound pressure level of the 70-phon curve at `freq`, flat outside the
   * table: at or below 20 Hz the level of the first row of Table 1, at or above 12.5 kHz that of
   * the last row.
   */
  function Phon2Spl(m: Math, freq: real): (r: real)
    ensures freq <= 20.0 ==> r == Spl(m, Params(0.635, 78.1, -31.5))
    ensures freq >= 12500.0 ==> r == Spl(m, Params(0.354, 12.3, -3.5))
  {
    Spl(m, InterpolateTable(freq))
  }

  /**
   * `iso226_gain`: the dB to add at `freq` so that a level on the 70-phon curve maps to the level
   * of the same loudness at 1 kHz. It never fails, and is zero at 1 kHz.
   */
  function Gain(m: Math, freq: real): (r: Result<real, AudioContext.MutateError>)
    ensures r.Ok?
    ensures freq == ReferenceFreq ==> r.value == 0.0
  {
    Ok(Phon2Spl(m, ReferenceFreq) - Phon2Spl(m, freq))
  }

  /** Above 12.5 kHz, and below 20 Hz, the gain is flat. */
  lemma GainClamped(m: Math, f1: real, f2: real)
    requires (f1 >= 12500.0 && f2 >= 12500.0) || (f1 <= 20.0 && f2 <= 20.0)
    ensures Gain(m, f1) == Gain(m, f2)
  {
    assert Phon2Spl(m, f1) == Phon2Spl(m, f2);
    assert Gain(m, f1).value == Gain(m, f2).value;
  }
}
