/**
 * The audio colours node: turns a stereo RMS level into a slowly drifting hue, a brightness and a
 * scale. The HSV to RGB conversion is left to the colour library and not modelled; the node's
 * outputs are modelled as the HSV triples it hands to that library.
 */
module Colors {
  import opened Common
  import opened Float
  import RmsNode

  /**
   * The Hill function: `max * x^c / (x^c + half^c)`. It starts at zero, reaches half of `max` at
   * `half` and approaches `max` from below.
   */
  function Hill(m: Math, x: real, half: real, max: real, c: real): (r: real)
    ensures Division(m) && m.powf(x, c) + m.powf(half, c) != 0.0 ==>
      r * (m.powf(x, c) + m.powf(half, c)) == max * m.powf(x, c)
  {
    var tn := m.powf(x, c);
    var q := m.fdiv(tn, tn + m.powf(half, c));
    assert Division(m) && tn + m.powf(half, c) != 0.0 ==> q * (tn + m.powf(half, c)) == tn;
    max * q
  }

  /** The Hill function reaches half of its asymptote at the half point. */
  lemma HillAtHalf(m: Math, half: real, max: real, c: real)
    requires PowfSign(m) && Division(m)
    requires half > 0.0 && c > 0.0
    ensures Hill(m, half, half, max, c) == max / 2.0
  {
    var hn := m.powf(half, c);
    assert hn > 0.0;
    assert Hill(m, half, half, max, c) * (2.0 * hn) == max * hn;
  }

  /** The Hill function starts at zero. */
  lemma HillAtZero(m: Math, half: real, max: real, c: real)
    requires PowfSign(m) && Division(m)
    requires half > 0.0 && c > 0.0
    ensures Hill(m, 0.0, half, max, c) == 0.0
  {
    assert m.powf(0.0, c) == 0.0;
    assert m.powf(half, c) > 0.0;
  }

  /** For a non-negative input and asymptote the Hill function stays in `[0, max)`. */
  lemma HillBounded(m: Math, x: real, half: real, max: real, c: real)
    requires PowfSign(m) && Division(m)
    requires x >= 0.0 && half > 0.0 && max > 0.0 && c > 0.0
    ensures 0.0 <= Hill(m, x, half, max, c) < max
  {
    var tn, hn := m.powf(x, c), m.powf(half, c);
    assert tn >= 0.0 && hn > 0.0;
    var q := tn / (tn + hn);
    assert 0.0 <= q < 1.0 by {
      assert q * (tn + hn) == tn;
    }
    assert max * q < max * 1.0 by {
      assert max * (1.0 - q) > 0.0;
    }
  }

  /**
   * The hue kept in `[0, 1]`: a value already there is kept, any other loses its integer part
   * (`hue - hue.floor()`).
   */
  function WrapHue(x: real): (r: real)
    ensures 0.0 <= r <= 1.0
    ensures 0.0 <= x <= 1.0 ==> r == x
    ensures (x - r).Floor as real == x - r
  {
    if x > 1.0 || x < 0.0 then x - x.Floor as real else x
  }

  /** An HSV colour as handed to the colour library. */
  datatype Hsv = Hsv(hue: real, saturation: real, value: real)

  /** The node's output: the clear colour, its complementary colour, and a scale. */
  datatype AudioColors = AudioColors(clear: Hsv, color: Hsv, scale: real)

  const HalfX: real := 0.08
  const HillMax: real := 1.5
  const HillC: real := 1.2

  class AudioColorsNode {
    var hue: real
    var amplitude: real

    ghost predicate Valid()
      reads this
    {
      0.0 <= hue <= 1.0
    }

    /** `new`: the starting hue is a random draw from `[0, 1)`, passed in. */
    constructor (randomHue: real)
      requires 0.0 <= randomHue < 1.0
      ensures Valid() && hue == randomHue && amplitude == 0.0
    {
      hue := randomHue;
      amplitude := 0.0;
    }

    /**
     * `consume`: the amplitude becomes the Hill function of the channel average, and the hue
     * drifts by `0.01 * (amplitude * 0.2 - 0.5)`, wrapped back into `[0, 1]` whatever it was before.
     */
    method Consume(m: Math, input: RmsNode.Rms)
      modifies this
      ensures Valid()
      ensures amplitude == Hill(m, (input.left + input.right) / 2.0, HalfX, HillMax, HillC)
      ensures hue == WrapHue(old(hue) + 0.01 * (amplitude * 0.2 - 0.5))
      ensures PowfSign(m) && Division(m) && input.left >= 0.0 && input.right >= 0.0 ==> 0.0 <= amplitude < HillMax
    {
      var avg := (input.left + input.right) / 2.0;
      var tweaked := Hill(m, avg, HalfX, HillMax, HillC);
      hue := hue + 0.01 * (tweaked * 0.2 - 0.5);
      if hue > 1.0 || hue < 0.0 {
        hue := hue - hue.Floor as real;
      }
      amplitude := tweaked;
      if PowfSign(m) && Division(m) && input.left >= 0.0 && input.right >= 0.0 {
        HillBounded(m, avg, HalfX, HillMax, HillC);
      }
    }

    /**
     * `produce`: both colours are fully saturated with brightness `amplitude * 0.666667` clamped
     * to `[0, 1]`; the second colour's hue is the complement of the first, 180 degrees away, and
     * lies in `(0, 360]` when the hue is in range.
     */
    function Produce(): (r: AudioColors)
      reads this
      ensures r.clear.value == r.color.value && 0.0 <= r.color.value <= 1.0
      ensures 0.0 <= amplitude * 0.666667 <= 1.0 ==> r.color.value == amplitude * 0.666667
      ensures r.clear.saturation == 1.0 && r.color.saturation == 1.0
      ensures r.clear.hue == hue * 360.0
      ensures r.color.hue - r.clear.hue == 180.0 || r.clear.hue - r.color.hue == 180.0
      ensures Valid() ==> 0.0 < r.color.hue <= 360.0
      ensures r.scale == amplitude * 2.5 - 0.5
    {
      var value := ClampR(amplitude * 0.666667, 0.0, 1.0);
      var trieHue := hue * 360.0 + 180.0;
      var trieHue' := if trieHue > 360.0 then trieHue - 360.0 else trieHue;
      AudioColors(Hsv(hue * 360.0, 1.0, value), Hsv(trieHue', 1.0, value), amplitude * 2.5 - 0.5)
    }
  }
}
