/**
 * The K-weighting node: each channel passes through the pre-filter of ITU-R BS.1770-5, Annex 1, a
 * high-shelf stage (Table 1) followed by the RLB high-pass stage (Table 2), at 48 kHz.
 */
module KWeight {
  import opened Common
  import opened Graph
  import opened RawAudio

  /** Direct-form-I coefficients, `a0` being 1. */
  datatype Coefficients = Coefficients(a1: real, a2: real, b0: real, b1: real, b2: real)

  /** Stage 1, the shelving filter (Table 1). */
  const Shelf: Coefficients := Coefficients(-1.69065929318241, 0.73248077421585, 1.53512485958697, -2.69169618940638, 1.19839281085285)

  /** Stage 2, the RLB high-pass filter (Table 2). */
  const Highpass: Coefficients := Coefficients(-1.99004745483398, 0.99007225036621, 1.0, -2.0, 1.0)

  /** The last two inputs and outputs of a biquad. */
  datatype History = History(x1: real, x2: real, y1: real, y2: real)

  const Silent: History := History(0.0, 0.0, 0.0, 0.0)

  /** The difference equation: this output from the input and the history. */
  function Output(c: Coefficients, h: History, x: real): real
  {
    c.b0 * x + c.b1 * h.x1 + c.b2 * h.x2 - c.a1 * h.y1 - c.a2 * h.y2
  }

  /** The history after input `x` produced output `y`. */
  function Shift(h: History, x: real, y: real): (r: History)
    ensures r.x2 == h.x1 && r.y2 == h.y1 && r.x1 == x && r.y1 == y
  {
    History(x, h.x1, y, h.y1)
  }

  /** One biquad run over a signal from history `h`: its outputs and its final history. */
  function Filter(c: Coefficients, h: History, xs: seq<real>): (r: (seq<real>, History))
    ensures |r.0| == |xs|
  {
    if xs == [] then ([], h)
    else
      var prev := Filter(c, h, xs[..|xs| - 1]);
      var y := Output(c, prev.1, xs[|xs| - 1]);
      (prev.0 + [y], Shift(prev.1, xs[|xs| - 1], y))
  }

  /** One sample of a channel: the shelf's output goes into the high-pass; both histories shift. */
  function ChannelStep(s: History, h: History, x: real): (r: (real, History, History))
  {
    var u := Output(Shelf, s, x);
    var y := Output(Highpass, h, u);
    (y, Shift(s, x, u), Shift(h, u, y))
  }

  /** One channel of the node: the shelf, then the high-pass, sample by sample. */
  function Channel(s: History, h: History, xs: seq<real>): (r: (seq<real>, History, History))
    ensures |r.0| == |xs|
  {
    if xs == [] then ([], s, h)
    else
      var prev := Channel(s, h, xs[..|xs| - 1]);
      var step := ChannelStep(prev.1, prev.2, xs[|xs| - 1]);
      (prev.0 + [step.0], step.1, step.2)
  }

  /** A channel is the high-pass filter applied to the shelf filter's output. */
  lemma {:induction false} ChannelIsCascade(s: History, h: History, xs: seq<real>)
    ensures var shelf := Filter(Shelf, s, xs);
      var high := Filter(Highpass, h, shelf.0);
      Channel(s, h, xs) == (high.0, shelf.1, high.1)
  {
    if xs != [] {
      var init := xs[..|xs| - 1];
      ChannelIsCascade(s, h, init);
      var shelf := Filter(Shelf, s, init);
      var u := Output(Shelf, shelf.1, xs[|xs| - 1]);
      assert Filter(Shelf, s, xs).0 == shelf.0 + [u];
      assert (shelf.0 + [u])[..|shelf.0|] == shelf.0;
    }
  }

  /** A channel over one more sample: the shelf sees the sample, the high-pass the shelf's output. */
  lemma ChannelExtend(s: History, h: History, xs: seq<real>, i: nat)
    requires i < |xs|
    ensures var prev := Channel(s, h, xs[..i]);
      var step := ChannelStep(prev.1, prev.2, xs[i]);
      Channel(s, h, xs[..i + 1]) == (prev.0 + [step.0], step.1, step.2)
  {
    assert xs[..i + 1][..i] == xs[..i];
  }

  function Zeros(n: nat): (z: seq<real>)
    ensures |z| == n && forall i :: 0 <= i < n ==> z[i] == 0.0
  {
    seq(n, _ => 0.0)
  }

  /** Silence into a silent filter gives silence and leaves it silent. */
  lemma {:induction false} SilenceStaysSilent(c: Coefficients, n: nat)
    ensures Filter(c, Silent, Zeros(n)) == (Zeros(n), Silent)
  {
    if n > 0 {
      assert Zeros(n)[..n - 1] == Zeros(n - 1);
      SilenceStaysSilent(c, n - 1);
      assert Zeros(n - 1) + [0.0] == Zeros(n);
    }
  }

  function Lefts(s: seq<Audio>): (r: seq<real>)
    ensures |r| == |s| && forall i :: 0 <= i < |s| ==> r[i] == s[i].left
  {
    seq(|s|, i requires 0 <= i < |s| => s[i].left)
  }

  function Rights(s: seq<Audio>): (r: seq<real>)
    ensures |r| == |s| && forall i :: 0 <= i < |s| ==> r[i] == s[i].right
  {
    seq(|s|, i requires 0 <= i < |s| => s[i].right)
  }

  function Zip(l: seq<real>, r: seq<real>): (z: seq<Audio>)
    requires |l| == |r|
    ensures |z| == |l| && forall i :: 0 <= i < |l| ==> z[i] == Audio(l[i], r[i])
  {
    seq(|l|, i requires 0 <= i < |l| => Audio(l[i], r[i]))
  }

  /** A biquad whose history its `process` updates in place. */
  class Biquad {
    const coeffs: Coefficients
    var x1: real
    var x2: real
    var y1: real
    var y2: real

    function State(): History
      reads this
    {
      History(x1, x2, y1, y2)
    }

    /** A filter with these coefficients and a silent history. */
    constructor (c: Coefficients)
      ensures coeffs == c && State() == Silent
    {
      coeffs := c;
      x1, x2, y1, y2 := 0.0, 0.0, 0.0, 0.0;
    }

    /** Filters one sample and shifts the history by one. */
    method Process(x: real) returns (y: real)
      modifies this
      ensures y == Output(coeffs, old(State()), x)
      ensures State() == Shift(old(State()), x, y)
    {
      y := coeffs.b0 * x + coeffs.b1 * x1 + coeffs.b2 * x2 - coeffs.a1 * y1 - coeffs.a2 * y2;
      x2 := x1;
      x1 := x;
      y2 := y1;
      y1 := y;
    }
  }

  class KWeightsNode {
    const leftShelf: Biquad
    const leftHighpass: Biquad
    const rightShelf: Biquad
    const rightHighpass: Biquad
    const output: GraphBuffer<Audio>

    ghost predicate Valid()
      reads this, output
    {
      && leftShelf != leftHighpass && leftShelf != rightShelf && leftShelf != rightHighpass
      && leftHighpass != rightShelf && leftHighpass != rightHighpass && rightShelf != rightHighpass
      && leftShelf.coeffs == Shelf && rightShelf.coeffs == Shelf
      && leftHighpass.coeffs == Highpass && rightHighpass.coeffs == Highpass
      && output.Valid() && output.data.Length == BufferSamples
    }

    constructor ()
      ensures Valid() && fresh(output) && fresh(output.data)
      ensures leftShelf.State() == Silent && leftHighpass.State() == Silent
      ensures rightShelf.State() == Silent && rightHighpass.State() == Silent
      ensures output.data[..] == seq(BufferSamples, _ => Audio(0.0, 0.0)) && output.offset == 0
    {
      leftShelf := new Biquad(Shelf);
      leftHighpass := new Biquad(Highpass);
      rightShelf := new Biquad(Shelf);
      rightHighpass := new Biquad(Highpass);
      output := new GraphBuffer(BufferSamples, Audio(0.0, 0.0));
    }

    /**
     * Filters the fresh part of `input` into the tail of the output buffer, through
     * `writeable_slice` as the buffer defines it: the filtered samples fill the last `n` slots
     * after the older data moved down, and the stored offset is `n` itself, so `Fresh()` is the
     * last `BufferSamples - n` values rather than the `n` just written (see
     * `Graph.SliceOffsetAgreesOnlyAtHalf`). The left and right channels each keep their own two
     * filters. An empty fresh part changes nothing.
     */
    method Consume(input: GraphBuffer<Audio>)
      requires Valid() && input.Valid() && input != output
      requires |input.Fresh()| <= BufferSamples
      modifies leftShelf, leftHighpass, rightShelf, rightHighpass, output, output.data
      ensures Valid()
      ensures old(input.Fresh()) == [] ==>
        && output.data[..] == old(output.data[..]) && output.offset == old(output.offset)
        && leftShelf.State() == old(leftShelf.State()) && leftHighpass.State() == old(leftHighpass.State())
        && rightShelf.State() == old(rightShelf.State()) && rightHighpass.State() == old(rightHighpass.State())
      ensures old(input.Fresh()) != [] ==>
        var n := |old(input.Fresh())|;
        var left := Channel(old(leftShelf.State()), old(leftHighpass.State()), Lefts(old(input.Fresh())));
        var right := Channel(old(rightShelf.State()), old(rightHighpass.State()), Rights(old(input.Fresh())));
        && output.data[..] == old(output.data[..])[n..] + Zip(left.0, right.0)
        && output.offset == SliceOffsetAsWritten(BufferSamples, n) == n
        && |output.Fresh()| == BufferSamples - n
        && leftShelf.State() == left.1 && leftHighpass.State() == left.2
        && rightShelf.State() == right.1 && rightHighpass.State() == right.2
    {
      var incoming := input.Fresh();
      if |incoming| > 0 {
        var start := output.WriteableSlice(|incoming|);
        FilterInto(incoming, start);
        assert output.data[..] == output.data[..start] + output.data[start..];
      }
    }

    /**
     * `Consume` over `WriteableSliceCorrected`: the output's fresh part becomes exactly the
     * filtered samples; the left and right channels each keep their own two filters. An
     * empty fresh part changes nothing.
     */
    method ConsumeCorrected(input: GraphBuffer<Audio>)
      requires Valid() && input.Valid() && input != output
      requires |input.Fresh()| <= BufferSamples
      modifies leftShelf, leftHighpass, rightShelf, rightHighpass, output, output.data
      ensures Valid()
      ensures old(input.Fresh()) == [] ==>
        && output.data[..] == old(output.data[..]) && output.offset == old(output.offset)
        && leftShelf.State() == old(leftShelf.State()) && leftHighpass.State() == old(leftHighpass.State())
        && rightShelf.State() == old(rightShelf.State()) && rightHighpass.State() == old(rightHighpass.State())
      ensures old(input.Fresh()) != [] ==>
        var left := Channel(old(leftShelf.State()), old(leftHighpass.State()), Lefts(old(input.Fresh())));
        var right := Channel(old(rightShelf.State()), old(rightHighpass.State()), Rights(old(input.Fresh())));
        && output.Recycled() == old(output.data[..])[|old(input.Fresh())|..]
        && output.Fresh() == Zip(left.0, right.0)
        && leftShelf.State() == left.1 && leftHighpass.State() == left.2
        && rightShelf.State() == right.1 && rightHighpass.State() == right.2
    {
      var incoming := input.Fresh();
      if |incoming| > 0 {
        var start := output.WriteableSliceCorrected(|incoming|);
        FilterInto(incoming, start);
      }
    }

    /** One stereo sample: each side through its shelf, then its high-pass. */
    method FilterSample(x: Audio) returns (y: Audio)
      requires Valid()
      modifies leftShelf, leftHighpass, rightShelf, rightHighpass
      ensures Valid()
      ensures var left := ChannelStep(old(leftShelf.State()), old(leftHighpass.State()), x.left);
        var right := ChannelStep(old(rightShelf.State()), old(rightHighpass.State()), x.right);
        && y == Audio(left.0, right.0)
        && leftShelf.State() == left.1 && leftHighpass.State() == left.2
        && rightShelf.State() == right.1 && rightHighpass.State() == right.2
    {
      var left := leftShelf.Process(x.left);
      var right := rightShelf.Process(x.right);
      var outLeft := leftHighpass.Process(left);
      var outRight := rightHighpass.Process(right);
      y := Audio(outLeft, outRight);
    }

    /** The loop of `consume`: filters every sample into the output array from index `start` on. */
    method FilterInto(incoming: seq<Audio>, start: nat)
      requires Valid()
      requires start + |incoming| == output.data.Length
      modifies leftShelf, leftHighpass, rightShelf, rightHighpass, output.data
      ensures Valid()
      ensures var left := Channel(old(leftShelf.State()), old(leftHighpass.State()), Lefts(incoming));
        var right := Channel(old(rightShelf.State()), old(rightHighpass.State()), Rights(incoming));
        && output.data[..start] == old(output.data[..start])
        && output.data[start..] == Zip(left.0, right.0)
        && leftShelf.State() == left.1 && leftHighpass.State() == left.2
        && rightShelf.State() == right.1 && rightHighpass.State() == right.2
    {
      ghost var ls0, lh0 := leftShelf.State(), leftHighpass.State();
      ghost var rs0, rh0 := rightShelf.State(), rightHighpass.State();
      ghost var lefts, rights := Lefts(incoming), Rights(incoming);
      ghost var lys: seq<real>, rys: seq<real> := [], [];
      ghost var front := output.data[..start];
      var i := 0;
      while i < |incoming|
        invariant 0 <= i <= |incoming|
        invariant output.data[..start] == front
        invariant Channel(ls0, lh0, lefts[..i]) == (lys, leftShelf.State(), leftHighpass.State())
        invariant Channel(rs0, rh0, rights[..i]) == (rys, rightShelf.State(), rightHighpass.State())
        invariant output.data[start..start + i] == Zip(lys, rys)
      {
        ChannelExtend(ls0, lh0, lefts, i);
        ChannelExtend(rs0, rh0, rights, i);
        var y := FilterSample(incoming[i]);
        output.data[start + i] := y;
        lys, rys := lys + [y.left], rys + [y.right];
        assert output.data[start..start + i + 1] == output.data[start..start + i] + [y];
        i := i + 1;
      }
      assert lefts[..|incoming|] == lefts && rights[..|incoming|] == rights;
      assert output.data[start..start + |incoming|] == output.data[start..];
    }

    /** The node always reports its output buffer as entirely fresh data. */
    method Produce() returns (intent: EventIntent, buffer: GraphBuffer<Audio>)
      ensures intent == Full && buffer == output
    {
      return Full, output;
    }
  }
}
