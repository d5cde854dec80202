/** The RMS node: accumulates the squares of the samples it is shown and reports their root mean. */
module RmsNode {
  import opened Graph
  import opened RawAudio
  import opened Float

  datatype Rms = Rms(left: real, right: real)

  /** The sum of the squares of the left samples. */
  function SumSqLeft(s: seq<Audio>): (r: real)
    ensures r >= 0.0
  {
    if s == [] then 0.0 else SumSqLeft(s[..|s| - 1]) + s[|s| - 1].left * s[|s| - 1].left
  }

  /** The sum of the squares of the right samples. */
  function SumSqRight(s: seq<Audio>): (r: real)
    ensures r >= 0.0
  {
    if s == [] then 0.0 else SumSqRight(s[..|s| - 1]) + s[|s| - 1].right * s[|s| - 1].right
  }

  class RmsNode {
    var leftSumSq: real
    var rightSumSq: real
    var n: nat

    ghost predicate Valid()
      reads this
    {
      leftSumSq >= 0.0 && rightSumSq >= 0.0
    }

    constructor ()
      ensures Valid() && leftSumSq == 0.0 && rightSumSq == 0.0 && n == 0
    {
      leftSumSq, rightSumSq, n := 0.0, 0.0, 0;
    }

    /**
     * Takes an event: any intent but `Seek` starts the totals afresh, then the squares of every
     * sample in the buffer (the whole buffer, not only its fresh part) are added and counted.
     */
    method Consume(buffer: GraphBuffer<Audio>, intent: EventIntent)
      requires Valid()
      modifies this
      ensures Valid()
      ensures n == (if intent == Seek then old(n) else 0) + buffer.data.Length
      ensures leftSumSq == (if intent == Seek then old(leftSumSq) else 0.0) + SumSqLeft(buffer.data[..])
      ensures rightSumSq == (if intent == Seek then old(rightSumSq) else 0.0) + SumSqRight(buffer.data[..])
    {
      if intent != Seek {
        n := 0;
        leftSumSq := 0.0;
        rightSumSq := 0.0;
      }
      var data := buffer.data;
      if data.Length > 0 {
        var accL, accR := 0.0, 0.0;
        var i := 0;
        while i < data.Length
          invariant 0 <= i <= data.Length
          invariant accL == SumSqLeft(data[..i]) && accR == SumSqRight(data[..i])
        {
          assert data[..i + 1][..i] == data[..i];
          accL := accL + data[i].left * data[i].left;
          accR := accR + data[i].right * data[i].right;
          i := i + 1;
        }
        assert data[..data.Length] == data[..];
        n := n + data.Length;
        leftSumSq := leftSumSq + accL;
        rightSumSq := rightSumSq + accR;
      }
    }

    /**
     * The mean squares `produce` takes the root of: the totals divided by the sample count, or by
     * one when nothing was counted, so never by zero.
     */
    function MeanSquares(): (ms: (real, real))
      reads this
      requires Valid()
      ensures ms.0 >= 0.0 && ms.1 >= 0.0
      ensures n <= 1 ==> ms == (leftSumSq, rightSumSq)
      ensures ms.0 * (if n <= 1 then 1.0 else n as real) == leftSumSq
      ensures ms.1 * (if n <= 1 then 1.0 else n as real) == rightSumSq
    {
      var count := if n as real > 1.0 then n as real else 1.0;
      (leftSumSq / count, rightSumSq / count)
    }

    /** The root mean square of each channel. */
    function Produce(m: Math): (r: Rms)
      reads this
      requires Valid()
      ensures SqrtNonNegative(m) ==> r.left >= 0.0 && r.right >= 0.0
    {
      Rms(m.sqrt(MeanSquares().0), m.sqrt(MeanSquares().1))
    }
  }
}
