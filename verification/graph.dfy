/**
 * The buffers nodes of the audio graph hand to each other. A `GraphBuffer` is a flat array whose
 * tail, from `offset` on, holds the data written by the last write ("fresh"), and whose head holds
 * older data kept so that the array is always full of valid values ("recycled").
 */
module Graph {
  import opened Common

  /** How a downstream node should interpret an event. */
  datatype EventIntent = Duplicate | Invalid | Full | Partial | Seek

  /**
   * What the array holds after writing `incoming` over `data`: the `n` oldest values leave the front,
   * the remaining ones move to the head, and the first `n` values of `incoming` fill the tail, where
   * `n` is the length of `incoming` capped at the buffer length.
   */
  function Shifted<T>(data: seq<T>, incoming: seq<T>): (r: seq<T>)
    ensures |r| == |data|
  {
    var n := Min(|incoming|, |data|);
    data[n..] + incoming[..n]
  }

  /** What the array holds after `writeable_slice(size)` moved its contents ahead of a `size` write. */
  function ShiftedForSlice<T>(data: seq<T>, size: nat): (r: seq<T>)
    ensures |r| == |data|
  {
    var n := Min(size, |data|);
    data[n..] + data[|data| - n..]
  }

  /** The offset `writeable_slice(size)` stores, as written: the capped size itself. */
  function SliceOffsetAsWritten(len: nat, size: nat): nat
  {
    Min(size, len)
  }

  /** The offset that marks exactly the returned slice of `size` elements as fresh. */
  function SliceOffsetCorrected(len: nat, size: nat): nat
  {
    len - Min(size, len)
  }

  /**
   * The offset `writeable_slice` stores marks the written tail as fresh only when the capped size
   * is exactly half the buffer: for every other size `fresh()` is too long or too short.
   */
  lemma SliceOffsetAgreesOnlyAtHalf(len: nat, size: nat)
    ensures SliceOffsetAsWritten(len, size) == SliceOffsetCorrected(len, size) <==> 2 * Min(size, len) == len
  {
  }

  /** A concrete instance: an 800-sample buffer, a 100-sample slice, a 700-sample `fresh()`. */
  lemma SliceOffsetCounterexample()
    ensures 800 - SliceOffsetAsWritten(800, 100) == 700
    ensures 800 - SliceOffsetCorrected(800, 100) == 100
  {
  }

  /** A buffer read and written by graph nodes. */
  class GraphBuffer<T> {
    var data: array<T>
    var offset: nat

    ghost predicate Valid()
      reads this
    {
      offset <= data.Length
    }

    /** The values the last write produced. */
    function Fresh(): (s: seq<T>)
      reads this, data
      requires Valid()
      ensures |s| == data.Length - offset
    {
      data[offset..]
    }

    /** Older values kept to keep the buffer full. */
    function Recycled(): (s: seq<T>)
      reads this, data
      requires Valid()
      ensures |s| == offset
      ensures s + Fresh() == data[..]
    {
      data[..offset]
    }

    /** A buffer of `size` default values, none of them fresh. */
    constructor (size: nat, default: T)
      ensures Valid() && fresh(data)
      ensures data[..] == seq(size, _ => default)
      ensures offset == 0
    {
      data := new T[size](_ => default);
      offset := 0;
    }

    /**
     * Writes `incoming` (at most a buffer's worth of it): the older contents move to the head and the
     * written values become exactly the fresh part of the buffer.
     */
    method Write(incoming: seq<T>)
      requires Valid()
      modifies this`offset, data
      ensures Valid()
      ensures data[..] == Shifted(old(data[..]), incoming)
      ensures Fresh() == incoming[..Min(|incoming|, data.Length)]
      ensures Recycled() == old(data[..])[Min(|incoming|, data.Length)..]
    {
      var len := data.Length;
      var n := Min(|incoming|, len);
      var start := len - n;
      if n > 0 {
        ShiftDown(n);
        ghost var shifted := data[..];
        assert shifted[..start] == old(data[..])[n..];
        FillTail(start, incoming[..n]);
        assert data[..] == shifted[..start] + incoming[..n];
      }
      offset := start;
    }

    /** The copy of `write` into the tail: the last `|values|` elements become `values`, the rest stay. */
    method FillTail(start: nat, values: seq<T>)
      requires start + |values| == data.Length
      modifies data
      ensures data[..] == old(data[..])[..start] + values
    {
      var j := 0;
      while j < |values|
        invariant 0 <= j <= |values|
        invariant forall k :: 0 <= k < start ==> data[k] == old(data[k])
        invariant forall k :: 0 <= k < j ==> data[start + k] == values[k]
      {
        data[start + j] := values[j];
        j := j + 1;
      }
      assert data[..] == old(data[..])[..start] + values;
    }

    /**
     * Makes room for a `size`-element write and returns the index at which the writable slice
     * starts, as written: the stored offset is the capped size, not the slice start.
     */
    method WriteableSlice(size: nat) returns (start: nat)
      requires Valid()
      modifies this`offset, data
      ensures Valid()
      ensures start == data.Length - Min(size, data.Length)
      ensures data[..] == ShiftedForSlice(old(data[..]), size)
      ensures offset == SliceOffsetAsWritten(data.Length, size)
    {
      var len := data.Length;
      var n := Min(size, len);
      start := len - n;
      if n > 0 {
        ShiftDown(n);
      }
      offset := n;
      assert data[..] == ShiftedForSlice(old(data[..]), size);
    }

    /**
     * `WriteableSlice` with the offset set to the slice start, so that once the caller fills the
     * slice, `Fresh()` is exactly what it wrote.
     */
    method WriteableSliceCorrected(size: nat) returns (start: nat)
      requires Valid()
      modifies this`offset, data
      ensures Valid()
      ensures start == data.Length - Min(size, data.Length)
      ensures data[..] == ShiftedForSlice(old(data[..]), size)
      ensures offset == start
      ensures |Fresh()| == Min(size, data.Length)
      ensures Recycled() == old(data[..])[Min(size, data.Length)..]
    {
      var len := data.Length;
      var n := Min(size, len);
      start := len - n;
      if n > 0 {
        ShiftDown(n);
      }
      offset := start;
      assert data[..] == ShiftedForSlice(old(data[..]), size);
    }

    /** `copy_within(n..len, 0)`: moves every element `n` places towards the front. */
    method ShiftDown(n: nat)
      requires 0 < n <= data.Length
      modifies data
      ensures forall k :: 0 <= k < data.Length - n ==> data[k] == old(data[k + n])
      ensures forall k :: data.Length - n <= k < data.Length ==> data[k] == old(data[k])
    {
      var i := 0;
      while i < data.Length - n
        invariant 0 <= i <= data.Length - n
        invariant forall k :: 0 <= k < i ==> data[k] == old(data[k + n])
        invariant forall k :: i <= k < data.Length ==> data[k] == old(data[k])
      {
        data[i] := data[i + n];
        i := i + 1;
      }
    }
  }
}
