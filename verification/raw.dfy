/**
 * The raw audio node: it reads interleaved stereo frames out of the capture ring into a graph
 * buffer, pacing itself against how full the ring is. `consume` classifies the ring's fill level,
 * `produce` turns that classification into a read of a given size and an event intent.
 */
module RawAudio {
  import opened Common
  import opened Graph
  import AudioContext

  /** One stereo sample, 8 bytes in the ring. */
  datatype Audio = Audio(left: real, right: real)

  /** `impl Add for Audio`: channel-wise sum. */
  function Add(a: Audio, b: Audio): (c: Audio)
    ensures c.left - a.left == b.left && c.right - a.right == b.right
  {
    Audio(a.left + b.left, a.right + b.right)
  }

  datatype SeekState = OverProduced | OnTime | UnderProduced

  /** Bytes of one video frame's worth of audio: 800 samples of 8 bytes. */
  const FrameBytes: int := 6400

  const SampleBytes: nat := 8

  /** Samples the node's buffer holds. */
  const BufferSamples: nat := 800

  /**
   * The catch-up read of the `UnderProduced` state: half the distance of the ring's bottom from
   * the middle of the allowance, clamped to one frame and rounded down to whole samples.
   */
  function SeekBytes(bottom: int, allowance: int): (r: nat)
    ensures r % 8 == 0 && r <= FrameBytes
    ensures var clamped := if bottom / 2 - allowance / 4 < 0 then 0 else Min(bottom / 2 - allowance / 4, FrameBytes);
      r <= clamped < r + 8
    ensures allowance == 9600 && bottom > allowance ==> 2400 <= r
  {
    var error := bottom / 2 - allowance / 4;
    var clamped: nat := if error < 0 then 0 else Min(error, FrameBytes);
    if clamped % 8 != 0 then (clamped / 8) * 8 else clamped
  }

  /** The number of bytes `produce` asks the ring for in each state. */
  function ReadRequest(state: SeekState, bottom: int, allowance: int, occupied: nat): (r: nat)
    ensures r <= FrameBytes
    ensures state == OverProduced ==> r == Min(occupied, FrameBytes)
    ensures state == OnTime ==> r == FrameBytes
    ensures state == UnderProduced ==> r == SeekBytes(bottom, allowance)
  {
    match state
    case OverProduced => Min(occupied, FrameBytes)
    case UnderProduced => SeekBytes(bottom, allowance)
    case OnTime => FrameBytes
  }

  /** The event intent `produce` reports for the state it started in. */
  function Intent(state: SeekState): (i: EventIntent)
    ensures i == Partial <==> state == OverProduced
    ensures i == Seek <==> state == UnderProduced
    ensures i == Full <==> state == OnTime
  {
    match state
    case OverProduced => Partial
    case UnderProduced => Seek
    case OnTime => Full
  }

  class RawAudioNode {
    const buffer: GraphBuffer<Audio>
    var state: SeekState
    /** The lowest fill level seen before the ring last grew, less one frame. */
    var upstreamBottom: int
    /** The lowest fill level seen since the ring last grew. */
    var upstreamMin: int
    var upstreamAllowance: int
    var bytesRead: nat
    var onTime: bool
    var frames: nat

    ghost predicate Valid()
      reads this, buffer
    {
      && buffer.Valid()
      && buffer.data.Length == BufferSamples
      && upstreamAllowance == 9600
      && 0 <= upstreamBottom
      && 0 <= upstreamMin
      && (state == UnderProduced ==> upstreamBottom > upstreamAllowance)
    }

    /** `RawAudioNode::new` once the source is connected. */
    constructor ()
      ensures Valid() && fresh(buffer) && fresh(buffer.data)
      ensures buffer.data[..] == seq(BufferSamples, _ => Audio(0.0, 0.0)) && buffer.offset == 0
      ensures state == OnTime && upstreamBottom == 0 && upstreamMin == 51200 && upstreamAllowance == 9600
      ensures bytesRead == 0 && !onTime && frames == 0
    {
      buffer := new GraphBuffer(BufferSamples, Audio(0.0, 0.0));
      state := OnTime;
      upstreamBottom := 0;
      upstreamMin := 51200;
      upstreamAllowance := 9600;
      bytesRead := 0;
      onTime := false;
      frames := 0;
    }

    /**
     * Classifies the ring's fill level `occupied`. While the level keeps falling (or the ring is
     * empty) the node is on time if a whole frame is left and over-produced otherwise; once it grows
     * again, the previous minimum less one frame becomes the new bottom, and a bottom above the
     * allowance means the node is under-produced and should catch up.
     */
    method Consume(occupied: nat) returns (r: Result<SeekState, AudioContext.MutateError>)
      requires Valid()
      requires occupied <= AudioContext.RingCapacity
      modifies this`state, this`upstreamMin, this`upstreamBottom
      ensures Valid()
      ensures r == Ok(state)
      ensures upstreamMin == occupied
      ensures occupied < old(upstreamMin) || occupied == 0 ==>
        && upstreamBottom == old(upstreamBottom)
        && (state == OnTime <==> occupied > FrameBytes)
        && (state == OverProduced <==> occupied <= FrameBytes)
      ensures !(occupied < old(upstreamMin) || occupied == 0) ==>
        && upstreamBottom == Max(old(upstreamMin) - FrameBytes, 0)
        && (state == UnderProduced <==> upstreamBottom > upstreamAllowance)
        && (state == OnTime <==> upstreamBottom <= upstreamAllowance)
    {
      var avail := occupied;
      if avail < upstreamMin || avail == 0 {
        upstreamMin := avail;
        if avail > FrameBytes {
          state := OnTime;
        } else {
          state := OverProduced;
        }
      } else {
        upstreamBottom := Max(upstreamMin - FrameBytes, 0);
        upstreamMin := avail;
        if upstreamBottom > upstreamAllowance {
          state := UnderProduced;
        } else {
          state := OnTime;
        }
      }
      r := Ok(state);
    }

    /**
     * Reads from the ring according to the state and writes what it got to the buffer. `occupied`
     * is the ring's fill level and `got` the outcome of the ring read: the samples read, at most
     * the requested bytes' worth, or the read's error. A catch-up read returns the node to `OnTime`.
     */
    method Produce(occupied: nat, got: Result<seq<Audio>, AudioContext.MutateError>)
      returns (r: Result<EventIntent, AudioContext.MutateError>, request: nat)
      requires Valid()
      requires got.Ok? ==> SampleBytes * |got.value| <= ReadRequest(state, upstreamBottom, upstreamAllowance, occupied)
      modifies this`frames, this`bytesRead, this`state, this`onTime, buffer, buffer.data
      ensures Valid()
      ensures frames == old(frames) + 1
      ensures request == ReadRequest(old(state), upstreamBottom, upstreamAllowance, occupied)
      ensures request <= SampleBytes * BufferSamples
      ensures onTime == (old(onTime) || old(state) == OnTime)
      ensures got.Err? ==>
        && r == Err(got.error) && state == old(state) && bytesRead == old(bytesRead)
        && buffer.data[..] == old(buffer.data[..]) && buffer.offset == old(buffer.offset)
      ensures got.Ok? ==>
        && r == Ok(Intent(old(state)))
        && state == (if old(state) == UnderProduced then OnTime else old(state))
        && bytesRead == old(bytesRead) + SampleBytes * |got.value|
        && buffer.data[..] == Shifted(old(buffer.data[..]), got.value)
        && buffer.Fresh() == got.value
    {
      frames := frames + 1;
      request := ReadRequest(state, upstreamBottom, upstreamAllowance, occupied);
      if state == OnTime && !onTime {
        onTime := true;
      }
      if got.Err? {
        return Err(got.error), request;
      }
      var samples := got.value;
      bytesRead := bytesRead + SampleBytes * |samples|;
      buffer.Write(samples);
      assert samples[..Min(|samples|, buffer.data.Length)] == samples;
      r := Ok(Intent(state));
      if state == UnderProduced {
        state := OnTime;
      }
    }
  }
}
