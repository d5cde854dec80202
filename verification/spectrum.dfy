/**
 * The spectrum drawing node: each frame it copies the latest constant-Q bins into a mapped
 * spectrum buffer, runs a compute shader over the output image in 8 x 16 workgroups, copies the
 * result into the render target and hands that back for presentation.
 *
 * The GPU commands are recorded as a list of `Command`s; what the shader computes is not part of
 * this model. Allocation failure is a parameter.
 */
module Spectrum {
  import opened Common
  import opened Float
  import ConstantQ
  import opened Image
  import opened Present

  const WorkgroupSizeX: nat := 8
  const WorkgroupSizeY: nat := 16

  /** The fill counter wraps at 599 bins. */
  const InputWrap: nat := 599

  /** `SpectrumSample`: the processed inputs of the shader for one bin. */
  datatype SpectrumSample = SpectrumSample(leftDecibels: real, leftMag: real, rightDecibels: real, rightMag: real)

  /** `MutateError`, as far as allocation goes. */
  datatype MutateError = AllocationFailed

  /** The commands `draw` records, in recording order. */
  datatype Command =
    | BindPipeline
    | Barrier(barrier: PipelineBarrier)
    | FlushSpectrum
    | ComputePreBarrier
    | PushConstants(values: seq<real>)
    | BindDescriptorSet
    | Dispatch(x: nat, y: nat, z: nat)
    | ComputePostBarrier
    | CopyBufferToImage(image: nat, layout: ImageLayout, extent: Extent)

  /**
   * The workgroup counts of `draw`: enough 8 x 16 groups to cover the extent, and one fewer group in
   * either direction would leave a column or row uncovered.
   */
  function DispatchSize(extent: Extent): (r: (nat, nat))
    ensures extent.width <= r.0 * WorkgroupSizeX && (r.0 == 0 || (r.0 - 1) * WorkgroupSizeX < extent.width)
    ensures extent.height <= r.1 * WorkgroupSizeY && (r.1 == 0 || (r.1 - 1) * WorkgroupSizeY < extent.height)
  {
    CeilDivBounds(extent.width, WorkgroupSizeX);
    CeilDivBounds(extent.height, WorkgroupSizeY);
    (CeilDiv(extent.width, WorkgroupSizeX), CeilDiv(extent.height, WorkgroupSizeY))
  }

  /** The groups cover every pixel: each pixel's group index is within the dispatch. */
  lemma DispatchCoversExtent(extent: Extent)
    ensures var (x, y) := DispatchSize(extent);
      forall px, py :: 0 <= px < extent.width && 0 <= py < extent.height ==> px / WorkgroupSizeX < x && py / WorkgroupSizeY < y
  {
    var (x, y) := DispatchSize(extent);
    forall px, py | 0 <= px < extent.width && 0 <= py < extent.height
      ensures px / WorkgroupSizeX < x && py / WorkgroupSizeY < y
    {
      DivMod(px, WorkgroupSizeX);
      DivMod(py, WorkgroupSizeY);
    }
  }

  /** What one slot receives from a bin: both perceptual levels and both magnitudes. */
  function SampleOf(m: Math, bin: ConstantQ.Cqt): (s: SpectrumSample)
    ensures s.leftDecibels == bin.leftPerceptual && s.rightDecibels == bin.rightPerceptual
    ensures s.leftMag == ConstantQ.Mag(m, bin.left) && s.rightMag == ConstantQ.Mag(m, bin.right)
  {
    SpectrumSample(bin.leftPerceptual, ConstantQ.Mag(m, bin.left), bin.rightPerceptual, ConstantQ.Mag(m, bin.right))
  }

  /**
   * The fill reads `input[k % 599]` for every slot `k < slots`; it stays in bounds exactly when
   * `input` has at least `min(599, slots)` bins.
   */
  lemma FillBoundIsExact(inputLen: nat, slots: nat)
    ensures (forall k :: 0 <= k < slots ==> k % InputWrap < inputLen) <==> inputLen >= Min(InputWrap, slots)
  {
    if inputLen < Min(InputWrap, slots) {
      assert inputLen % InputWrap == inputLen;
    } else {
      forall k | 0 <= k < slots
        ensures k % InputWrap < inputLen
      {
        WrapIndexInBounds(k, slots, inputLen);
      }
    }
  }

  /** One index of the fill, in bounds by the requirement of `FillBoundIsExact`. */
  lemma WrapIndexInBounds(k: nat, slots: nat, inputLen: nat)
    requires k < slots && inputLen >= Min(InputWrap, slots)
    ensures k % InputWrap < inputLen
  {
    DivMod(k, InputWrap);
    if k < InputWrap {
      assert k % InputWrap == k;
    }
  }

  /** The push constants of `draw`: the extent as two `f32`s. */
  function PushedExtent(m: Math, extent: Extent): (r: seq<real>)
    ensures |r| == 2 && r[0] == m.toF32(extent.width as real) && r[1] == m.toF32(extent.height as real)
  {
    [m.toF32(extent.width as real), m.toF32(extent.height as real)]
  }

  /** The two layout transitions `draw` records are among the supported ones. */
  lemma DrawTransitionsSupported()
    ensures (Undefined, TransferDstOptimal) in SupportedPairs
    ensures (TransferDstOptimal, PresentSrcKhr) in SupportedPairs
  {
  }

  /**
   * The commands `draw` records for the target image at the given extent: ten of them, pushing the
   * extent as `[width, height]` and dispatching a grid one deep that covers the extent in 8 x 16
   * workgroups.
   */
  function DrawCommands(m: Math, target: DrawTarget, extent: Extent): (r: seq<Command>)
    ensures |r| == 10
    ensures r[4].PushConstants? && r[4].values == [m.toF32(extent.width as real), m.toF32(extent.height as real)]
    ensures r[6].Dispatch? && r[6].z == 1
    ensures extent.width <= r[6].x * WorkgroupSizeX && extent.height <= r[6].y * WorkgroupSizeY
  {
    DrawTransitionsSupported();
    var (x, y) := DispatchSize(extent);
    [ BindPipeline,
      Barrier(TransitionLayout(target.image, Range(), Undefined, TransferDstOptimal).value),
      FlushSpectrum,
      ComputePreBarrier,
      PushConstants(PushedExtent(m, extent)),
      BindDescriptorSet,
      Dispatch(x, y, 1),
      ComputePostBarrier,
      CopyBufferToImage(target.image, TransferDstOptimal, extent),
      Barrier(TransitionLayout(target.image, Range(), TransferDstOptimal, PresentSrcKhr).value) ]
  }

  /** The layout `image` is in after `c`, from `layout`: a barrier on the image moves it to its new layout. */
  function Step(c: Command, image: nat, layout: ImageLayout): ImageLayout
  {
    if c.Barrier? && c.barrier.barrier.image == image then c.barrier.barrier.newLayout else layout
  }

  /** The layout of `image` after a command list, from `layout`. */
  function LayoutAfter(cmds: seq<Command>, image: nat, layout: ImageLayout): ImageLayout
    decreases |cmds|
  {
    if cmds == [] then layout else LayoutAfter(cmds[1..], image, Step(cmds[0], image, layout))
  }

  /**
   * A barrier on `image` starts from the layout the image is in (or from UNDEFINED, which discards
   * the contents), and a copy into `image` declares the layout it is in.
   */
  predicate Agrees(c: Command, image: nat, layout: ImageLayout)
  {
    && (c.Barrier? && c.barrier.barrier.image == image ==> c.barrier.barrier.oldLayout in {Undefined, layout})
    && (c.CopyBufferToImage? && c.image == image ==> c.layout == layout)
  }

  /** Every command of the list agrees with the layout `image` is in when it runs. */
  predicate LayoutsAgree(cmds: seq<Command>, image: nat, layout: ImageLayout)
    decreases |cmds|
  {
    if cmds == [] then true
    else Agrees(cmds[0], image, layout) && LayoutsAgree(cmds[1..], image, Step(cmds[0], image, layout))
  }

  /** One step of both recursions, at position `k` of a list. */
  lemma UnfoldAt(cmds: seq<Command>, k: nat, image: nat, layout: ImageLayout)
    requires k < |cmds|
    ensures LayoutAfter(cmds[k..], image, layout) == LayoutAfter(cmds[k + 1..], image, Step(cmds[k], image, layout))
    ensures LayoutsAgree(cmds[k..], image, layout)
      <==> Agrees(cmds[k], image, layout) && LayoutsAgree(cmds[k + 1..], image, Step(cmds[k], image, layout))
  {
    assert cmds[k..][0] == cmds[k];
    assert cmds[k..][1..] == cmds[k + 1..];
  }

  /** A command that neither moves `image` to another layout nor copies into it. */
  predicate Inert(c: Command, image: nat)
  {
    !(c.Barrier? && c.barrier.barrier.image == image) && !(c.CopyBufferToImage? && c.image == image)
  }

  /**
   * The shape of a transfer pass over `image`: something inert, a barrier from UNDEFINED to
   * TRANSFER_DST, inert work, a copy declared in TRANSFER_DST, and a barrier from TRANSFER_DST to
   * PRESENT_SRC_KHR. Such a pass leaves the image presentable and keeps every layout in agreement.
   */
  lemma TransferPassLayouts(cmds: seq<Command>, img: nat, layout: ImageLayout)
    requires |cmds| == 10 && Inert(cmds[0], img)
    requires cmds[1].Barrier? && cmds[1].barrier.barrier.image == img
    requires cmds[1].barrier.barrier.oldLayout == Undefined && cmds[1].barrier.barrier.newLayout == TransferDstOptimal
    requires forall k :: 2 <= k < 8 ==> Inert(cmds[k], img)
    requires cmds[8].CopyBufferToImage? && cmds[8].layout == TransferDstOptimal
    requires cmds[9].Barrier? && cmds[9].barrier.barrier.image == img
    requires cmds[9].barrier.barrier.oldLayout == TransferDstOptimal && cmds[9].barrier.barrier.newLayout == PresentSrcKhr
    ensures LayoutAfter(cmds, img, layout) == PresentSrcKhr && LayoutsAgree(cmds, img, layout)
  {
    UnfoldAt(cmds, 9, img, TransferDstOptimal);
    assert cmds[10..] == [];
    var k := 8;
    while k >= 2
      invariant 1 <= k <= 8
      invariant LayoutAfter(cmds[k + 1..], img, TransferDstOptimal) == PresentSrcKhr
      invariant LayoutsAgree(cmds[k + 1..], img, TransferDstOptimal)
    {
      UnfoldAt(cmds, k, img, TransferDstOptimal);
      k := k - 1;
    }
    UnfoldAt(cmds, 1, img, layout);
    UnfoldAt(cmds, 0, img, layout);
    assert cmds[0..] == cmds;
  }

  /**
   * Whatever layout the target image was in, `draw` leaves it in PRESENT_SRC_KHR, every barrier it
   * records starts from the image's layout, and the copy runs with the image in TRANSFER_DST, the
   * layout the copy declares.
   */
  lemma DrawLeavesTargetPresentable(m: Math, target: DrawTarget, extent: Extent, layout: ImageLayout)
    ensures LayoutAfter(DrawCommands(m, target, extent), target.image, layout) == PresentSrcKhr
    ensures LayoutsAgree(DrawCommands(m, target, extent), target.image, layout)
  {
    TransferPassLayouts(DrawCommands(m, target, extent), target.image, layout);
  }

  /** `SpectrumNode`: the pipeline handles are left out; the two buffers are set by `provision`. */
  class SpectrumNode {
    var spectrumBuffer: Option<array<SpectrumSample>>
    var outputLen: Option<nat>

    /** `new`: no buffers until `provision`. */
    constructor ()
      ensures spectrumBuffer == None && outputLen == None
    {
      spectrumBuffer := None;
      outputLen := None;
    }

    /**
     * `provision`: a spectrum buffer of `height` entries and an output buffer of `width * height`
     * pixels. Either allocation can fail; then the error is returned and the fields are as they
     * were. Only when both succeed are both fields replaced.
     */
    method Provision(size: Extent, spectrumAllocFails: bool, outputAllocFails: bool) returns (r: Result<(), MutateError>)
      modifies this
      ensures spectrumAllocFails || outputAllocFails ==>
        r == Err(AllocationFailed) && spectrumBuffer == old(spectrumBuffer) && outputLen == old(outputLen)
      ensures !spectrumAllocFails && !outputAllocFails ==>
        && r == Ok(())
        && spectrumBuffer.Some? && fresh(spectrumBuffer.value) && spectrumBuffer.value.Length == size.height
        && outputLen == Some(size.width * size.height)
    {
      if spectrumAllocFails {
        return Err(AllocationFailed);
      }
      var spectrum := new SpectrumSample[size.height];
      if outputAllocFails {
        return Err(AllocationFailed);
      }
      var output := size.width * size.height;
      spectrumBuffer := Some(spectrum);
      outputLen := Some(output);
      return Ok(());
    }

    /**
     * The fill loop of `draw`: slot `k` of the spectrum buffer receives bin `k % 599`, the counter
     * wrapping at 599. The buffer must be provisioned and `input` long enough for every index the
     * counter reaches (see `FillBoundIsExact`).
     */
    method FillSpectrum(m: Math, input: seq<ConstantQ.Cqt>)
      requires spectrumBuffer.Some? && |input| >= Min(InputWrap, spectrumBuffer.value.Length)
      modifies spectrumBuffer.value
      ensures forall k :: 0 <= k < spectrumBuffer.value.Length ==>
        k % InputWrap < |input| && spectrumBuffer.value[k] == SampleOf(m, input[k % InputWrap])
    {
      var buf := spectrumBuffer.value;
      FillBoundIsExact(|input|, buf.Length);
      var i := 0;
      var k := 0;
      while k < buf.Length
        invariant 0 <= k <= buf.Length && i == k % InputWrap
        invariant forall j :: 0 <= j < k ==> buf[j] == SampleOf(m, input[j % InputWrap])
      {
        WrapIndexInBounds(k, buf.Length, |input|);
        var bin := input[i];
        i := i + 1;
        ModSucc(k, InputWrap);
        i := i % InputWrap;
        buf[k] := SpectrumSample(bin.leftPerceptual, ConstantQ.Mag(m, bin.left), bin.rightPerceptual, ConstantQ.Mag(m, bin.right));
        k := k + 1;
      }
    }

    /**
     * `draw`: the spectrum buffer is filled and the commands of `DrawCommands` are recorded. Both
     * buffers must have been provisioned (the code unwraps them).
     */
    method Draw(m: Math, target: DrawTarget, input: seq<ConstantQ.Cqt>, extent: Extent) returns (cmds: seq<Command>)
      requires spectrumBuffer.Some? && outputLen.Some? && |input| >= Min(InputWrap, spectrumBuffer.value.Length)
      modifies spectrumBuffer.value
      ensures forall k :: 0 <= k < spectrumBuffer.value.Length ==>
        k % InputWrap < |input| && spectrumBuffer.value[k] == SampleOf(m, input[k % InputWrap])
      ensures cmds == DrawCommands(m, target, extent)
    {
      DrawTransitionsSupported();
      var toTransferDst := TransitionLayout(target.image, Range(), Undefined, TransferDstOptimal).value;
      FillSpectrum(m, input);
      var pushed := [m.toF32(extent.width as real), m.toF32(extent.height as real)];
      var dispatchX := (extent.width + WorkgroupSizeX - 1) / WorkgroupSizeX;
      var dispatchY := (extent.height + WorkgroupSizeY - 1) / WorkgroupSizeY;
      assert (dispatchX, dispatchY) == DispatchSize(extent);
      var toPresent := TransitionLayout(target.image, Range(), TransferDstOptimal, PresentSrcKhr).value;
      cmds := [ BindPipeline, Barrier(toTransferDst), FlushSpectrum, ComputePreBarrier, PushConstants(pushed),
                BindDescriptorSet, Dispatch(dispatchX, dispatchY, 1), ComputePostBarrier,
                CopyBufferToImage(target.image, TransferDstOptimal, extent), Barrier(toPresent) ];
    }
  }
}
