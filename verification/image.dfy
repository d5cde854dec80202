/**
 * Image layout transitions. `transition_layout` infers the pipeline stages and access masks of an
 * image memory barrier from the pair of layouts, for a fixed table of supported pairs; any other
 * pair panics. The `Image::transition_*` helpers name the pairs the renderer uses.
 */
module Image {
  import opened Common

  /** The layouts the table mentions; `Other` stands for every remaining `vk::ImageLayout`. */
  datatype ImageLayout =
    | Undefined
    | TransferDstOptimal
    | TransferSrcOptimal
    | ShaderReadOnlyOptimal
    | ColorAttachmentOptimal
    | DepthStencilAttachmentOptimal
    | DepthStencilReadOnlyOptimal
    | PresentSrcKhr
    | Other(raw: int)

  datatype PipelineStage = TopOfPipe | Transfer | FragmentShader | EarlyFragmentTests | ColorAttachmentOutput | BottomOfPipe

  /** Access flags; a mask is a set of them. */
  datatype Access = TransferWrite | TransferRead | ShaderRead | DepthStencilAttachmentWrite | ColorAttachmentWrite | MemoryRead

  datatype Aspect = Color | Depth | Stencil

  /** `VK_QUEUE_FAMILY_IGNORED` (`~0u32`) */
  const QueueFamilyIgnored: nat := 0xFFFF_FFFF

  /** The stages and access masks on the two sides of a barrier. */
  datatype BarrierSettings = BarrierSettings(srcStage: PipelineStage, dstStage: PipelineStage, srcAccess: set<Access>, dstAccess: set<Access>)

  /** The supported `(old, new)` pairs. */
  const SupportedPairs: set<(ImageLayout, ImageLayout)> := {
    (Undefined, TransferDstOptimal),
    (TransferDstOptimal, ShaderReadOnlyOptimal),
    (Undefined, DepthStencilAttachmentOptimal),
    (ColorAttachmentOptimal, PresentSrcKhr),
    (PresentSrcKhr, ColorAttachmentOptimal),
    (ColorAttachmentOptimal, ShaderReadOnlyOptimal),
    (ShaderReadOnlyOptimal, ColorAttachmentOptimal),
    (TransferDstOptimal, TransferSrcOptimal),
    (TransferSrcOptimal, TransferDstOptimal),
    (DepthStencilAttachmentOptimal, DepthStencilReadOnlyOptimal),
    (PresentSrcKhr, TransferDstOptimal),
    (TransferDstOptimal, PresentSrcKhr)
  }

  /**
   * The match of `transition_layout`: the barrier settings of a supported pair, `None` where the
   * code panics. No supported pair keeps the layout; leaving UNDEFINED waits on nothing, and
   * entering PRESENT_SRC_KHR makes the writes visible to the presentation engine's memory reads.
   */
  function Settings(before: ImageLayout, after: ImageLayout): (r: Option<BarrierSettings>)
    ensures r.Some? <==> (before, after) in SupportedPairs
    ensures r.Some? ==> before != after
    ensures r.Some? && before == Undefined ==> r.value.srcStage == TopOfPipe && r.value.srcAccess == {}
    ensures r.Some? && after == PresentSrcKhr ==> r.value.dstStage == BottomOfPipe && r.value.dstAccess == {MemoryRead}
  {
    match (before, after)
    case (Undefined, TransferDstOptimal) => Some(BarrierSettings(TopOfPipe, Transfer, {}, {TransferWrite}))
    case (TransferDstOptimal, ShaderReadOnlyOptimal) => Some(BarrierSettings(Transfer, FragmentShader, {TransferWrite}, {ShaderRead}))
    case (Undefined, DepthStencilAttachmentOptimal) =>
      Some(BarrierSettings(TopOfPipe, EarlyFragmentTests, {}, {DepthStencilAttachmentWrite}))
    case (ColorAttachmentOptimal, PresentSrcKhr) =>
      Some(BarrierSettings(ColorAttachmentOutput, BottomOfPipe, {ColorAttachmentWrite}, {MemoryRead}))
    case (PresentSrcKhr, ColorAttachmentOptimal) =>
      Some(BarrierSettings(BottomOfPipe, ColorAttachmentOutput, {MemoryRead}, {ColorAttachmentWrite}))
    case (ColorAttachmentOptimal, ShaderReadOnlyOptimal) =>
      Some(BarrierSettings(ColorAttachmentOutput, FragmentShader, {ColorAttachmentWrite}, {ShaderRead}))
    case (ShaderReadOnlyOptimal, ColorAttachmentOptimal) =>
      Some(BarrierSettings(FragmentShader, ColorAttachmentOutput, {ShaderRead}, {ColorAttachmentWrite}))
    case (TransferDstOptimal, TransferSrcOptimal) => Some(BarrierSettings(Transfer, Transfer, {TransferWrite}, {TransferRead}))
    case (TransferSrcOptimal, TransferDstOptimal) => Some(BarrierSettings(Transfer, Transfer, {TransferRead}, {TransferWrite}))
    case (DepthStencilAttachmentOptimal, DepthStencilReadOnlyOptimal) =>
      Some(BarrierSettings(EarlyFragmentTests, FragmentShader, {DepthStencilAttachmentWrite}, {ShaderRead}))
    case (PresentSrcKhr, TransferDstOptimal) => Some(BarrierSettings(BottomOfPipe, Transfer, {MemoryRead}, {TransferWrite}))
    case (TransferDstOptimal, PresentSrcKhr) => Some(BarrierSettings(Transfer, BottomOfPipe, {TransferWrite}, {MemoryRead}))
    case _ => None
  }

  /** The table has twelve entries. */
  lemma SupportedCount()
    ensures |SupportedPairs| == 12
  {
  }

  /** The three round trips of the table are supported in both directions. */
  lemma BothDirections()
    ensures Settings(TransferDstOptimal, TransferSrcOptimal).Some? && Settings(TransferSrcOptimal, TransferDstOptimal).Some?
    ensures Settings(ColorAttachmentOptimal, ShaderReadOnlyOptimal).Some? && Settings(ShaderReadOnlyOptimal, ColorAttachmentOptimal).Some?
    ensures Settings(PresentSrcKhr, ColorAttachmentOptimal).Some? && Settings(ColorAttachmentOptimal, PresentSrcKhr).Some?
  {
  }

  /** The stage and the accesses an image in a layout is used with. */
  datatype Scope = Scope(stage: PipelineStage, access: set<Access>)

  /**
   * A per-layout reading of the table: the work an image in each layout is used by. Leaving a
   * layout waits on its scope, entering one makes the image available to its scope.
   */
  function LayoutScope(layout: ImageLayout): Scope
  {
    match layout
    case Undefined => Scope(TopOfPipe, {})
    case TransferDstOptimal => Scope(Transfer, {TransferWrite})
    case TransferSrcOptimal => Scope(Transfer, {TransferRead})
    case ShaderReadOnlyOptimal => Scope(FragmentShader, {ShaderRead})
    case ColorAttachmentOptimal => Scope(ColorAttachmentOutput, {ColorAttachmentWrite})
    case DepthStencilAttachmentOptimal => Scope(EarlyFragmentTests, {DepthStencilAttachmentWrite})
    case DepthStencilReadOnlyOptimal => Scope(FragmentShader, {ShaderRead})
    case PresentSrcKhr => Scope(BottomOfPipe, {MemoryRead})
    case Other(_) => Scope(TopOfPipe, {})
  }

  /** Every supported entry of the table is the old layout's scope on the source side and the new one's on the destination side. */
  lemma SettingsFollowScopes(before: ImageLayout, after: ImageLayout)
    requires Settings(before, after).Some?
    ensures var s := Settings(before, after).value;
      && s.srcStage == LayoutScope(before).stage && s.srcAccess == LayoutScope(before).access
      && s.dstStage == LayoutScope(after).stage && s.dstAccess == LayoutScope(after).access
  {
  }

  /**
   * Chained transitions fit together: the barrier that leaves a layout waits on exactly the stage
   * and accesses that the barrier that entered it made the image available to.
   */
  lemma ChainedTransitionsAgree(a: ImageLayout, b: ImageLayout, c: ImageLayout)
    requires Settings(a, b).Some? && Settings(b, c).Some?
    ensures Settings(a, b).value.dstStage == Settings(b, c).value.srcStage
    ensures Settings(a, b).value.dstAccess == Settings(b, c).value.srcAccess
  {
    SettingsFollowScopes(a, b);
    SettingsFollowScopes(b, c);
  }

  /** `vk::ImageSubresourceRange` */
  datatype SubresourceRange = SubresourceRange(aspectMask: set<Aspect>, baseMipLevel: nat, levelCount: nat, baseArrayLayer: nat, layerCount: nat)

  /** The range covers the first mip level of the first array layer only. */
  predicate FirstLevelAndLayer(r: SubresourceRange)
  {
    r.baseMipLevel == 0 && r.levelCount == 1 && r.baseArrayLayer == 0 && r.layerCount == 1
  }

  /** `range`: the colour aspect of the first level and layer. */
  function Range(): (r: SubresourceRange)
    ensures FirstLevelAndLayer(r) && r.aspectMask == {Color}
  {
    SubresourceRange({Color}, 0, 1, 0, 1)
  }

  /** `range_stencil`: the depth and stencil aspects of the first level and layer. */
  function RangeStencil(): (r: SubresourceRange)
    ensures FirstLevelAndLayer(r) && r.aspectMask == {Depth, Stencil}
  {
    SubresourceRange({Depth, Stencil}, 0, 1, 0, 1)
  }

  /** `vk::ImageMemoryBarrier`, the fields `transition_layout` sets. */
  datatype ImageMemoryBarrier = ImageMemoryBarrier(
    oldLayout: ImageLayout,
    newLayout: ImageLayout,
    srcQueueFamilyIndex: nat,
    dstQueueFamilyIndex: nat,
    image: nat,
    subresourceRange: SubresourceRange,
    srcAccessMask: set<Access>,
    dstAccessMask: set<Access>)

  /** The pipeline barrier `transition_layout` records: its two stages and the one image barrier. */
  datatype PipelineBarrier = PipelineBarrier(srcStage: PipelineStage, dstStage: PipelineStage, barrier: ImageMemoryBarrier)

  /**
   * `transition_layout`: `None` where the code panics. The barrier keeps both layouts, the image
   * and the range as given, transfers no queue-family ownership, and takes its stages and masks
   * from the table.
   */
  function TransitionLayout(image: nat, range: SubresourceRange, before: ImageLayout, after: ImageLayout): (r: Option<PipelineBarrier>)
    ensures r.Some? <==> (before, after) in SupportedPairs
    ensures r.Some? ==> var b := r.value.barrier;
      && b.oldLayout == before && b.newLayout == after && b.image == image && b.subresourceRange == range
      && b.srcQueueFamilyIndex == QueueFamilyIgnored && b.dstQueueFamilyIndex == QueueFamilyIgnored
      && r.value.srcStage == LayoutScope(before).stage && b.srcAccessMask == LayoutScope(before).access
      && r.value.dstStage == LayoutScope(after).stage && b.dstAccessMask == LayoutScope(after).access
  {
    match Settings(before, after)
    case None => None
    case Some(s) =>
      SettingsFollowScopes(before, after);
      Some(PipelineBarrier(s.srcStage, s.dstStage,
        ImageMemoryBarrier(before, after, QueueFamilyIgnored, QueueFamilyIgnored, image, range, s.srcAccess, s.dstAccess)))
  }

  /** The `Image::transition_*` helpers. */
  datatype Helper = ToTransferDst | ToShaderRead | ToDepthAttachment | ToPresent | FromPresent

  /** The range and the pair of layouts each helper passes on. */
  function HelperCall(h: Helper): (SubresourceRange, ImageLayout, ImageLayout)
  {
    match h
    case ToTransferDst => (Range(), Undefined, TransferDstOptimal)
    case ToShaderRead => (Range(), TransferDstOptimal, ShaderReadOnlyOptimal)
    case ToDepthAttachment => (RangeStencil(), Undefined, DepthStencilAttachmentOptimal)
    case ToPresent => (Range(), ColorAttachmentOptimal, PresentSrcKhr)
    case FromPresent => (Range(), PresentSrcKhr, ColorAttachmentOptimal)
  }

  /** Every helper uses a supported pair, so none panics, and only the depth helper uses the depth/stencil range. */
  lemma HelpersSupported(h: Helper, image: nat)
    ensures var (range, before, after) := HelperCall(h); TransitionLayout(image, range, before, after).Some?
    ensures HelperCall(h).0 == RangeStencil() <==> h == ToDepthAttachment
  {
  }
}
