/**
 * The window's presentation state. Three frames in flight are cycled through a ring of sync
 * objects; presentation ids follow a parity protocol (an even id is free to present, an odd one
 * means the wait on its predecessor is still owed); the swapchain is recreated with the surface's
 * extent when it reports one.
 *
 * Handles (images, views, semaphores, fences, command buffers, swapchains) are opaque numbers;
 * what the driver returns (the acquired image index, new handles, the surface capabilities) is
 * passed in.
 */
module Present {
  import opened Common

  /** `u32::MAX`: the surface leaves the extent to the swapchain. */
  const U32Max: nat := 0xFFFF_FFFF

  /** Frames in flight. */
  const Frames: nat := 3

  datatype Extent = Extent(width: nat, height: nat)

  datatype CompositeAlpha = Opaque | PreMultiplied | PostMultiplied | Inherit

  /** The order of preference of `pick_alpha`, most preferred first. */
  function Rank(a: CompositeAlpha): nat
  {
    match a
    case Opaque => 0
    case PreMultiplied => 1
    case PostMultiplied => 2
    case Inherit => 3
  }

  /**
   * `pick_alpha`: the most preferred supported mode, falling back to INHERIT. The result is
   * supported or INHERIT, and no supported mode is preferred to it.
   */
  function PickAlpha(supported: set<CompositeAlpha>): (r: CompositeAlpha)
    ensures r in supported || r == Inherit
    ensures forall a :: a in supported ==> Rank(r) <= Rank(a)
  {
    if Opaque in supported then Opaque
    else if PreMultiplied in supported then PreMultiplied
    else if PostMultiplied in supported then PostMultiplied
    else Inherit
  }

  /** The two conditions of `PickAlpha`'s contract single out one mode. */
  lemma PickAlphaUnique(supported: set<CompositeAlpha>, r: CompositeAlpha)
    requires r in supported || r == Inherit
    requires forall a :: a in supported ==> Rank(r) <= Rank(a)
    ensures r == PickAlpha(supported)
  {
    var p := PickAlpha(supported);
    if p != Inherit {
      assert Rank(r) <= Rank(p);
    }
  }

  /**
   * The extent choice of `recreate_images`: the surface's current extent, which is also stored,
   * unless its width is `u32::MAX`; then the window size is used and the stored extent is kept.
   */
  function ChooseExtent(current: Extent, window: Extent, stored: Extent): (r: (Extent, Extent))
    ensures current.width != U32Max ==> r.0 == current && r.1 == current
    ensures current.width == U32Max ==> r.0 == window && r.1 == stored
  {
    if current.width != U32Max then (current, current) else (window, stored)
  }

  /** With the window-size fallback the stored extent can disagree with the one the swapchain is built at. */
  lemma FallbackLeavesStaleExtent()
    ensures var r := ChooseExtent(Extent(U32Max, 600), Extent(800, 600), Extent(640, 480)); r.0 != r.1
  {
  }

  /** The swapchain parameters `new` and `recreate_images` choose. */
  datatype SwapchainCreateInfo = SwapchainCreateInfo(minImageCount: nat, imageExtent: Extent, compositeAlpha: CompositeAlpha)

  /**
   * The swapchain both holders ask for, in `new` and in `recreate_images`: three images at the
   * extent they chose, with the preferred supported alpha mode.
   */
  function CreateInfo(extent: Extent, supportedAlpha: set<CompositeAlpha>): (ci: SwapchainCreateInfo)
    ensures ci.minImageCount == Frames && ci.imageExtent == extent
    ensures ci.compositeAlpha == PickAlpha(supportedAlpha)
  {
    SwapchainCreateInfo(Frames, extent, PickAlpha(supportedAlpha))
  }

  /** `DrawSync`: the sync objects of one frame and the acquired image. */
  datatype DrawSync = DrawSync(imageAvailable: nat, inFlight: nat, renderFinished: nat, imageIndex: nat)

  /** `DrawTarget` */
  datatype DrawTarget = DrawTarget(image: nat, commandBuffer: nat, extent: Extent)

  /**
   * The present id after `post_draw`: the current one is presented, then it is incremented, which
   * flips its parity; from an even id, the following `present_wait` lands on the next even id.
   */
  function AfterPostDraw(id: nat): (r: nat)
    ensures r > id && r % 2 != id % 2
    ensures id % 2 == 0 ==> AfterPresentWait(r) == id + 2
  {
    id + 1
  }

  /** The present id after `present_wait`: an odd id is completed to the next even one. */
  function AfterPresentWait(id: nat): (r: nat)
    ensures r % 2 == 0
    ensures id % 2 == 0 ==> r == id
  {
    if id % 2 == 1 then id + 1 else id
  }

  /** Waiting twice is the same as waiting once. */
  lemma PresentWaitIdempotent(id: nat)
    ensures AfterPresentWait(AfterPresentWait(id)) == AfterPresentWait(id)
  {
  }

  /** The ids presented by `n` rounds of `post_draw` followed by `present_wait`, from `id`. */
  function PresentedIds(id: nat, n: nat): (r: seq<nat>)
    ensures |r| == n
    decreases n
  {
    if n == 0 then [] else [id] + PresentedIds(AfterPresentWait(AfterPostDraw(id)), n - 1)
  }

  /**
   * Alternating `post_draw` and `present_wait` from an even id presents `id, id + 2, id + 4, ...`:
   * only even ids are ever presented, as the doc comment of `present_id` promises.
   */
  lemma {:induction false} AlternationPresentsEvenIds(id: nat, n: nat)
    requires id % 2 == 0
    decreases n
    ensures forall k :: 0 <= k < n ==> PresentedIds(id, n)[k] == id + 2 * k && PresentedIds(id, n)[k] % 2 == 0
  {
    if n > 0 {
      var next := AfterPresentWait(AfterPostDraw(id));
      assert next == id + 2;
      AlternationPresentsEvenIds(next, n - 1);
      var r := PresentedIds(id, n);
      assert r == [id] + PresentedIds(next, n - 1);
      forall k | 0 <= k < n
        ensures r[k] == id + 2 * k && r[k] % 2 == 0
      {
        if k > 0 {
          assert r[k] == PresentedIds(next, n - 1)[k - 1];
        }
      }
    }
  }

  /** `WindowPresent`, the parts that are not handles into the windowing system. */
  class WindowPresent {
    const frames: nat
    var frameIndex: nat
    const imageAvailable: seq<nat>
    const inFlight: seq<nat>
    const renderFinished: seq<nat>
    const commandBuffers: seq<nat>
    var swapchain: nat
    var swapchainExtent: Extent
    var images: seq<nat>
    var imageViews: seq<nat>
    var presentId: nat

    /** One set of sync objects and one command buffer per frame; the index points into them. */
    ghost predicate Valid()
      reads this
    {
      && frames == Frames && frameIndex < frames
      && |imageAvailable| == frames && |inFlight| == frames && |renderFinished| == frames
      && |commandBuffers| == frames && |imageViews| == |images|
    }

    /**
     * `new`: three frames from index 0 and present id 0, at the surface's current extent. The
     * three fences, the two triples of semaphores and the three command buffers are created by the
     * device and passed in.
     */
    constructor (current: Extent, supportedAlpha: set<CompositeAlpha>, swapchain: nat, images: seq<nat>, views: seq<nat>,
                 fences: seq<nat>, available: seq<nat>, finished: seq<nat>, buffers: seq<nat>)
      requires |views| == |images| && |fences| == 3 && |available| == 3 && |finished| == 3 && |buffers| == 3
      ensures Valid()
      ensures frames == 3 && frameIndex == 0 && presentId == 0 && swapchainExtent == current
      ensures this.swapchain == swapchain && this.images == images && imageViews == views
      ensures inFlight == fences && imageAvailable == available && renderFinished == finished && commandBuffers == buffers
    {
      frames := 3;
      frameIndex := 0;
      imageAvailable := available;
      inFlight := fences;
      renderFinished := finished;
      commandBuffers := buffers;
      this.swapchain := swapchain;
      swapchainExtent := current;
      this.images := images;
      imageViews := views;
      presentId := 0;
    }

    /**
     * `render_target`: the sync objects of the current frame, then the ring advances. The image
     * index comes from `acquire_next_image`; the command buffer is taken at that index, so it must
     * be below the three buffers allocated.
     */
    method RenderTarget(imageIndex: nat) returns (sync: DrawSync, target: DrawTarget)
      requires Valid() && imageIndex < |images| && imageIndex < |commandBuffers|
      modifies this
      ensures Valid()
      ensures frameIndex == (old(frameIndex) + 1) % frames
      ensures sync == DrawSync(imageAvailable[old(frameIndex)], inFlight[old(frameIndex)], renderFinished[old(frameIndex)], imageIndex)
      ensures presentId == old(presentId) && swapchain == old(swapchain) && swapchainExtent == old(swapchainExtent)
      ensures images == old(images) && imageViews == old(imageViews)
      ensures target == DrawTarget(images[imageIndex], commandBuffers[imageIndex], swapchainExtent)
    {
      var idx := frameIndex;
      var available := imageAvailable[idx];
      var finished := renderFinished[idx];
      var fence := inFlight[idx];
      frameIndex := (idx + 1) % frames;
      sync := DrawSync(available, fence, finished, imageIndex);
      target := DrawTarget(images[imageIndex], commandBuffers[imageIndex], swapchainExtent);
    }

    /** `post_draw`: presents under the current id, then increments it. */
    method PostDraw() returns (presented: nat)
      requires Valid()
      modifies this
      ensures Valid()
      ensures presented == old(presentId) && presentId == AfterPostDraw(old(presentId))
      ensures frameIndex == old(frameIndex) && swapchain == old(swapchain) && swapchainExtent == old(swapchainExtent)
      ensures images == old(images) && imageViews == old(imageViews)
    {
      presented := presentId;
      presentId := presentId + 1;
    }

    /** `present_wait`: only for an odd id, waits on the id before it and moves on to the next even one. */
    method PresentWait() returns (waited: Option<nat>)
      requires Valid()
      modifies this
      ensures Valid()
      ensures old(presentId) % 2 == 1 ==> waited == Some(old(presentId) - 1)
      ensures old(presentId) % 2 == 0 ==> waited == None
      ensures presentId == AfterPresentWait(old(presentId))
      ensures frameIndex == old(frameIndex) && swapchain == old(swapchain) && swapchainExtent == old(swapchainExtent)
      ensures images == old(images) && imageViews == old(imageViews)
    {
      waited := None;
      if presentId % 2 == 1 {
        waited := Some(presentId - 1);
        presentId := presentId + 1;
      }
    }

    /**
     * `recreate_images`: the swapchain, its images and views are replaced, and the extent is chosen
     * by `ChooseExtent`. The frame ring and the present id are untouched.
     */
    method RecreateImages(current: Extent, window: Extent, supportedAlpha: set<CompositeAlpha>,
                          newSwapchain: nat, newImages: seq<nat>, newViews: seq<nat>) returns (ci: SwapchainCreateInfo)
      requires Valid() && |newViews| == |newImages|
      modifies this
      ensures Valid()
      ensures var (used, stored) := ChooseExtent(current, window, old(swapchainExtent));
        ci == CreateInfo(used, supportedAlpha) && swapchainExtent == stored
      ensures swapchain == newSwapchain && images == newImages && imageViews == newViews
      ensures frameIndex == old(frameIndex) && presentId == old(presentId)
    {
      var extent: Extent;
      if current.width != U32Max {
        swapchainExtent := current;
        extent := swapchainExtent;
      } else {
        extent := window;
      }
      ci := CreateInfo(extent, supportedAlpha);
      swapchain := newSwapchain;
      images := newImages;
      imageViews := newViews;
    }
  }

}
