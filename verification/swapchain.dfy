/**
 * The older swapchain holder of the visualizer: the same three-frame ring and extent choice as
 * `Present.WindowPresent`, but built at the window size, without present ids, and with a ring
 * index that nothing advances. Its `pick_alpha` and extent choice are the same code as the
 * presentation state's, so `Present.PickAlpha` and `Present.ChooseExtent` describe both.
 */
module Swapchain {
  import opened Present

  class SwapChain {
    const frames: nat
    var frameIndex: nat
    const imageAvailable: seq<nat>
    const inFlight: seq<nat>
    const renderFinished: seq<nat>
    var swapchain: nat
    var swapchainExtent: Extent
    var images: seq<nat>
    var imageViews: seq<nat>

    /** One set of sync objects per frame, and one view per image. */
    ghost predicate Valid()
      reads this
    {
      && frames == Frames && frameIndex < frames
      && |imageAvailable| == frames && |inFlight| == frames && |renderFinished| == frames
      && |imageViews| == |images|
    }

    /** `new`: three frames from index 0, at the window size (the surface's extent is not consulted). */
    constructor (window: Extent, swapchain: nat, images: seq<nat>, views: seq<nat>,
                 fences: seq<nat>, available: seq<nat>, finished: seq<nat>)
      requires |views| == |images| && |fences| == 3 && |available| == 3 && |finished| == 3
      ensures Valid()
      ensures frames == 3 && frameIndex == 0 && swapchainExtent == window
      ensures this.swapchain == swapchain && this.images == images && imageViews == views
      ensures inFlight == fences && imageAvailable == available && renderFinished == finished
    {
      frames := 3;
      frameIndex := 0;
      imageAvailable := available;
      inFlight := fences;
      renderFinished := finished;
      this.swapchain := swapchain;
      swapchainExtent := window;
      this.images := images;
      imageViews := views;
    }

    /**
     * `recreate_images`: the swapchain, images and views are replaced; the surface's extent is used
     * and stored unless its width is `u32::MAX`, when the window size is used and the stored extent
     * is left as it was.
     */
    method RecreateImages(current: Extent, window: Extent, supportedAlpha: set<CompositeAlpha>,
                          newSwapchain: nat, newImages: seq<nat>, newViews: seq<nat>) returns (ci: SwapchainCreateInfo)
      requires Valid() && |newViews| == |newImages|
      modifies this
      ensures Valid()
      ensures var (used, stored) := ChooseExtent(current, window, old(swapchainExtent));
        ci == CreateInfo(used, supportedAlpha) && swapchainExtent == stored
      ensures swapchain == newSwapchain && images == newImages && imageViews == newViews
      ensures frameIndex == old(frameIndex)
    {
      var extent: Extent;
      if current.width != U32Max {
        swapchainExtent := current;
        extent := swapchainExtent;
      } else {
        extent := window;
      }
      ci := CreateInfo(extent, supportedAlpha);
      swapchain := newSwapchain;
      images := newImages;
      imageViews := newViews;
    }

    /** `render_target`: the image and its view, taken at the same index. */
    method RenderTarget(index: nat) returns (image: nat, view: nat)
      requires Valid() && index < |images|
      ensures image == images[index] && view == imageViews[index]
    {
      image := images[index];
      view := imageViews[index];
    }
  }
}
