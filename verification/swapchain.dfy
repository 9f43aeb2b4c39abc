/** The swapchain wrapper (Swapchain.cpp): present-mode and surface-format checks,
    the extent choice, creation and recreation requests, and the image-view rebuild.
    The device is a recorder of the calls made on it; the handles and images the
    driver returns are inputs. */
module Swapchains {
  import opened Common
  import opened Images

  /** IMAGE_COUNT: double buffering. */
  const IMAGE_COUNT: nat := 2

  datatype PresentMode = Immediate | Mailbox | Fifo | FifoRelaxed | OtherPresentMode(code: nat)

  datatype ColorSpace = SrgbNonlinear | OtherColorSpace(code: nat)

  datatype SurfaceFormat = SurfaceFormat(format: Format, colorSpace: ColorSpace)

  type SwapchainHandle = nat
  type ImageHandle = nat

  /** A view as requested: the image it looks at and the format it reads it with
      (identity swizzle, 2D, colour aspect, one level and one layer in every view). */
  datatype ImageView = ImageView(image: ImageHandle, format: Format)

  /** The fields of vk::SwapchainCreateInfoKHR the wrapper sets. The colour space is
      None when no sRGB surface format was found and the member was never assigned. */
  datatype SwapchainCreateInfo = SwapchainCreateInfo(
    minImageCount: nat,
    imageFormat: Format,
    imageColorSpace: Option<ColorSpace>,
    imageExtent: Extent2D,
    presentMode: PresentMode,
    imageUsage: ImageUsage)

  /** The calls the wrapper makes on the logical device, in order. */
  datatype DeviceCall =
    | WaitIdle
    | DestroyImageView(view: ImageView)
    | DestroySwapchain(handle: SwapchainHandle)
    | CreateSwapchain(info: SwapchainCreateInfo)
    | CreateImageView(view: ImageView)

  /** One view per image, in image order, all with the given format. */
  function ViewsOf(images: seq<ImageHandle>, format: Format): (r: seq<ImageView>)
    ensures |r| == |images|
    ensures forall i :: 0 <= i < |images| ==> r[i].image == images[i] && r[i].format == format
  {
    if |images| == 0 then [] else ViewsOf(images[..|images| - 1], format) + [ImageView(images[|images| - 1], format)]
  }

  /** The calls that create the given views. */
  function CreateCalls(views: seq<ImageView>): (r: seq<DeviceCall>)
    ensures |r| == |views|
    ensures forall i :: 0 <= i < |views| ==> r[i] == CreateImageView(views[i])
  {
    if |views| == 0 then [] else CreateCalls(views[..|views| - 1]) + [CreateImageView(views[|views| - 1])]
  }

  /** The calls that destroy the given views. */
  function DestroyCalls(views: seq<ImageView>): (r: seq<DeviceCall>)
    ensures |r| == |views|
    ensures forall i :: 0 <= i < |views| ==> r[i] == DestroyImageView(views[i])
  {
    if |views| == 0 then [] else DestroyCalls(views[..|views| - 1]) + [DestroyImageView(views[|views| - 1])]
  }

  /** Every swapchain request asks for IMAGE_COUNT images presented in FIFO order,
      in the render format, for colour attachment. */
  predicate FifoDoubleBuffered(info: SwapchainCreateInfo, format: Format) {
    info.minImageCount == IMAGE_COUNT && info.presentMode == Fifo
    && info.imageFormat == format && info.imageUsage == ColorAttachment
  }

  /** The present-mode search: true exactly when FIFO is offered. */
  method SupportsFifo(modes: seq<PresentMode>) returns (supportsFifo: bool)
    ensures supportsFifo <==> Fifo in modes
  {
    supportsFifo := false;
    var i := 0;
    while i < |modes|
      invariant 0 <= i <= |modes|
      invariant Fifo !in modes[..i]
    {
      if modes[i] == Fifo {
        supportsFifo := true;
        break;
      }
      assert modes[..i + 1] == modes[..i] + [modes[i]];
      i := i + 1;
    }
    if !supportsFifo {
      assert modes[..i] == modes;
    }
  }

  /** The surface-format search: the colour space of the first R8G8B8A8Srgb format,
      and whether there is one. */
  method FindSrgbColorSpace(formats: seq<SurfaceFormat>) returns (colorSpace: Option<ColorSpace>, supportsSrgb: bool)
    ensures supportsSrgb <==> exists k :: 0 <= k < |formats| && formats[k].format == R8G8B8A8Srgb
    ensures supportsSrgb <==> colorSpace.Some?
    ensures supportsSrgb ==>
      exists k :: 0 <= k < |formats| && formats[k].format == R8G8B8A8Srgb
        && colorSpace == Some(formats[k].colorSpace)
        && forall j :: 0 <= j < k ==> formats[j].format != R8G8B8A8Srgb
  {
    colorSpace := None;
    supportsSrgb := false;
    var i := 0;
    while i < |formats|
      invariant 0 <= i <= |formats|
      invariant forall j :: 0 <= j < i ==> formats[j].format != R8G8B8A8Srgb
    {
      if formats[i].format == R8G8B8A8Srgb {
        colorSpace := Some(formats[i].colorSpace);
        supportsSrgb := true;
        break;
      }
      i := i + 1;
    }
  }

  class Swapchain {
    var swapchain: SwapchainHandle
    var renderExtent: Extent2D
    var renderFormat: Format
    var colorSpace: Option<ColorSpace>
    var images: seq<ImageHandle>
    var imageViews: seq<ImageView>
    /** Every call made on the device so far. */
    var calls: seq<DeviceCall>

    /** Construction from the surface's capabilities, present modes and formats; the
        driver hands back the new swapchain and its images. A missing FIFO mode or
        sRGB format only constructs an exception object, so creation goes ahead. */
    constructor (maxImageExtent: Extent2D, presentModes: seq<PresentMode>, surfaceFormats: seq<SurfaceFormat>,
                 created: SwapchainHandle, createdImages: seq<ImageHandle>)
      ensures renderFormat == R8G8B8A8Srgb
      ensures colorSpace.Some? <==> exists k :: 0 <= k < |surfaceFormats| && surfaceFormats[k].format == R8G8B8A8Srgb
      ensures colorSpace.Some? ==>
        exists k :: 0 <= k < |surfaceFormats| && surfaceFormats[k].format == R8G8B8A8Srgb
          && colorSpace.value == surfaceFormats[k].colorSpace
          && forall j :: 0 <= j < k ==> surfaceFormats[j].format != R8G8B8A8Srgb
      ensures renderExtent == maxImageExtent
      ensures swapchain == created && images == createdImages
      ensures imageViews == ViewsOf(createdImages, R8G8B8A8Srgb)
      ensures calls == [CreateSwapchain(SwapchainCreateInfo(IMAGE_COUNT, R8G8B8A8Srgb, colorSpace, maxImageExtent, Fifo, ColorAttachment))]
        + CreateCalls(imageViews)
      ensures FifoDoubleBuffered(calls[0].info, renderFormat)
    {
      var _ := SupportsFifo(presentModes);
      var cs, _ := FindSrgbColorSpace(surfaceFormats);
      renderFormat := R8G8B8A8Srgb;
      colorSpace := cs;
      renderExtent := maxImageExtent;
      calls := [CreateSwapchain(SwapchainCreateInfo(IMAGE_COUNT, R8G8B8A8Srgb, cs, maxImageExtent, Fifo, ColorAttachment))];
      swapchain := created;
      images := createdImages;
      imageViews := [];
      new;
      CreateImageViews();
    }

    /** Destroys every image view and then the swapchain. The stale view handles stay
        in imageViews until the next CreateImageViews. */
    method Cleanup()
      modifies this
      ensures calls == old(calls) + DestroyCalls(imageViews) + [DestroySwapchain(swapchain)]
      ensures swapchain == old(swapchain) && imageViews == old(imageViews) && images == old(images)
      ensures renderExtent == old(renderExtent) && renderFormat == old(renderFormat) && colorSpace == old(colorSpace)
    {
      var i := 0;
      while i < |imageViews|
        invariant 0 <= i <= |imageViews|
        invariant calls == old(calls) + DestroyCalls(imageViews[..i])
        invariant swapchain == old(swapchain) && imageViews == old(imageViews) && images == old(images)
        invariant renderExtent == old(renderExtent) && renderFormat == old(renderFormat) && colorSpace == old(colorSpace)
      {
        assert imageViews[..i + 1][..i] == imageViews[..i];
        calls := calls + [DestroyImageView(imageViews[i])];
        i := i + 1;
      }
      assert imageViews[..i] == imageViews;
      calls := calls + [DestroySwapchain(swapchain)];
    }

    /** Recreation for a window of w x h pixels (SDL's ints stored into the extent's
        uint32 fields): wait idle, tear down, request a swapchain with the same format
        and colour space, and rebuild the views for the new images. */
    method Recreate(w: int, h: int, created: SwapchainHandle, createdImages: seq<ImageHandle>)
      modifies this
      ensures renderExtent == Extent2D(Wrap32(w), Wrap32(h))
      ensures renderFormat == old(renderFormat) && colorSpace == old(colorSpace)
      ensures swapchain == created && images == createdImages
      ensures imageViews == ViewsOf(createdImages, renderFormat)
      ensures calls == old(calls) + [WaitIdle] + DestroyCalls(old(imageViews)) + [DestroySwapchain(old(swapchain))]
        + [CreateSwapchain(SwapchainCreateInfo(IMAGE_COUNT, renderFormat, colorSpace, renderExtent, Fifo, ColorAttachment))]
        + CreateCalls(imageViews)
    {
      calls := calls + [WaitIdle];
      Cleanup();
      renderExtent := Extent2D(Wrap32(w), Wrap32(h));
      calls := calls + [CreateSwapchain(SwapchainCreateInfo(IMAGE_COUNT, renderFormat, colorSpace, renderExtent, Fifo, ColorAttachment))];
      swapchain := created;
      images := createdImages;
      CreateImageViews();
    }

    /** Clears imageViews, then creates one view per image in image order. */
    method CreateImageViews()
      modifies this
      ensures imageViews == ViewsOf(images, renderFormat)
      ensures calls == old(calls) + CreateCalls(imageViews)
      ensures swapchain == old(swapchain) && images == old(images)
      ensures renderExtent == old(renderExtent) && renderFormat == old(renderFormat) && colorSpace == old(colorSpace)
    {
      imageViews := [];
      var i := 0;
      while i < |images|
        invariant 0 <= i <= |images|
        invariant imageViews == ViewsOf(images[..i], renderFormat)
        invariant calls == old(calls) + CreateCalls(imageViews)
        invariant swapchain == old(swapchain) && images == old(images)
        invariant renderExtent == old(renderExtent) && renderFormat == old(renderFormat) && colorSpace == old(colorSpace)
      {
        assert images[..i + 1][..i] == images[..i];
        var view := ImageView(images[i], renderFormat);
        calls := calls + [CreateImageView(view)];
        imageViews := imageViews + [view];
        i := i + 1;
      }
      assert images[..i] == images;
    }
  }

  /** In the calls Recreate appends, the wait comes first, every destruction of an
      old view and of the old swapchain comes before the creation of the new
      swapchain, and the new swapchain is requested with FIFO and IMAGE_COUNT images. */
  lemma {:induction false} RecreateOrder(oldViews: seq<ImageView>, oldSwapchain: SwapchainHandle,
                                         info: SwapchainCreateInfo, newViews: seq<ImageView>, format: Format)
    requires FifoDoubleBuffered(info, format)
    ensures var tail := [WaitIdle] + DestroyCalls(oldViews) + [DestroySwapchain(oldSwapchain)] + [CreateSwapchain(info)] + CreateCalls(newViews);
      var create := |oldViews| + 2;
      tail[0] == WaitIdle
      && tail[create] == CreateSwapchain(info)
      && tail[create - 1] == DestroySwapchain(oldSwapchain)
      && (forall v :: v in oldViews ==> exists i :: 0 < i < create && tail[i] == DestroyImageView(v))
      && (forall i :: create < i < |tail| ==> tail[i].CreateImageView?)
      && FifoDoubleBuffered(tail[create].info, format)
  {
    var tail := [WaitIdle] + DestroyCalls(oldViews) + [DestroySwapchain(oldSwapchain)] + [CreateSwapchain(info)] + CreateCalls(newViews);
    var create := |oldViews| + 2;
    forall v | v in oldViews
      ensures exists i :: 0 < i < create && tail[i] == DestroyImageView(v)
    {
      var k :| 0 <= k < |oldViews| && oldViews[k] == v;
      assert tail[k + 1] == DestroyCalls(oldViews)[k];
    }
    forall i | create < i < |tail|
      ensures tail[i].CreateImageView?
    {
      assert tail[i] == CreateCalls(newViews)[i - create - 1];
    }
  }
}
