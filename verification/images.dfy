/** Image creation parameters (Renderer.cpp CreateImage, CreateDepthImage) and the
    debug checkerboard's texel data (CreateDebugTextures). Allocation through the
    memory allocator and the view creation are driver calls and are not modelled. */
module Images {
  import opened Common

  datatype Format =
    | D32Sfloat
    | D32SfloatS8Uint
    | D24UnormS8Uint
    | R8G8B8A8Unorm
    | R8G8B8A8Srgb
    | OtherFormat(code: nat)

  datatype ImageUsage = Sampled | DepthStencilAttachment | TransferSrc | TransferDst | ColorAttachment

  datatype Extent2D = Extent2D(width: u32, height: u32)

  /** The parameters CreateImage fills into vk::ImageCreateInfo that the renderer
      varies; the rest (one layer, one sample, 2D, optimal tiling, initial layout
      Undefined, exclusive sharing) are the same for every image. */
  datatype ImageCreateInfo = ImageCreateInfo(format: Format, extent: Extent2D, mipLevels: u32, usage: set<ImageUsage>)

  /** The number of binary digits of n: floor(log2(n)) + 1 for n >= 1. */
  function BitLength(n: nat): nat {
    if n == 0 then 0 else 1 + BitLength(n / 2)
  }

  lemma {:induction false} BitLengthBounds(n: nat)
    requires n >= 1
    ensures BitLength(n) >= 1
    ensures Pow2(BitLength(n) - 1) <= n < Pow2(BitLength(n))
    decreases n
  {
    if n >= 2 {
      BitLengthBounds(n / 2);
    }
  }

  lemma {:induction false} BitLengthAtMost(n: nat)
    ensures BitLength(n) <= n
    decreases n
  {
    if n > 0 {
      BitLengthAtMost(n / 2);
    }
  }

  /** The mip-level count: 1 without mipmaps, otherwise floor(log2(max(w, h))) + 1,
      i.e. the number of halvings until the larger side reaches 1, plus one. The
      logarithm of 0 has no defined uint32_t conversion, so a mipmapped image must
      not be empty. */
  function MipLevelCount(extent: Extent2D, makeMipmaps: bool): (r: u32)
    requires makeMipmaps ==> extent.width >= 1 || extent.height >= 1
    ensures r >= 1
    ensures !makeMipmaps ==> r == 1
    ensures makeMipmaps ==>
      var m := if extent.height > extent.width then extent.height else extent.width;
      Pow2(r - 1) <= m < Pow2(r)
  {
    if makeMipmaps then
      var m := if extent.height > extent.width then extent.height else extent.width;
      BitLengthBounds(m);
      BitLengthAtMost(m);
      BitLength(m)
    else 1
  }

  /** The creation parameters of CreateImage. */
  function ImageInfo(format: Format, extent: Extent2D, usage: set<ImageUsage>, makeMipmaps: bool): (r: ImageCreateInfo)
    requires makeMipmaps ==> extent.width >= 1 || extent.height >= 1
    ensures r.format == format && r.extent == extent && r.usage == usage
    ensures r.mipLevels == MipLevelCount(extent, makeMipmaps)
  {
    ImageCreateInfo(format, extent, MipLevelCount(extent, makeMipmaps), usage)
  }

  /** The depth formats CreateDepthImage probes, in order of preference. */
  const DEPTH_FORMAT_CANDIDATES: seq<Format> := [D32Sfloat, D32SfloatS8Uint, D24UnormS8Uint]

  /** The probing loop: the first candidate whose optimal-tiling features include
      depth-stencil attachment (depthSupported), or None when the loop finds none and
      leaves depthFormat unassigned. */
  method ChooseDepthFormat(depthSupported: set<Format>) returns (chosen: Option<Format>)
    ensures chosen.Some? ==>
      exists k :: 0 <= k < |DEPTH_FORMAT_CANDIDATES| && DEPTH_FORMAT_CANDIDATES[k] == chosen.value
        && chosen.value in depthSupported
        && forall j :: 0 <= j < k ==> DEPTH_FORMAT_CANDIDATES[j] !in depthSupported
    ensures chosen.None? <==> forall k :: 0 <= k < |DEPTH_FORMAT_CANDIDATES| ==> DEPTH_FORMAT_CANDIDATES[k] !in depthSupported
  {
    chosen := None;
    var i := 0;
    while i < |DEPTH_FORMAT_CANDIDATES|
      invariant 0 <= i <= |DEPTH_FORMAT_CANDIDATES|
      invariant forall j :: 0 <= j < i ==> DEPTH_FORMAT_CANDIDATES[j] !in depthSupported
    {
      if DEPTH_FORMAT_CANDIDATES[i] in depthSupported {
        chosen := Some(DEPTH_FORMAT_CANDIDATES[i]);
        return;
      }
      i := i + 1;
    }
  }

  /** CreateDepthImage as written: the probe's result is discarded and the image is
      always created as D24UnormS8Uint, single-level, for depth-stencil attachment. */
  method CreateDepthImage(depthSupported: set<Format>, renderExtent: Extent2D) returns (info: ImageCreateInfo)
    ensures info.format == D24UnormS8Uint
    ensures info.extent == renderExtent && info.mipLevels == 1 && info.usage == {DepthStencilAttachment}
  {
    var _ := ChooseDepthFormat(depthSupported);
    info := ImageInfo(D24UnormS8Uint, renderExtent, {DepthStencilAttachment}, false);
  }

  /** A device that supports only D32Sfloat as a depth attachment still gets a
      D24UnormS8Uint depth image from CreateDepthImage. */
  method DepthFormatIgnoresProbe() returns (info: ImageCreateInfo, probed: Option<Format>)
    ensures probed == Some(D32Sfloat)
    ensures info.format != probed.value && info.format !in {D32Sfloat}
  {
    probed := ChooseDepthFormat({D32Sfloat});
    assert DEPTH_FORMAT_CANDIDATES[0] in {D32Sfloat};
    info := CreateDepthImage({D32Sfloat}, Extent2D(1, 1));
  }

  /** CreateDepthImage using the probed format: the created format is one the device
      supports as a depth attachment whenever any candidate is. */
  method CreateDepthImageWithProbedFormat(depthSupported: set<Format>, renderExtent: Extent2D)
    returns (info: Option<ImageCreateInfo>)
    ensures info.Some? ==> info.value.format in depthSupported && info.value.format in DEPTH_FORMAT_CANDIDATES
    ensures info.Some? ==> info.value.extent == renderExtent && info.value.mipLevels == 1
    ensures info.None? <==> forall f :: f in DEPTH_FORMAT_CANDIDATES ==> f !in depthSupported
  {
    var chosen := ChooseDepthFormat(depthSupported);
    if chosen.Some? {
      info := Some(ImageInfo(chosen.value, renderExtent, {DepthStencilAttachment}, false));
    } else {
      info := None;
    }
  }

  /** The debug colours as glm::packUnorm4x8 stores them: red in the low byte,
      alpha in the high byte, each channel 1.0 scaled to 0xFF. */
  const MAGENTA: u32 := 0xFFFF_00FF
  const BLACK: u32 := 0x0000_0000
  const WHITE: u32 := 0xFFFF_FFFF

  /** The checkerboard texel at column x, row y: magenta where x and y differ in
      parity, transparent black where they agree. */
  function CheckerTexel(x: nat, y: nat): (r: u32)
    ensures r == BLACK <==> (x + y) % 2 == 0
    ensures r == MAGENTA <==> (x + y) % 2 == 1
  {
    if (x % 2) != (y % 2) then MAGENTA else BLACK
  }

  /** The 16x16 texel array filled row-major, column loop outside, row loop inside. */
  method CheckerboardData() returns (data: seq<u32>)
    ensures |data| == 256
    ensures forall x, y :: 0 <= x < 16 && 0 <= y < 16 ==> data[y * 16 + x] == CheckerTexel(x, y)
  {
    var a := new u32[256];
    var x := 0;
    while x < 16
      invariant 0 <= x <= 16
      invariant forall i, j :: 0 <= i < x && 0 <= j < 16 ==> a[j * 16 + i] == CheckerTexel(i, j)
    {
      var y := 0;
      while y < 16
        invariant 0 <= y <= 16
        invariant forall i, j :: 0 <= i < x && 0 <= j < 16 ==> a[j * 16 + i] == CheckerTexel(i, j)
        invariant forall j :: 0 <= j < y ==> a[j * 16 + x] == CheckerTexel(x, j)
      {
        a[y * 16 + x] := CheckerTexel(x, y);
        y := y + 1;
      }
      x := x + 1;
    }
    data := a[..];
  }
}
