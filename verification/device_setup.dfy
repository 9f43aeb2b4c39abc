/** Logical-device setup (Device.cpp, Device::Device(vk::Instance&)): the
    required-extension check, the report of missing extensions, the graphics and
    compute queue-family choice, and the extension list handed to createDevice.
    The physical device, the feature chain and the driver calls are not modelled:
    the enumerated extension names and queue-family flags are inputs. */
module DeviceSetup {
  import opened Common

  const EXT_MESH_SHADER: string := "VK_EXT_mesh_shader"
  const EXT_SHADER_OBJECT: string := "VK_EXT_shader_object"
  const EXT_DYNAMIC_RENDERING_UNUSED_ATTACHMENTS: string := "VK_EXT_dynamic_rendering_unused_attachments"
  const KHR_SWAPCHAIN: string := "VK_KHR_swapchain"

  /** The extensions the main render path uses, in the order they are pushed. */
  const REQUIRED_EXTENSIONS: seq<string> :=
    [EXT_MESH_SHADER, EXT_SHADER_OBJECT, EXT_DYNAMIC_RENDERING_UNUSED_ATTACHMENTS, KHR_SWAPCHAIN]

  const QUEUE_GRAPHICS_BIT: bv32 := 0x1
  const QUEUE_COMPUTE_BIT: bv32 := 0x2

  predicate HasFlag(flags: bv32, bit: bv32) {
    flags & bit != 0
  }

  /** Sets supported[i] exactly when required name i equals some available name;
      allSupported is cleared as soon as one required name is not found. The inner
      loop has no break: a name listed twice simply sets the entry twice. */
  method CheckExtensions(required: seq<string>, available: seq<string>)
    returns (supported: seq<bool>, allSupported: bool)
    ensures |supported| == |required|
    ensures forall i :: 0 <= i < |required| ==> (supported[i] <==> required[i] in available)
    ensures allSupported <==> forall i :: 0 <= i < |required| ==> required[i] in available
  {
    supported := seq(|required|, _ => false);
    allSupported := true;
    var i := 0;
    while i < |required|
      invariant 0 <= i <= |required|
      invariant |supported| == |required|
      invariant forall k :: 0 <= k < i ==> (supported[k] <==> required[k] in available)
      invariant forall k :: i <= k < |required| ==> !supported[k]
      invariant allSupported <==> forall k :: 0 <= k < i ==> required[k] in available
    {
      var isSupported := false;
      var j := 0;
      while j < |available|
        invariant 0 <= j <= |available|
        invariant |supported| == |required|
        invariant isSupported <==> required[i] in available[..j]
        invariant supported[i] == isSupported
        invariant forall k :: 0 <= k < i ==> (supported[k] <==> required[k] in available)
        invariant forall k :: i < k < |required| ==> !supported[k]
      {
        if required[i] == available[j] {
          supported := supported[i := true];
          isSupported := true;
        }
        assert available[..j + 1] == available[..j] + [available[j]];
        j := j + 1;
      }
      assert available[..j] == available;
      if !isSupported {
        allSupported := false;
      }
      i := i + 1;
    }
  }

  /** The required names whose entry is false, in list order. */
  function Missing(required: seq<string>, supported: seq<bool>): (r: seq<string>)
    requires |supported| == |required|
    ensures |r| <= |required|
    ensures forall n :: n in r ==> n in required
  {
    if |required| == 0 then []
    else
      var last := |required| - 1;
      Missing(required[..last], supported[..last])
      + (if supported[last] then [] else [required[last]])
  }

  /** The lines printed under "Your GPU does not support the following features:"
      (nothing is printed when every extension is supported). */
  method MissingReport(required: seq<string>, supported: seq<bool>, allSupported: bool)
    returns (lines: seq<string>)
    requires |supported| == |required|
    ensures allSupported ==> lines == []
    ensures !allSupported ==> lines == Missing(required, supported)
  {
    lines := [];
    if !allSupported {
      var i := 0;
      while i < |required|
        invariant 0 <= i <= |required|
        invariant lines == Missing(required[..i], supported[..i])
      {
        assert required[..i + 1][..i] == required[..i];
        assert supported[..i + 1][..i] == supported[..i];
        if !supported[i] {
          lines := lines + [required[i]];
        }
        i := i + 1;
      }
      assert required[..i] == required && supported[..i] == supported;
    }
  }

  /** The report names exactly the required extensions the device lacks. */
  lemma {:induction false} MissingNamesUnavailable(required: seq<string>, available: seq<string>, supported: seq<bool>)
    requires |supported| == |required|
    requires forall i :: 0 <= i < |required| ==> (supported[i] <==> required[i] in available)
    ensures forall n :: n in Missing(required, supported) <==> n in required && n !in available
    decreases |required|
  {
    if |required| > 0 {
      var last := |required| - 1;
      MissingNamesUnavailable(required[..last], available, supported[..last]);
      forall n
        ensures n in required <==> n in required[..last] || n == required[last]
      {
        assert required == required[..last] + [required[last]];
      }
    }
  }

  /** The report is empty exactly when every extension was found. */
  lemma {:induction false} MissingEmptyIffAllSupported(required: seq<string>, supported: seq<bool>)
    requires |supported| == |required|
    ensures Missing(required, supported) == [] <==> forall i :: 0 <= i < |required| ==> supported[i]
    decreases |required|
  {
    if |required| > 0 {
      var last := |required| - 1;
      MissingEmptyIffAllSupported(required[..last], supported[..last]);
      assert forall i :: 0 <= i < last ==> supported[..last][i] == supported[i];
    }
  }

  /** The first family whose flags carry the graphics bit, or 0 when there is none. */
  method SelectGraphicsFamily(families: seq<bv32>) returns (index: u32)
    requires |families| <= U32_LIMIT
    ensures (exists i :: 0 <= i < |families| && HasFlag(families[i], QUEUE_GRAPHICS_BIT)) ==>
      index < |families| && HasFlag(families[index], QUEUE_GRAPHICS_BIT)
    ensures forall j :: 0 <= j < index && j < |families| ==> !HasFlag(families[j], QUEUE_GRAPHICS_BIT)
    ensures (forall i :: 0 <= i < |families| ==> !HasFlag(families[i], QUEUE_GRAPHICS_BIT)) ==> index == 0
  {
    index := 0;
    var i := 0;
    while i < |families|
      invariant 0 <= i <= |families|
      invariant index == 0
      invariant forall j :: 0 <= j < i ==> !HasFlag(families[j], QUEUE_GRAPHICS_BIT)
    {
      if HasFlag(families[i], QUEUE_GRAPHICS_BIT) {
        index := i;
        break;
      }
      i := i + 1;
    }
  }

  /** The first family other than the graphics family whose flags carry the compute
      bit, or 0 when there is none (which may be the graphics family itself). */
  method SelectComputeFamily(families: seq<bv32>, graphics: u32) returns (index: u32)
    requires |families| <= U32_LIMIT
    ensures (exists i :: 0 <= i < |families| && i != graphics && HasFlag(families[i], QUEUE_COMPUTE_BIT)) ==>
      index < |families| && index != graphics && HasFlag(families[index], QUEUE_COMPUTE_BIT)
    ensures forall j :: 0 <= j < index && j < |families| && j != graphics ==> !HasFlag(families[j], QUEUE_COMPUTE_BIT)
    ensures (forall i :: 0 <= i < |families| && i != graphics ==> !HasFlag(families[i], QUEUE_COMPUTE_BIT)) ==> index == 0
  {
    index := 0;
    var i := 0;
    while i < |families|
      invariant 0 <= i <= |families|
      invariant index == 0
      invariant forall j :: 0 <= j < i && j != graphics ==> !HasFlag(families[j], QUEUE_COMPUTE_BIT)
    {
      if HasFlag(families[i], QUEUE_COMPUTE_BIT) {
        if i != graphics {
          index := i;
          break;
        }
      }
      i := i + 1;
    }
  }

  /** What the constructor hands to createDevice, plus what it printed. The queue
      create infos are given by their family indices, graphics first. */
  datatype DeviceCreateInfo = DeviceCreateInfo(
    enabledExtensions: seq<string>,
    graphicsQueueFamilyIndex: u32,
    computeQueueFamilyIndex: u32,
    queueCreateFamilies: seq<u32>,
    printedMissing: seq<string>)

  /** The constructor's bookkeeping: missing extensions are only reported, and the
      device is created with the full required list whatever the check found. Two
      queue create infos are always built, one for the graphics family and one for
      the compute family; they name the same family exactly when family 0 is the
      graphics family and no other family has the compute bit. */
  method CreateDevice(available: seq<string>, families: seq<bv32>) returns (info: DeviceCreateInfo)
    requires |families| <= U32_LIMIT
    ensures info.enabledExtensions == REQUIRED_EXTENSIONS
    ensures forall n :: n in info.printedMissing <==> n in REQUIRED_EXTENSIONS && n !in available
    ensures var g := info.graphicsQueueFamilyIndex;
      ((exists i :: 0 <= i < |families| && HasFlag(families[i], QUEUE_GRAPHICS_BIT)) ==>
         g < |families| && HasFlag(families[g], QUEUE_GRAPHICS_BIT))
      && (forall j :: 0 <= j < g && j < |families| ==> !HasFlag(families[j], QUEUE_GRAPHICS_BIT))
      && ((forall i :: 0 <= i < |families| ==> !HasFlag(families[i], QUEUE_GRAPHICS_BIT)) ==> g == 0)
    ensures var g, c := info.graphicsQueueFamilyIndex, info.computeQueueFamilyIndex;
      ((exists i :: 0 <= i < |families| && i != g && HasFlag(families[i], QUEUE_COMPUTE_BIT)) ==>
         c < |families| && c != g && HasFlag(families[c], QUEUE_COMPUTE_BIT))
      && (forall j :: 0 <= j < c && j < |families| && j != g ==> !HasFlag(families[j], QUEUE_COMPUTE_BIT))
      && ((forall i :: 0 <= i < |families| && i != g ==> !HasFlag(families[i], QUEUE_COMPUTE_BIT)) ==> c == 0)
    ensures info.queueCreateFamilies == [info.graphicsQueueFamilyIndex, info.computeQueueFamilyIndex]
    ensures info.graphicsQueueFamilyIndex == info.computeQueueFamilyIndex <==>
      info.graphicsQueueFamilyIndex == 0
      && forall i :: 0 < i < |families| ==> !HasFlag(families[i], QUEUE_COMPUTE_BIT)
  {
    var supported, allSupported := CheckExtensions(REQUIRED_EXTENSIONS, available);
    var lines := MissingReport(REQUIRED_EXTENSIONS, supported, allSupported);
    MissingNamesUnavailable(REQUIRED_EXTENSIONS, available, supported);
    if allSupported {
      MissingEmptyIffAllSupported(REQUIRED_EXTENSIONS, supported);
    }
    var graphics := SelectGraphicsFamily(families);
    var compute := SelectComputeFamily(families, graphics);
    info := DeviceCreateInfo(REQUIRED_EXTENSIONS, graphics, compute, [graphics, compute], lines);
  }
}
