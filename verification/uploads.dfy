/** Buffer and image creation and the staged uploads (Renderer.cpp CreateBuffer,
    UploadData, UploadMesh, CreateUploadImage, and the meshlet uploads at the end of
    OptimizeMesh). The memory allocator is a log of the requests made of it; a handle
    is the position of its request in that log, and a device address stands for the
    buffer it belongs to. What the host writes into a staging buffer and every copy an
    upload records are modelled; what device memory holds afterwards is not. */
module Uploads {
  import opened Common
  import opened Images
  import opened Swapchains
  import opened Commands
  import opened Meshlets
  import opened FrameLoop
  import opened Scene

  datatype BufferUsage = StorageBuffer | TransferSrcBuffer | TransferDstBuffer | ShaderDeviceAddress

  datatype MemoryUsage = GpuOnly | CpuOnly | CpuToGpu

  datatype BufferRequest = BufferRequest(size: nat, usage: set<BufferUsage>, memory: MemoryUsage)

  /** The usage of every device-local buffer the shaders read through its address. */
  const DEVICE_BUFFER_USAGE: set<BufferUsage> := {StorageBuffer, TransferDstBuffer, ShaderDeviceAddress}

  const STAGING_USAGE: set<BufferUsage> := {TransferSrcBuffer}

  /** sizeof of the uploaded records. Every field is four bytes wide (float, uint32_t
      or a glm vector of them), so no record is padded. */
  const VERTEX_SIZE: nat := 32
  const INDEX_SIZE: nat := 4
  const MESH_VIEW_SIZE: nat := 16
  const MATERIAL_INDEX_GROUP_SIZE: nat := 12
  const POINT_LIGHT_SIZE: nat := 32
  const SPOT_LIGHT_SIZE: nat := 64
  const DIR_LIGHT_SIZE: nat := 32
  const MESHLET_SIZE: nat := 16
  const MESHLET_VERTEX_SIZE: nat := 4
  const MESHLET_TRIANGLE_SIZE: nat := 1

  /** Bytes per texel of an R8G8B8A8 image. */
  const TEXEL_SIZE: nat := 4

  /** The memory allocator as the renderer uses it: buffers and images are created,
      and staging buffers destroyed. */
  class Allocator {
    var buffers: seq<BufferRequest>
    var destroyed: set<nat>
    var images: seq<ImageCreateInfo>

    constructor ()
      ensures buffers == [] && destroyed == {} && images == []
    {
      buffers := [];
      destroyed := {};
      images := [];
    }

    /** CreateBuffer: one buffer of the given size, usage and memory kind. */
    method CreateBuffer(size: nat, usage: set<BufferUsage>, memory: MemoryUsage) returns (handle: nat)
      modifies this
      ensures buffers == old(buffers) + [BufferRequest(size, usage, memory)]
      ensures handle == |old(buffers)| && handle < |buffers|
      ensures destroyed == old(destroyed) && images == old(images)
    {
      handle := |buffers|;
      buffers := buffers + [BufferRequest(size, usage, memory)];
    }

    method DestroyBuffer(handle: nat)
      modifies this
      ensures destroyed == old(destroyed) + {handle}
      ensures buffers == old(buffers) && images == old(images)
    {
      destroyed := destroyed + {handle};
    }

    method CreateImage(info: ImageCreateInfo) returns (handle: ImageHandle)
      modifies this
      ensures images == old(images) + [info] && handle == |old(images)|
      ensures buffers == old(buffers) && destroyed == old(destroyed)
    {
      handle := |images|;
      images := images + [info];
    }
  }

  /** A buffer-to-buffer copy reads inside its source and writes inside its target. */
  predicate CopyFits(buffers: seq<BufferRequest>, c: Cmd) {
    c.CopyBuffer? ==>
      c.src < |buffers| && c.dst < |buffers|
      && c.srcOffset + c.size <= buffers[c.src].size
      && c.dstOffset + c.size <= buffers[c.dst].size
  }

  predicate CopiesFit(buffers: seq<BufferRequest>, cmds: seq<Cmd>) {
    forall i :: 0 <= i < |cmds| ==> CopyFits(buffers, cmds[i])
  }

  /** SubmitImmediate from two empty slot buffers, recording into the current slot's,
      followed by the command-pool reset every upload makes. */
  function ImmediateCalls(slot: nat, recorded: seq<Cmd>): seq<FrameCall> {
    var log0 := [BeginCmd] + (if slot == 0 then recorded else []) + [EndCmd];
    var log1 := [BeginCmd] + (if slot == 1 then recorded else []) + [EndCmd];
    [FrameCall.ResetFence(ImmediateFence), QueueSubmit([log0, log1], None, None, ImmediateFence),
     WaitForFence(ImmediateFence), FrameCall.ResetCommandPool]
  }

  /** SubmitImmediate followed by resetCommandPool, the tail of every upload. */
  method SubmitImmediateAndReset(gpu: Renderer, recorded: seq<Cmd>)
    requires gpu.Idle()
    modifies gpu, gpu.cmdBuffers[0], gpu.cmdBuffers[1]
    ensures gpu.Idle()
    ensures gpu.calls == old(gpu.calls) + ImmediateCalls(gpu.currentFrame, recorded)
    ensures gpu.currentFrame == old(gpu.currentFrame) && gpu.requestNewSwapchain == old(gpu.requestNewSwapchain)
    ensures gpu.doVsync == old(gpu.doVsync) && gpu.immediateFence == Signalled
  {
    gpu.SubmitImmediate(recorded);
    assert [] + [BeginCmd] == [BeginCmd];
    gpu.ResetCommandPool();
  }

  /** The two buffers UploadData creates for size bytes: the device-local target,
      then the host staging buffer. */
  function DataRequests(size: nat): seq<BufferRequest> {
    [BufferRequest(size, DEVICE_BUFFER_USAGE, GpuOnly), BufferRequest(size, STAGING_USAGE, CpuOnly)]
  }

  /** The one copy UploadData records, from the staging buffer (base + 1) into the
      target (base), over the whole size. */
  function DataCopyCmds(base: nat, size: nat): seq<Cmd> {
    [CopyBuffer(base + 1, base, 0, 0, size)]
  }

  /** UploadData<T>: size = sizeof(T) * count bytes are staged, copied into a new
      device-local buffer in one immediate submission, and the staging buffer is
      destroyed. The address returned is the target's. */
  method UploadData(alloc: Allocator, gpu: Renderer, elementSize: nat, count: nat) returns (address: nat)
    requires gpu.Idle()
    modifies alloc, gpu, gpu.cmdBuffers[0], gpu.cmdBuffers[1]
    ensures gpu.Idle()
    ensures var n := |old(alloc.buffers)|;
      alloc.buffers == old(alloc.buffers) + DataRequests(elementSize * count)
      && alloc.destroyed == old(alloc.destroyed) + {n + 1} && alloc.images == old(alloc.images)
      && address == n
      && gpu.calls == old(gpu.calls) + ImmediateCalls(gpu.currentFrame, DataCopyCmds(n, elementSize * count))
    ensures CopiesFit(alloc.buffers, DataCopyCmds(address, elementSize * count))
    ensures alloc.buffers[address].size == elementSize * count && alloc.buffers[address].memory == GpuOnly
    ensures gpu.currentFrame == old(gpu.currentFrame) && gpu.requestNewSwapchain == old(gpu.requestNewSwapchain)
    ensures gpu.doVsync == old(gpu.doVsync)
  {
    var size := elementSize * count;
    var buffer := alloc.CreateBuffer(size, DEVICE_BUFFER_USAGE, GpuOnly);
    var stage := alloc.CreateBuffer(size, STAGING_USAGE, CpuOnly);
    SubmitImmediateAndReset(gpu, [CopyBuffer(stage, buffer, 0, 0, size)]);
    alloc.DestroyBuffer(stage);
    address := buffer;
  }

  /** A staging-buffer byte: byte `offset` of the object representation of vertex
      number `vertex` (vertex contents are not modelled), or a byte whose value is
      known. */
  datatype StagedByte = VertexByte(vertex: nat, offset: nat) | KnownByte(value: u8)

  /** The bytes memcpy copies from a span of count vertices. */
  function VertexSpanBytes(count: nat): (r: seq<StagedByte>)
    ensures |r| == VERTEX_SIZE * count
  {
    seq(VERTEX_SIZE * count, j requires 0 <= j => VertexByte(j / VERTEX_SIZE, j % VERTEX_SIZE))
  }

  function Known(bytes: seq<u8>): (r: seq<StagedByte>)
    ensures |r| == |bytes| && forall j :: 0 <= j < |r| ==> r[j] == KnownByte(bytes[j])
  {
    seq(|bytes|, j requires 0 <= j < |bytes| => KnownByte(bytes[j]))
  }

  /** The handles of the two device-local buffers of the scene geometry. */
  datatype MeshBuffer = MeshBuffer(indexBuffer: nat, vertexBuffer: nat)

  /** The buffers of a mesh upload: the vertex buffer, the index buffer, and one
      staging buffer holding both, each sized for what is copied into it. */
  function MeshBufferRequests(vertSize: nat, indiSize: nat): seq<BufferRequest> {
    [BufferRequest(vertSize, DEVICE_BUFFER_USAGE, GpuOnly),
     BufferRequest(indiSize, DEVICE_BUFFER_USAGE, GpuOnly),
     BufferRequest(vertSize + indiSize, STAGING_USAGE, CpuOnly)]
  }

  /** The buffers UploadMesh creates as written: the index buffer is created with
      the vertex data's size. */
  function MeshBufferRequestsAsWritten(vertSize: nat, indiSize: nat): seq<BufferRequest> {
    [BufferRequest(vertSize, DEVICE_BUFFER_USAGE, GpuOnly),
     BufferRequest(vertSize, DEVICE_BUFFER_USAGE, GpuOnly),
     BufferRequest(vertSize + indiSize, STAGING_USAGE, CpuOnly)]
  }

  /** The two copies UploadMesh records out of the staging buffer (base + 2): the
      vertex bytes from offset 0 into the vertex buffer (base), the index bytes from
      offset vertSize into the index buffer (base + 1). */
  function MeshCopyCmds(base: nat, vertSize: nat, indiSize: nat): seq<Cmd> {
    [CopyBuffer(base + 2, base, 0, 0, vertSize), CopyBuffer(base + 2, base + 1, vertSize, 0, indiSize)]
  }

  /** With the index buffer sized for the index data, both copies fit. */
  lemma MeshCopiesFit(prefix: seq<BufferRequest>, vertSize: nat, indiSize: nat)
    ensures CopiesFit(prefix + MeshBufferRequests(vertSize, indiSize), MeshCopyCmds(|prefix|, vertSize, indiSize))
  {
    var buffers := prefix + MeshBufferRequests(vertSize, indiSize);
    var cmds := MeshCopyCmds(|prefix|, vertSize, indiSize);
    assert CopyFits(buffers, cmds[0]) && CopyFits(buffers, cmds[1]);
  }

  /** As written, the index copy fits its buffer exactly when the index data is no
      larger than the vertex data. */
  lemma AsWrittenMeshCopiesFitIff(prefix: seq<BufferRequest>, vertSize: nat, indiSize: nat)
    ensures CopiesFit(prefix + MeshBufferRequestsAsWritten(vertSize, indiSize), MeshCopyCmds(|prefix|, vertSize, indiSize))
      <==> indiSize <= vertSize
  {
    var buffers := prefix + MeshBufferRequestsAsWritten(vertSize, indiSize);
    var cmds := MeshCopyCmds(|prefix|, vertSize, indiSize);
    assert buffers[|prefix| + 1].size == vertSize && buffers[|prefix| + 2].size == vertSize + indiSize;
    if indiSize <= vertSize {
      assert CopyFits(buffers, cmds[0]) && CopyFits(buffers, cmds[1]);
    } else {
      assert !CopyFits(buffers, cmds[1]);
    }
  }

  /** Three vertices shared by nine triangles (27 indices): 108 index bytes are
      copied into an index buffer of 96 bytes. */
  lemma AsWrittenIndexCopyOverflows()
    ensures !CopiesFit(MeshBufferRequestsAsWritten(3 * VERTEX_SIZE, 27 * INDEX_SIZE),
                       MeshCopyCmds(0, 3 * VERTEX_SIZE, 27 * INDEX_SIZE))
  {
    AsWrittenMeshCopiesFitIff([], 3 * VERTEX_SIZE, 27 * INDEX_SIZE);
    assert [] + MeshBufferRequestsAsWritten(3 * VERTEX_SIZE, 27 * INDEX_SIZE)
      == MeshBufferRequestsAsWritten(3 * VERTEX_SIZE, 27 * INDEX_SIZE);
  }

  /** What UploadMesh writes into its staging buffer: the vertex span's bytes, then
      the index array's bytes. */
  function MeshStaging(indices: seq<u32>, vertexCount: nat): seq<StagedByte> {
    VertexSpanBytes(vertexCount) + Known(LeBytes32s(indices))
  }

  /** The vertex copy reads exactly the vertex bytes out of the staging buffer, and
      the index copy exactly the index bytes, which decode to the index array. */
  lemma MeshStagingLayout(indices: seq<u32>, vertexCount: nat, base: nat)
    ensures var staging := MeshStaging(indices, vertexCount);
      var copies := MeshCopyCmds(base, VERTEX_SIZE * vertexCount, INDEX_SIZE * |indices|);
      |staging| == copies[0].size + copies[1].size
      && staging[copies[0].srcOffset .. copies[0].srcOffset + copies[0].size] == VertexSpanBytes(vertexCount)
      && staging[copies[1].srcOffset .. copies[1].srcOffset + copies[1].size] == Known(LeBytes32s(indices))
      && LeDecode32s(LeBytes32s(indices)) == indices
  {
    var vertexBytes := VertexSpanBytes(vertexCount);
    var indexBytes := Known(LeBytes32s(indices));
    AppendSlices(vertexBytes, indexBytes);
    LeDecodeEncode32s(indices);
  }

  /** UploadMesh with the index buffer sized for the indices: the vertex and index
      buffers, one staging buffer holding the vertex bytes followed by the index
      bytes (returned as staging), two copies out of it in one immediate submission,
      then the staging buffer is destroyed. */
  method UploadMesh(alloc: Allocator, gpu: Renderer, indices: seq<u32>, vertexCount: nat)
    returns (mesh: MeshBuffer, staging: seq<StagedByte>)
    requires gpu.Idle()
    modifies alloc, gpu, gpu.cmdBuffers[0], gpu.cmdBuffers[1]
    ensures gpu.Idle()
    ensures var n := |old(alloc.buffers)|;
      var vertSize, indiSize := VERTEX_SIZE * vertexCount, INDEX_SIZE * |indices|;
      alloc.buffers == old(alloc.buffers) + MeshBufferRequests(vertSize, indiSize)
      && alloc.destroyed == old(alloc.destroyed) + {n + 2} && alloc.images == old(alloc.images)
      && mesh == MeshBuffer(n + 1, n)
      && gpu.calls == old(gpu.calls) + ImmediateCalls(gpu.currentFrame, MeshCopyCmds(n, vertSize, indiSize))
      && CopiesFit(alloc.buffers, MeshCopyCmds(n, vertSize, indiSize))
    ensures staging == MeshStaging(indices, vertexCount)
    ensures gpu.currentFrame == old(gpu.currentFrame) && gpu.requestNewSwapchain == old(gpu.requestNewSwapchain)
    ensures gpu.doVsync == old(gpu.doVsync)
  {
    var vertSize := VERTEX_SIZE * vertexCount;
    var indiSize := INDEX_SIZE * |indices|;
    MeshCopiesFit(alloc.buffers, vertSize, indiSize);
    var vertBuffer := alloc.CreateBuffer(vertSize, DEVICE_BUFFER_USAGE, GpuOnly);
    var indexBuffer := alloc.CreateBuffer(indiSize, DEVICE_BUFFER_USAGE, GpuOnly);
    mesh := MeshBuffer(indexBuffer, vertBuffer);
    var stage := alloc.CreateBuffer(vertSize + indiSize, STAGING_USAGE, CpuOnly);
    staging := MeshStaging(indices, vertexCount);
    SubmitImmediateAndReset(gpu, [CopyBuffer(stage, vertBuffer, 0, 0, vertSize),
                                  CopyBuffer(stage, indexBuffer, vertSize, 0, indiSize)]);
    alloc.DestroyBuffer(stage);
  }

  /** The staging size CreateUploadImage computes, height * width * 4 in uint32_t
      arithmetic before it is widened to size_t. */
  function UploadImageSize(extent: Extent2D): (r: u32)
    ensures extent.width * extent.height * TEXEL_SIZE < U32_LIMIT ==> r == extent.width * extent.height * TEXEL_SIZE
  {
    Wrap32(extent.height * extent.width * 4)
  }

  /** What CreateUploadImage records: the image into TransferDstOptimal, the copy
      of the staged texels, the image into ShaderReadOnlyOptimal. */
  function ImageUploadCmds(upload: nat, image: ImageHandle): seq<Cmd> {
    [TransitionCmd(image, ColorAspect, Undefined, TransferDstOptimal, ACCESS_NONE, {TransferWrite}),
     CopyBufferToImage(upload, image),
     TransitionCmd(image, ColorAspect, TransferDstOptimal, ShaderReadOnlyOptimal, {TransferWrite}, {ShaderSampledRead})]
  }

  /** The uploaded image goes Undefined, TransferDstOptimal, ShaderReadOnlyOptimal,
      and the copy is recorded while it is in TransferDstOptimal. */
  lemma {:induction false} ImageUploadLayouts(upload: nat, image: ImageHandle)
    ensures var cmds := ImageUploadCmds(upload, image);
      Transitions(cmds, image)
        == [LayoutChange(Undefined, TransferDstOptimal), LayoutChange(TransferDstOptimal, ShaderReadOnlyOptimal)]
      && Chained(Transitions(cmds, image))
      && cmds[1] == CopyBufferToImage(upload, image)
      && Transitions(cmds[..1], image) == [LayoutChange(Undefined, TransferDstOptimal)]
  {
    var cmds := ImageUploadCmds(upload, image);
    var t1 := TransitionCmd(image, ColorAspect, Undefined, TransferDstOptimal, ACCESS_NONE, {TransferWrite});
    var t2 := TransitionCmd(image, ColorAspect, TransferDstOptimal, ShaderReadOnlyOptimal, {TransferWrite}, {ShaderSampledRead});
    TransitionChange(image, ColorAspect, Undefined, TransferDstOptimal, ACCESS_NONE, {TransferWrite}, image);
    TransitionChange(image, ColorAspect, TransferDstOptimal, ShaderReadOnlyOptimal, {TransferWrite}, {ShaderSampledRead}, image);
    TransitionsSingle(CopyBufferToImage(upload, image), image);
    assert cmds[..1] == [t1];
    assert cmds == [t1] + [CopyBufferToImage(upload, image)] + [t2];
    TransitionsAppend([t1], [CopyBufferToImage(upload, image)], image);
    TransitionsAppend([t1] + [CopyBufferToImage(upload, image)], [t2], image);
  }

  /** CreateUploadImage: a host-visible upload buffer of height * width * 4 bytes, an
      image with transfer usage added, the two barriers and the copy in one immediate
      submission. The upload buffer is not destroyed. */
  method CreateUploadImage(alloc: Allocator, gpu: Renderer, format: Format, extent: Extent2D,
                           usage: set<ImageUsage>, makeMipmaps: bool)
    returns (image: AllocatedImage)
    requires gpu.Idle()
    requires makeMipmaps ==> extent.width >= 1 || extent.height >= 1
    modifies alloc, gpu, gpu.cmdBuffers[0], gpu.cmdBuffers[1]
    ensures gpu.Idle()
    ensures var b, i := |old(alloc.buffers)|, |old(alloc.images)|;
      alloc.buffers == old(alloc.buffers) + [BufferRequest(UploadImageSize(extent), STAGING_USAGE, CpuToGpu)]
      && alloc.images == old(alloc.images) + [ImageInfo(format, extent, usage + {TransferDst, TransferSrc}, makeMipmaps)]
      && alloc.destroyed == old(alloc.destroyed)
      && image == AllocatedImage(i, ImageView(i, format))
      && gpu.calls == old(gpu.calls) + ImmediateCalls(gpu.currentFrame, ImageUploadCmds(b, i))
    ensures gpu.currentFrame == old(gpu.currentFrame) && gpu.requestNewSwapchain == old(gpu.requestNewSwapchain)
    ensures gpu.doVsync == old(gpu.doVsync)
  {
    var upload := alloc.CreateBuffer(UploadImageSize(extent), STAGING_USAGE, CpuToGpu);
    var handle := alloc.CreateImage(ImageInfo(format, extent, usage + {TransferDst, TransferSrc}, makeMipmaps));
    image := AllocatedImage(handle, ImageView(handle, format));
    SubmitImmediateAndReset(gpu, ImageUploadCmds(upload, handle));
  }

  /** The three uploads closing OptimizeMesh: the meshlet array, the meshlet vertex
      indices and the meshlet triangle bytes, each without a size check. */
  method UploadMeshlets(alloc: Allocator, gpu: Renderer, buffers: MeshletBuffers)
    returns (meshletsAddress: nat, verticesAddress: nat, trianglesAddress: nat)
    requires gpu.Idle()
    modifies alloc, gpu, gpu.cmdBuffers[0], gpu.cmdBuffers[1]
    ensures gpu.Idle()
    ensures var n := |old(alloc.buffers)|;
      var s1, s2, s3 := MESHLET_SIZE * |buffers.meshlets|, MESHLET_VERTEX_SIZE * |buffers.meshletVertices|,
                        MESHLET_TRIANGLE_SIZE * |buffers.meshletTriangles|;
      alloc.buffers == old(alloc.buffers) + DataRequests(s1) + DataRequests(s2) + DataRequests(s3)
      && alloc.destroyed == old(alloc.destroyed) + {n + 1, n + 3, n + 5} && alloc.images == old(alloc.images)
      && meshletsAddress == n && verticesAddress == n + 2 && trianglesAddress == n + 4
      && gpu.calls == old(gpu.calls) + ImmediateCalls(gpu.currentFrame, DataCopyCmds(n, s1))
         + ImmediateCalls(gpu.currentFrame, DataCopyCmds(n + 2, s2)) + ImmediateCalls(gpu.currentFrame, DataCopyCmds(n + 4, s3))
    ensures gpu.currentFrame == old(gpu.currentFrame) && gpu.requestNewSwapchain == old(gpu.requestNewSwapchain)
    ensures gpu.doVsync == old(gpu.doVsync)
  {
    meshletsAddress := UploadData(alloc, gpu, MESHLET_SIZE, |buffers.meshlets|);
    verticesAddress := UploadData(alloc, gpu, MESHLET_VERTEX_SIZE, |buffers.meshletVertices|);
    trianglesAddress := UploadData(alloc, gpu, MESHLET_TRIANGLE_SIZE, |buffers.meshletTriangles|);
  }

  /** The meshlet step of OptimizeMesh followed by its uploads: the uploaded meshlet
      array holds the builder's bound of meshlets, not the number built, and that
      same length is the task-group count every frame launches. */
  method BuildAndUploadMeshlets(alloc: Allocator, gpu: Renderer, buffers: MeshletBuffers,
                                maxMeshlets: nat, meshletCount: size_t, built: BuiltMeshlets)
    returns (meshletsAddress: nat)
    requires gpu.Idle()
    requires |built.meshlets| == maxMeshlets
    requires |built.vertices| == maxMeshlets * MAX_VERTICES
    requires |built.triangles| == maxMeshlets * MAX_TRIANGLES * 3
    requires meshletCount <= maxMeshlets
    modifies alloc, gpu, gpu.cmdBuffers[0], gpu.cmdBuffers[1], buffers
    ensures gpu.Idle()
    ensures meshletsAddress < |alloc.buffers| && alloc.buffers[meshletsAddress].size == MESHLET_SIZE * maxMeshlets
    ensures |buffers.meshlets| == maxMeshlets && buffers.meshlets == built.meshlets
    ensures meshletCount >= 1 ==> |buffers.meshletVertices| == VertexEnd(built.meshlets[meshletCount - 1])
  {
    buffers.BuildMeshlets(maxMeshlets, meshletCount, built);
    var verticesAddress, trianglesAddress;
    meshletsAddress, verticesAddress, trianglesAddress := UploadMeshlets(alloc, gpu, buffers);
  }

  /** OptimizeMesh's meshlet build and upload, then a frame: the frame launches
      one task group per entry of the meshlet array, which is maxMeshlets narrowed
      to uint32_t and not the number of meshlets the builder produced. */
  method DrawAfterMeshletUpload(alloc: Allocator, gpu: Renderer, buffers: MeshletBuffers,
                                maxMeshlets: nat, meshletCount: size_t, built: BuiltMeshlets,
                                acquired: AcquireResult, nextIndex: u32, vsyncClicked: bool, presentOk: bool,
                                sizes: PoolSizes, w: int, h: int, created: SwapchainHandle, createdImages: seq<ImageHandle>)
    requires gpu.Idle()
    requires |built.meshlets| == maxMeshlets
    requires |built.vertices| == maxMeshlets * MAX_VERTICES
    requires |built.triangles| == maxMeshlets * MAX_TRIANGLES * 3
    requires meshletCount <= maxMeshlets
    requires |createdImages| <= IMAGE_COUNT
    requires !NeedsRecreate(acquired) ==> nextIndex < |gpu.swapchain.images|
    modifies alloc, gpu, gpu.cmdBuffers[0], gpu.cmdBuffers[1], buffers, gpu.inFlightFences, gpu.command, gpu.swapchain
    ensures gpu.FrameReady()
    ensures |buffers.meshlets| == maxMeshlets
    ensures !NeedsRecreate(acquired) ==>
      exists i :: 0 <= i < |gpu.calls| && gpu.calls[i].QueueSubmit? && |gpu.calls[i].buffers| == 1
                  && DrawMeshTasks(Wrap32(maxMeshlets), 1, 1) in gpu.calls[i].buffers[0]
    ensures !NeedsRecreate(acquired) && presentOk && !vsyncClicked ==>
      DrawMeshTasks(Wrap32(maxMeshlets), 1, 1) in gpu.cmdBuffers[1 - gpu.currentFrame].log
  {
    var _ := BuildAndUploadMeshlets(alloc, gpu, buffers, maxMeshlets, meshletCount, built);
    ghost var calls0, slot := gpu.calls, gpu.currentFrame;
    ghost var images, views, extent := gpu.swapchain.images, gpu.swapchain.imageViews, gpu.swapchain.renderExtent;
    gpu.Draw(acquired, nextIndex, vsyncClicked, presentOk, sizes, buffers, w, h, created, createdImages);
    if !NeedsRecreate(acquired) {
      var sceneInfo := SceneInfoOf(sizes.meshViews, sizes.pointLights, sizes.spotLights, sizes.dirLights);
      var frame := FrameCmds(images[nextIndex], gpu.depthImages[nextIndex], views[nextIndex], extent, sceneInfo, maxMeshlets);
      DrawSeesDepthState(UNSET, images[nextIndex], gpu.depthImages[nextIndex], views[nextIndex], extent, sceneInfo, maxMeshlets);
      var r := FrameCalls(slot, frame, nextIndex, presentOk && !vsyncClicked);
      assert gpu.calls == calls0 + r;
      assert gpu.calls[|calls0| + 1] == r[1];
    }
  }

  /** One guarded upload of UploadAll_Init: the geometry, or an array of count
      records of elementSize bytes. */
  datatype Upload = MeshUpload(indexCount: nat, vertexCount: nat) | DataUpload(elementSize: nat, count: nat)

  function UploadRequests(u: Upload): (r: seq<BufferRequest>)
    ensures |r| >= 2
  {
    match u
    case MeshUpload(indexCount, vertexCount) => MeshBufferRequests(VERTEX_SIZE * vertexCount, INDEX_SIZE * indexCount)
    case DataUpload(elementSize, count) => DataRequests(elementSize * count)
  }

  /** The submission of one upload whose first buffer has handle base. */
  function UploadCalls(slot: nat, base: nat, u: Upload): seq<FrameCall> {
    match u
    case MeshUpload(indexCount, vertexCount) =>
      ImmediateCalls(slot, MeshCopyCmds(base, VERTEX_SIZE * vertexCount, INDEX_SIZE * indexCount))
    case DataUpload(elementSize, count) => ImmediateCalls(slot, DataCopyCmds(base, elementSize * count))
  }

  /** The buffers a run of uploads creates, in order. */
  function UploadsRequests(us: seq<Upload>): (r: seq<BufferRequest>)
    decreases |us|
  {
    if |us| == 0 then [] else UploadsRequests(us[..|us| - 1]) + UploadRequests(us[|us| - 1])
  }

  /** The submissions of a run of uploads whose first buffer has handle base: each
      upload's buffers follow the previous one's. */
  function UploadsCalls(slot: nat, base: nat, us: seq<Upload>): seq<FrameCall>
    decreases |us|
  {
    if |us| == 0 then []
    else
      var init := us[..|us| - 1];
      UploadsCalls(slot, base, init) + UploadCalls(slot, base + |UploadsRequests(init)|, us[|us| - 1])
  }

  /** The staging buffers a run of uploads destroys: each upload's last buffer. */
  function UploadsDestroyed(base: nat, us: seq<Upload>): set<nat>
    decreases |us|
  {
    if |us| == 0 then {}
    else
      var init := us[..|us| - 1];
      UploadsDestroyed(base, init) + {base + |UploadsRequests(init)| + |UploadRequests(us[|us| - 1])| - 1}
  }

  /** Appending one upload to a run appends its buffers, its submission and its
      destroyed staging buffer. */
  lemma UploadsAppendRequests(done: seq<Upload>, u: Upload)
    ensures UploadsRequests(done + [u]) == UploadsRequests(done) + UploadRequests(u)
  {
    assert (done + [u])[..|done|] == done;
  }

  lemma UploadsAppendCalls(slot: nat, base: nat, done: seq<Upload>, u: Upload)
    ensures UploadsCalls(slot, base, done + [u])
         == UploadsCalls(slot, base, done) + UploadCalls(slot, base + |UploadsRequests(done)|, u)
  {
    assert (done + [u])[..|done|] == done;
  }

  lemma UploadsAppendDestroyed(base: nat, done: seq<Upload>, u: Upload)
    ensures UploadsDestroyed(base, done + [u])
         == UploadsDestroyed(base, done) + {base + |UploadsRequests(done)| + |UploadRequests(u)| - 1}
  {
    assert (done + [u])[..|done|] == done;
  }

  /** One more upload extends a logged run of uploads by its buffers, its
      submission and its destroyed staging buffer. */
  lemma UploadsLoggedSnoc(slot: nat, b0: seq<BufferRequest>, c0: seq<FrameCall>, d0: set<nat>, done: seq<Upload>,
                          u: Upload, buffers: seq<BufferRequest>, calls: seq<FrameCall>, destroyed: set<nat>)
    requires buffers == b0 + UploadsRequests(done) && calls == c0 + UploadsCalls(slot, |b0|, done)
    requires destroyed == d0 + UploadsDestroyed(|b0|, done)
    ensures buffers + UploadRequests(u) == b0 + UploadsRequests(done + [u])
    ensures calls + UploadCalls(slot, |b0| + |UploadsRequests(done)|, u) == c0 + UploadsCalls(slot, |b0|, done + [u])
    ensures destroyed + {|b0| + |UploadsRequests(done)| + |UploadRequests(u)| - 1} == d0 + UploadsDestroyed(|b0|, done + [u])
  {
    UploadsAppendRequests(done, u);
    AppendAssoc(b0, UploadsRequests(done), UploadRequests(u));
    UploadsAppendCalls(slot, |b0|, done, u);
    AppendAssoc(c0, UploadsCalls(slot, |b0|, done), UploadCalls(slot, |b0| + |UploadsRequests(done)|, u));
    UploadsAppendDestroyed(|b0|, done, u);
    UnionAssoc(d0, UploadsDestroyed(|b0|, done), {|b0| + |UploadsRequests(done)| + |UploadRequests(u)| - 1});
  }

  /** An upload of nothing: no vertex or no index, or no record, or records of size 0. */
  predicate EmptyUpload(u: Upload) {
    match u
    case MeshUpload(indexCount, vertexCount) => indexCount == 0 || vertexCount == 0
    case DataUpload(elementSize, count) => elementSize == 0 || count == 0
  }

  /** No buffer of size 0 among rs. */
  predicate AllSized(rs: seq<BufferRequest>) {
    forall i :: 0 <= i < |rs| ==> rs[i].size > 0
  }

  /** Uploads of non-empty data create no buffer of size 0, and every buffer a run
      of uploads destroys is one of its own staging buffers. */
  lemma {:induction false} UploadsNeverEmpty(base: nat, us: seq<Upload>)
    requires forall k :: 0 <= k < |us| ==> !EmptyUpload(us[k])
    ensures var rs := UploadsRequests(us);
      AllSized(rs)
      && (forall h :: h in UploadsDestroyed(base, us) ==>
            base <= h < base + |rs| && rs[h - base].usage == STAGING_USAGE)
    decreases |us|
  {
    if |us| > 0 {
      var init := us[..|us| - 1];
      UploadsNeverEmpty(base, init);
      var prev := UploadsRequests(init);
      var u := us[|us| - 1];
      assert !EmptyUpload(u);
      var last := UploadRequests(u);
      var rs := UploadsRequests(us);
      assert rs == prev + last;
      match u {
        case MeshUpload(indexCount, vertexCount) =>
          assert last == MeshBufferRequests(VERTEX_SIZE * vertexCount, INDEX_SIZE * indexCount);
          assert VERTEX_SIZE * vertexCount > 0 && INDEX_SIZE * indexCount > 0;
        case DataUpload(elementSize, count) =>
          assert last == DataRequests(elementSize * count);
          assert elementSize * count > 0;
      }
      assert AllSized(last);
      assert last[|last| - 1].usage == STAGING_USAGE;
      assert AllSized(prev);
      forall i | 0 <= i < |rs|
        ensures rs[i].size > 0
      {
        if i >= |prev| {
          assert rs[i] == last[i - |prev|];
        } else {
          assert rs[i] == prev[i];
        }
      }
      forall h | h in UploadsDestroyed(base, us)
        ensures base <= h < base + |rs| && rs[h - base].usage == STAGING_USAGE
      {
        if h in UploadsDestroyed(base, init) {
          assert rs[h - base] == prev[h - base];
        } else {
          assert h == base + |prev| + |last| - 1;
          assert rs[h - base] == last[|last| - 1];
        }
      }
    }
  }
}
