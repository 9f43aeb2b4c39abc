/** The renderer's scene pools and the code that fills and uploads them
    (Renderer.cpp LoadGLTF, ParseGLTFImage, CreateDebugTextures, UploadAll_Init).
    Each operation is proved against the pure import definitions of module Gltf,
    and every texture it uploads is logged against the allocator and the queue. */
module ScenePools {
  import opened Common
  import opened Images
  import opened Swapchains
  import opened Scene
  import opened Commands
  import opened Meshlets
  import opened FrameLoop
  import opened Uploads
  import opened Gltf

  /** Every texture is an R8G8B8A8Unorm image, sampled, without mipmaps. */
  const TEXTURE_FORMAT: Format := R8G8B8A8Unorm
  const TEXTURE_USAGE: set<ImageUsage> := {Sampled}

  /** The debug textures in creation order: the 16x16 checkerboard, then the 1x1
      black and the 1x1 white texture. */
  const DEBUG_TEXTURE_EXTENTS: seq<Extent2D> := [Extent2D(16, 16), Extent2D(1, 1), Extent2D(1, 1)]

  /** The value std::vector::resize gives the vertices it adds. */
  const ZERO_VERTEX: Vertex := Vertex(Vec3(0.0, 0.0, 0.0), 0.0, Vec3(0.0, 0.0, 0.0), 0.0)

  // ---------------------------------------------------------------- texture log

  /** The image CreateUploadImage creates for a texture of the given size. */
  function TextureInfo(e: Extent2D): ImageCreateInfo {
    ImageInfo(TEXTURE_FORMAT, e, TEXTURE_USAGE + {TransferDst, TransferSrc}, false)
  }

  /** What texture uploads touch: the allocator's buffers and images, the texture
      pool, and the calls on the queue. */
  datatype TextureLog = TextureLog(buffers: seq<BufferRequest>, images: seq<ImageCreateInfo>,
                                   textures: seq<AllocatedImage>, calls: seq<FrameCall>)

  /** One texture upload: a host-visible upload buffer that is never destroyed, the
      image, the texture naming the image and its view, and the submission that
      fills the image from the buffer. */
  function LogTexture(slot: nat, l: TextureLog, e: Extent2D): (r: TextureLog)
    ensures |r.buffers| == |l.buffers| + 1 && |r.images| == |l.images| + 1 && |r.textures| == |l.textures| + 1
  {
    var b, i := |l.buffers|, |l.images|;
    TextureLog(l.buffers + [BufferRequest(UploadImageSize(e), STAGING_USAGE, CpuToGpu)],
               l.images + [TextureInfo(e)],
               l.textures + [AllocatedImage(i, ImageView(i, TEXTURE_FORMAT))],
               l.calls + ImmediateCalls(slot, ImageUploadCmds(b, i)))
  }

  /** The log after uploading textures of the sizes es, one after another. */
  function LogTextures(slot: nat, start: TextureLog, es: seq<Extent2D>): (r: TextureLog)
    ensures |r.textures| == |start.textures| + |es| && |r.images| == |start.images| + |es|
    ensures |r.buffers| == |start.buffers| + |es|
    decreases |es|
  {
    if |es| == 0 then start
    else LogTexture(slot, LogTextures(slot, start, es[..|es| - 1]), es[|es| - 1])
  }

  /** Uploading es1 and then es2 logs the same as uploading es1 + es2. */
  lemma {:induction false} LogTexturesAppend(slot: nat, start: TextureLog, es1: seq<Extent2D>, es2: seq<Extent2D>)
    ensures LogTextures(slot, start, es1 + es2) == LogTextures(slot, LogTextures(slot, start, es1), es2)
    decreases |es2|
  {
    if |es2| == 0 {
      assert es1 + es2 == es1;
    } else {
      var init := es2[..|es2| - 1];
      LogTexturesAppend(slot, start, es1, init);
      assert (es1 + es2)[..|es1 + es2| - 1] == es1 + init;
    }
  }

  /** Uploads only append: everything logged before stays as it was. */
  lemma {:induction false} LogTexturesExtends(slot: nat, start: TextureLog, es: seq<Extent2D>)
    ensures var l := LogTextures(slot, start, es);
      start.buffers <= l.buffers && start.images <= l.images && start.textures <= l.textures
      && start.calls <= l.calls
    decreases |es|
  {
    if |es| > 0 {
      LogTexturesExtends(slot, start, es[..|es| - 1]);
    }
  }

  /** One upload keeps what was logged and appends the texture naming the new image. */
  lemma LogTextureAppends(slot: nat, l: TextureLog, e: Extent2D)
    ensures var r := LogTexture(slot, l, e);
      l.buffers <= r.buffers && l.images <= r.images && l.textures <= r.textures
      && r.textures[|l.textures|] == AllocatedImage(|l.images|, ImageView(|l.images|, TEXTURE_FORMAT))
      && r.images[|l.images|] == TextureInfo(e)
      && r.buffers[|l.buffers|] == BufferRequest(UploadImageSize(e), STAGING_USAGE, CpuToGpu)
  {
  }

  /** The texture, image and upload buffer the k-th of es logged. */
  predicate LoggedAt(start: TextureLog, l: TextureLog, es: seq<Extent2D>, k: nat)
    requires k < |es|
  {
    && |start.textures| + k < |l.textures| && |start.images| + k < |l.images| && |start.buffers| + k < |l.buffers|
    && l.textures[|start.textures| + k] == AllocatedImage(|start.images| + k, ImageView(|start.images| + k, TEXTURE_FORMAT))
    && l.images[|start.images| + k] == TextureInfo(es[k])
    && l.buffers[|start.buffers| + k] == BufferRequest(UploadImageSize(es[k]), STAGING_USAGE, CpuToGpu)
  }

  /** Each logged texture names the image created for it, that image has the
      texture's size, and the upload buffer holding its texels has the image's
      byte size. */
  lemma {:induction false} LoggedTexturesNameTheirImages(slot: nat, start: TextureLog, es: seq<Extent2D>)
    ensures forall k :: 0 <= k < |es| ==> LoggedAt(start, LogTextures(slot, start, es), es, k)
    decreases |es|
  {
    if |es| > 0 {
      var init := es[..|es| - 1];
      LoggedTexturesNameTheirImages(slot, start, init);
      var prev := LogTextures(slot, start, init);
      var l := LogTextures(slot, start, es);
      assert l == LogTexture(slot, prev, es[|es| - 1]);
      LogTextureAppends(slot, prev, es[|es| - 1]);
      forall k | 0 <= k < |es|
        ensures LoggedAt(start, l, es, k)
      {
        if k < |init| {
          assert LoggedAt(start, prev, init, k);
          assert es[k] == init[k];
        }
      }
    }
  }

  // ---------------------------------------------------------------- the material import

  /** What the material loop produces: the texture log and the stored groups. */
  datatype MaterialImport = MaterialImport(log: TextureLog, groups: seq<MaterialIndexGroup>)

  /** Importing one material: its textures are uploaded in slot order, base colour,
      metallic-roughness, emissive, and then its group is stored, its indices
      counted from the textures that existed before it. */
  function ImportMaterial(slot: nat, asset: Asset, m: GltfMaterial, st: MaterialImport): (r: MaterialImport)
    requires MaterialOk(asset, m)
    ensures |r.groups| == |st.groups| + 1
    ensures |r.log.textures| == |st.log.textures| + |MaterialExtents(asset, m)|
  {
    MaterialImport(LogTextures(slot, st.log, MaterialExtents(asset, m)),
                   st.groups + [MaterialGroup(asset, m, |st.log.textures|)])
  }

  /** The texture count after importing the first k materials of ms, from count. */
  function CountAfter(asset: Asset, ms: seq<GltfMaterial>, k: nat, count: nat): (r: nat)
    requires MaterialsOk(asset, ms) && k <= |ms|
    ensures r >= count
    ensures k > 0 ==> r >= CountAfter(asset, ms, k - 1, count)
    decreases k
  {
    if k == 0 then count else CountAfter(asset, ms, k - 1, count) + |MaterialExtents(asset, ms[k - 1])|
  }

  /** The groups stored after importing the first k materials of ms: each counted
      from the textures the materials before it left. */
  function GroupsAfter(asset: Asset, ms: seq<GltfMaterial>, k: nat, groups: seq<MaterialIndexGroup>, count: nat)
    : (r: seq<MaterialIndexGroup>)
    requires MaterialsOk(asset, ms) && k <= |ms|
    ensures |r| == |groups| + k
    decreases k
  {
    if k == 0 then groups
    else GroupsAfter(asset, ms, k - 1, groups, count) + [MaterialGroup(asset, ms[k - 1], CountAfter(asset, ms, k - 1, count))]
  }

  /** The first k materials of ms imported one after another: the groups and the
      texture count are those GroupsAfter and CountAfter give. */
  function ImportMaterials(slot: nat, asset: Asset, ms: seq<GltfMaterial>, k: nat, st: MaterialImport): (r: MaterialImport)
    requires MaterialsOk(asset, ms) && k <= |ms|
    ensures |r.groups| == |st.groups| + k
    ensures |r.log.textures| >= |st.log.textures|
    ensures r.groups == GroupsAfter(asset, ms, k, st.groups, |st.log.textures|)
    ensures |r.log.textures| == CountAfter(asset, ms, k, |st.log.textures|)
    decreases k
  {
    if k == 0 then st else ImportMaterial(slot, asset, ms[k - 1], ImportMaterials(slot, asset, ms, k - 1, st))
  }

  /** Importing material k - 1 keeps the stored groups in range: its own indices
      stay below the count after its uploads, and the count only grows. */
  lemma ImportedGroupsStep(asset: Asset, ms: seq<GltfMaterial>, k: nat, groups: seq<MaterialIndexGroup>, count: nat)
    requires MaterialsOk(asset, ms) && 0 < k <= |ms| && count >= 2
    requires GroupsInRange(GroupsAfter(asset, ms, k - 1, groups, count), CountAfter(asset, ms, k - 1, count))
    requires CountAfter(asset, ms, k, count) <= U32_LIMIT
    ensures GroupsInRange(GroupsAfter(asset, ms, k, groups, count), CountAfter(asset, ms, k, count))
  {
    var m := ms[k - 1];
    var before := CountAfter(asset, ms, k - 1, count);
    assert MaterialOk(asset, m);
    MaterialGroupInRange(asset, m, before);
    GroupsInRangeSnoc(GroupsAfter(asset, ms, k - 1, groups, count), MaterialGroup(asset, m, before),
                      before, before + |MaterialExtents(asset, m)|);
  }

  /** With the two debug textures in place, groups already stored in range, and no
      uint32_t wrap-around, every texture index a material stores names a texture
      that exists after the import. */
  lemma {:induction false} ImportedGroupsInRange(asset: Asset, ms: seq<GltfMaterial>, k: nat,
                                                 groups: seq<MaterialIndexGroup>, count: nat)
    requires MaterialsOk(asset, ms) && k <= |ms|
    requires count >= 2 && GroupsInRange(groups, count)
    requires CountAfter(asset, ms, k, count) <= U32_LIMIT
    ensures GroupsInRange(GroupsAfter(asset, ms, k, groups, count), CountAfter(asset, ms, k, count))
    decreases k
  {
    if k > 0 {
      ImportedGroupsInRange(asset, ms, k - 1, groups, count);
      ImportedGroupsStep(asset, ms, k, groups, count);
    }
  }

  /** The material loop keeps every stored index naming an existing texture. */
  lemma ImportKeepsGroupsInRange(slot: nat, asset: Asset, ms: seq<GltfMaterial>, k: nat, st: MaterialImport)
    requires MaterialsOk(asset, ms) && k <= |ms|
    requires |st.log.textures| >= 2 && GroupsInRange(st.groups, |st.log.textures|)
    requires |ImportMaterials(slot, asset, ms, k, st).log.textures| <= U32_LIMIT
    ensures var r := ImportMaterials(slot, asset, ms, k, st); GroupsInRange(r.groups, |r.log.textures|)
  {
    ImportedGroupsInRange(asset, ms, k, st.groups, |st.log.textures|);
  }

  // ---------------------------------------------------------------- uploads of the pools

  /** The buffers UploadAll_Init has uploaded so far, after done, from the state
      b0, c0, d0 of the allocator and the queue. */
  predicate UploadsLogged(alloc: Allocator, gpu: Renderer, b0: seq<BufferRequest>, c0: seq<FrameCall>, d0: set<nat>,
                          done: seq<Upload>)
    reads alloc, gpu
  {
    alloc.buffers == b0 + UploadsRequests(done)
    && alloc.destroyed == d0 + UploadsDestroyed(|b0|, done)
    && gpu.calls == c0 + UploadsCalls(gpu.currentFrame, |b0|, done)
  }

  /** What a run of non-empty uploads leaves in the allocator: no buffer of size 0,
      and only its own staging buffers destroyed. */
  lemma UploadsOnlyDestroyStaging(b0: seq<BufferRequest>, d0: set<nat>, us: seq<Upload>,
                                  buffers: seq<BufferRequest>, destroyed: set<nat>)
    requires forall k :: 0 <= k < |us| ==> !EmptyUpload(us[k])
    requires buffers == b0 + UploadsRequests(us) && destroyed == d0 + UploadsDestroyed(|b0|, us)
    ensures AllSized(buffers[|b0|..])
    ensures forall h :: h in destroyed - d0 ==> |b0| <= h < |buffers| && buffers[h].usage == STAGING_USAGE
  {
    UploadsNeverEmpty(|b0|, us);
    var rs := UploadsRequests(us);
    assert buffers[|b0|..] == rs;
    forall h | h in destroyed - d0
      ensures |b0| <= h < |buffers| && buffers[h].usage == STAGING_USAGE
    {
      assert h in UploadsDestroyed(|b0|, us);
      assert buffers[h] == rs[h - |b0|];
    }
  }

  /** A device-local buffer of the given size, when an address was produced. */
  predicate BufferHolds(buffers: seq<BufferRequest>, address: Option<nat>, size: nat) {
    address.Some? ==>
      address.value < |buffers| && buffers[address.value].size == size && buffers[address.value].memory == GpuOnly
  }

  /** The vertex and index buffers of a mesh upload, when one was made. */
  predicate MeshHolds(buffers: seq<BufferRequest>, mesh: Option<MeshBuffer>, vertexCount: nat, indexCount: nat) {
    mesh.Some? ==>
      var m := mesh.value;
      m.vertexBuffer < |buffers| && buffers[m.vertexBuffer].size == VERTEX_SIZE * vertexCount
      && m.indexBuffer < |buffers| && buffers[m.indexBuffer].size == INDEX_SIZE * indexCount
  }

  /** One guarded UploadData of UploadAll_Init: count records of elementSize bytes,
      uploaded only when count > 0. */
  method UploadIfAny(alloc: Allocator, gpu: Renderer, elementSize: nat, count: nat,
                     ghost b0: seq<BufferRequest>, ghost c0: seq<FrameCall>, ghost d0: set<nat>, ghost done: seq<Upload>)
    returns (address: Option<nat>, ghost after: seq<Upload>)
    requires gpu.Idle() && UploadsLogged(alloc, gpu, b0, c0, d0, done)
    modifies alloc, gpu, gpu.cmdBuffers[0], gpu.cmdBuffers[1]
    ensures gpu.Idle() && UploadsLogged(alloc, gpu, b0, c0, d0, after)
    ensures after == done + DataUploadIfAny(elementSize, count)
    ensures address.Some? <==> count > 0
    ensures BufferHolds(alloc.buffers, address, elementSize * count)
    ensures old(alloc.buffers) <= alloc.buffers && alloc.images == old(alloc.images)
    ensures forall a: Option<nat>, size: nat :: BufferHolds(old(alloc.buffers), a, size) ==> BufferHolds(alloc.buffers, a, size)
    ensures forall m: Option<MeshBuffer>, vertexCount: nat, indexCount: nat ::
      MeshHolds(old(alloc.buffers), m, vertexCount, indexCount) ==> MeshHolds(alloc.buffers, m, vertexCount, indexCount)
    ensures gpu.currentFrame == old(gpu.currentFrame) && gpu.requestNewSwapchain == old(gpu.requestNewSwapchain)
    ensures gpu.doVsync == old(gpu.doVsync)
  {
    after := done;
    address := None;
    if count > 0 {
      var u := DataUpload(elementSize, count);
      ghost var n := |b0| + |UploadsRequests(done)|;
      UploadsLoggedSnoc(gpu.currentFrame, b0, c0, d0, done, u, alloc.buffers, gpu.calls, alloc.destroyed);
      assert UploadRequests(u) == DataRequests(elementSize * count);
      assert UploadCalls(gpu.currentFrame, n, u) == ImmediateCalls(gpu.currentFrame, DataCopyCmds(n, elementSize * count));
      var a := UploadData(alloc, gpu, elementSize, count);
      address := Some(a);
      after := done + [u];
    }
  }

  /** The sizes of the pools: indices, vertices, mesh views, material groups and the
      three light arrays. */
  datatype UploadSizes = UploadSizes(indices: nat, vertices: nat, meshViews: nat, materials: nat,
                                 pointLights: nat, spotLights: nat, dirLights: nat)

  /** The geometry upload, made only when there are both indices and vertices. */
  function MeshUploadIfAny(indexCount: nat, vertexCount: nat): seq<Upload> {
    if indexCount > 0 && vertexCount > 0 then [MeshUpload(indexCount, vertexCount)] else []
  }

  /** A guarded UploadData, made only when there are records. */
  function DataUploadIfAny(elementSize: nat, count: nat): seq<Upload> {
    if count > 0 then [DataUpload(elementSize, count)] else []
  }

  /** The uploads UploadAll_Init makes, in order: the geometry, the mesh views, the
      material groups, the point, spot and directional lights, each only when its
      pool is non-empty, so that none of them is empty. */
  function UploadPlan(s: UploadSizes): (r: seq<Upload>)
    ensures forall k :: 0 <= k < |r| ==> !EmptyUpload(r[k])
  {
    MeshUploadIfAny(s.indices, s.vertices)
    + DataUploadIfAny(MESH_VIEW_SIZE, s.meshViews)
    + DataUploadIfAny(MATERIAL_INDEX_GROUP_SIZE, s.materials)
    + DataUploadIfAny(POINT_LIGHT_SIZE, s.pointLights)
    + DataUploadIfAny(SPOT_LIGHT_SIZE, s.spotLights)
    + DataUploadIfAny(DIR_LIGHT_SIZE, s.dirLights)
  }

  /** The device addresses UploadAll_Init fills in. None stands for an address left
      as it was because its pool was empty. */
  datatype SceneAddresses = SceneAddresses(mesh: Option<MeshBuffer>, meshViews: Option<nat>, materials: Option<nat>,
                                           pointLights: Option<nat>, spotLights: Option<nat>, dirLights: Option<nat>)

  // ---------------------------------------------------------------- the pools

  /** A snapshot of the pools. */
  datatype Pools = Pools(geometry: Geometry, materialIndexGroups: seq<MaterialIndexGroup>, textures: seq<AllocatedImage>,
                         pointLights: seq<PointLight>, spotLights: seq<SpotLight>, dirLights: seq<DirLight>)

  /** The accessor read by its component type, at each type's own width: the
      corrected read of the 8-bit finding, which the loader below uses. */
  method ReadIndices(accessor: IndexAccessor) returns (raw: seq<u32>)
    requires AccessorInBounds(accessor)
    ensures raw == RawIndices(accessor)
  {
    if accessor.componentType == UnsignedShort {
      raw := ReadU16s(accessor.bytes, accessor.count);
    } else if accessor.componentType == UnsignedByte {
      raw := ReadU8s(accessor.bytes, accessor.count);
    } else {
      raw := ReadU32s(accessor.bytes, accessor.count);
    }
  }

  /** The index pool resized by the accessor's count, then each new slot filled with
      a raw index offset by the vertex count from before the primitive. */
  method OffsetInto(pool: seq<u32>, raw: seq<u32>, base: nat) returns (r: seq<u32>)
    ensures r == pool + OffsetIndices(raw, base)
  {
    r := Resize(pool, |raw| + |pool|, 0);
    var k := 0;
    while k < |raw|
      invariant 0 <= k <= |raw| && |r| == |pool| + |raw|
      invariant r[..|pool|] == pool
      invariant forall j :: 0 <= j < k ==> r[|pool| + j] == Wrap32(base + raw[j])
    {
      r := r[|pool| + k := Wrap32(base + raw[k])];
      k := k + 1;
    }
    assert r == pool + OffsetIndices(raw, base);
  }

  /** The renderer's growable scene arrays. */
  class ScenePools {
    var vertices: seq<Vertex>
    var indices: seq<u32>
    var meshViews: seq<MeshView>
    var materialIndexGroups: seq<MaterialIndexGroup>
    var textures: seq<AllocatedImage>
    var pointLights: seq<PointLight>
    var spotLights: seq<SpotLight>
    var dirLights: seq<DirLight>

    constructor ()
      ensures vertices == [] && indices == [] && meshViews == [] && materialIndexGroups == [] && textures == []
      ensures pointLights == [] && spotLights == [] && dirLights == []
    {
      vertices, indices, meshViews := [], [], [];
      materialIndexGroups, textures := [], [];
      pointLights, spotLights, dirLights := [], [], [];
    }

    function Geom(): Geometry
      reads this
    {
      Geometry(vertices, indices, meshViews)
    }

    function State(): Pools
      reads this
    {
      Pools(Geom(), materialIndexGroups, textures, pointLights, spotLights, dirLights)
    }

    function TexLog(alloc: Allocator, gpu: Renderer): TextureLog
      reads this, alloc, gpu
    {
      TextureLog(alloc.buffers, alloc.images, textures, gpu.calls)
    }

    /** The part of the state the material loop changes. */
    function Imported(alloc: Allocator, gpu: Renderer): MaterialImport
      reads this, alloc, gpu
    {
      MaterialImport(TexLog(alloc, gpu), materialIndexGroups)
    }

    /** textures.emplace_back(CreateUploadImage(...)) for an R8G8B8A8Unorm sampled
        texture of the given size. */
    method UploadTexture(alloc: Allocator, gpu: Renderer, extent: Extent2D)
      requires gpu.Idle()
      modifies this, alloc, gpu, gpu.cmdBuffers[0], gpu.cmdBuffers[1]
      ensures gpu.Idle()
      ensures TexLog(alloc, gpu) == LogTextures(gpu.currentFrame, old(TexLog(alloc, gpu)), [extent])
      ensures State() == old(State()).(textures := textures)
      ensures alloc.destroyed == old(alloc.destroyed)
      ensures gpu.currentFrame == old(gpu.currentFrame) && gpu.requestNewSwapchain == old(gpu.requestNewSwapchain)
      ensures gpu.doVsync == old(gpu.doVsync)
    {
      var image := CreateUploadImage(alloc, gpu, TEXTURE_FORMAT, extent, TEXTURE_USAGE, false);
      textures := textures + [image];
      assert [extent][..0] == [];
    }

    /** ParseGLTFImage: a JPEG or PNG image is decoded and uploaded as a new texture,
        and the new texture's index is returned. A KTX2 image or any other type is
        skipped, and 0 is returned. */
    method ParseGLTFImage(alloc: Allocator, gpu: Renderer, asset: Asset, t: nat) returns (index: u32)
      requires gpu.Idle() && SlotOk(asset, Some(t))
      modifies this, alloc, gpu, gpu.cmdBuffers[0], gpu.cmdBuffers[1]
      ensures gpu.Idle()
      ensures TexLog(alloc, gpu) == LogTextures(gpu.currentFrame, old(TexLog(alloc, gpu)), TextureExtents(asset, t))
      ensures index == ParsedIndex(asset, t, |old(textures)|)
      ensures State() == old(State()).(textures := textures)
      ensures alloc.destroyed == old(alloc.destroyed)
      ensures gpu.currentFrame == old(gpu.currentFrame) && gpu.requestNewSwapchain == old(gpu.requestNewSwapchain)
      ensures gpu.doVsync == old(gpu.doVsync)
    {
      var image := asset.images[asset.textures[t].imageIndex];
      if image.mimeType == Jpeg || image.mimeType == Png {
        UploadTexture(alloc, gpu, image.decodedExtent);
        index := Wrap32(|textures| - 1);
      } else if image.mimeType == Ktx2 {
        index := 0;
      } else {
        index := 0;
      }
    }

    /** One material slot: ParseGLTFImage on the slot's texture, or the slot's
        default index when the material has none. */
    method ParseSlot(alloc: Allocator, gpu: Renderer, asset: Asset, slot: Option<nat>, absent: u32)
      returns (index: u32)
      requires gpu.Idle() && SlotOk(asset, slot)
      modifies this, alloc, gpu, gpu.cmdBuffers[0], gpu.cmdBuffers[1]
      ensures gpu.Idle()
      ensures TexLog(alloc, gpu) == LogTextures(gpu.currentFrame, old(TexLog(alloc, gpu)), SlotExtents(asset, slot))
      ensures index == SlotIndex(asset, slot, absent, |old(textures)|)
      ensures State() == old(State()).(textures := textures)
      ensures alloc.destroyed == old(alloc.destroyed)
      ensures gpu.currentFrame == old(gpu.currentFrame) && gpu.requestNewSwapchain == old(gpu.requestNewSwapchain)
      ensures gpu.doVsync == old(gpu.doVsync)
    {
      if slot.Some? {
        index := ParseGLTFImage(alloc, gpu, asset, slot.value);
      } else {
        index := absent;
        assert LogTextures(gpu.currentFrame, TexLog(alloc, gpu), []) == TexLog(alloc, gpu);
      }
    }

    /** The body of the material loop: the three slots are parsed in order, base
        colour, metallic-roughness, emissive, each falling back to its default when
        absent; the group's index is recorded as the material's ID and the group is
        pushed. */
    method LoadMaterial(alloc: Allocator, gpu: Renderer, asset: Asset, m: GltfMaterial) returns (materialID: u32)
      requires gpu.Idle() && MaterialOk(asset, m)
      modifies this, alloc, gpu, gpu.cmdBuffers[0], gpu.cmdBuffers[1]
      ensures gpu.Idle()
      ensures Imported(alloc, gpu) == ImportMaterial(gpu.currentFrame, asset, m, old(Imported(alloc, gpu)))
      ensures materialID == Wrap32(|old(materialIndexGroups)|)
      ensures State() == old(State()).(textures := textures, materialIndexGroups := materialIndexGroups)
      ensures alloc.destroyed == old(alloc.destroyed)
      ensures gpu.currentFrame == old(gpu.currentFrame) && gpu.requestNewSwapchain == old(gpu.requestNewSwapchain)
      ensures gpu.doVsync == old(gpu.doVsync)
    {
      ghost var slot := gpu.currentFrame;
      ghost var log0 := TexLog(alloc, gpu);
      ghost var e0 := SlotExtents(asset, m.baseColorTexture);
      ghost var e1 := SlotExtents(asset, m.metallicRoughnessTexture);
      ghost var c0 := |textures|;
      ghost var groups := materialIndexGroups;
      var diffuse := ParseSlot(alloc, gpu, asset, m.baseColorTexture, 0);
      assert |textures| == c0 + |e0|;
      var metallicRoughness := ParseSlot(alloc, gpu, asset, m.metallicRoughnessTexture, 1);
      assert |textures| == c0 + |e0| + |e1|;
      LogTexturesAppend(slot, log0, e0, e1);
      var emissive := ParseSlot(alloc, gpu, asset, m.emissiveTexture, 1);
      LogTexturesAppend(slot, log0, e0 + e1, SlotExtents(asset, m.emissiveTexture));
      MaterialGroupOfSlots(asset, m, c0, diffuse, metallicRoughness, emissive);
      assert materialIndexGroups == groups;
      materialID := Wrap32(|materialIndexGroups|);
      materialIndexGroups := materialIndexGroups + [MaterialIndexGroup(diffuse, metallicRoughness, emissive)];
    }

    /** The material loop of LoadGLTF. The IDs are consecutive from the group count
        before the import. */
    method LoadMaterials(alloc: Allocator, gpu: Renderer, asset: Asset) returns (materialIDs: seq<u32>)
      requires gpu.Idle() && MaterialsOk(asset, asset.materials)
      modifies this, alloc, gpu, gpu.cmdBuffers[0], gpu.cmdBuffers[1]
      ensures gpu.Idle()
      ensures Imported(alloc, gpu)
           == ImportMaterials(gpu.currentFrame, asset, asset.materials, |asset.materials|, old(Imported(alloc, gpu)))
      ensures materialIDs == MaterialIDs(|old(materialIndexGroups)|, |asset.materials|)
      ensures State() == old(State()).(textures := textures, materialIndexGroups := materialIndexGroups)
      ensures alloc.destroyed == old(alloc.destroyed)
      ensures gpu.currentFrame == old(gpu.currentFrame) && gpu.requestNewSwapchain == old(gpu.requestNewSwapchain)
      ensures gpu.doVsync == old(gpu.doVsync)
    {
      var ms := asset.materials;
      ghost var slot, st0 := gpu.currentFrame, Imported(alloc, gpu);
      ghost var g0 := |materialIndexGroups|;
      materialIDs := [];
      var k := 0;
      while k < |ms|
        invariant 0 <= k <= |ms|
        invariant gpu.Idle()
        invariant Imported(alloc, gpu) == ImportMaterials(slot, asset, ms, k, st0)
        invariant materialIDs == MaterialIDs(g0, k)
        invariant |materialIndexGroups| == g0 + k
        invariant Geom() == old(Geom()) && pointLights == old(pointLights)
        invariant spotLights == old(spotLights) && dirLights == old(dirLights)
        invariant alloc.destroyed == old(alloc.destroyed)
        invariant gpu.currentFrame == slot && gpu.requestNewSwapchain == old(gpu.requestNewSwapchain)
        invariant gpu.doVsync == old(gpu.doVsync)
      {
        materialIDs := LoadNextMaterial(alloc, gpu, asset, k, materialIDs, st0);
        k := k + 1;
      }
    }

    /** One step of the material loop: imports material k and records its ID. */
    method LoadNextMaterial(alloc: Allocator, gpu: Renderer, asset: Asset, k: nat, ids: seq<u32>,
                            ghost st0: MaterialImport) returns (ids': seq<u32>)
      requires gpu.Idle() && MaterialsOk(asset, asset.materials) && k < |asset.materials|
      requires Imported(alloc, gpu) == ImportMaterials(gpu.currentFrame, asset, asset.materials, k, st0)
      requires |materialIndexGroups| >= k && ids == MaterialIDs(|materialIndexGroups| - k, k)
      modifies this, alloc, gpu, gpu.cmdBuffers[0], gpu.cmdBuffers[1]
      ensures gpu.Idle()
      ensures Imported(alloc, gpu) == ImportMaterials(gpu.currentFrame, asset, asset.materials, k + 1, st0)
      ensures |materialIndexGroups| == |old(materialIndexGroups)| + 1
      ensures ids' == MaterialIDs(|old(materialIndexGroups)| - k, k + 1)
      ensures State() == old(State()).(textures := textures, materialIndexGroups := materialIndexGroups)
      ensures alloc.destroyed == old(alloc.destroyed)
      ensures gpu.currentFrame == old(gpu.currentFrame) && gpu.requestNewSwapchain == old(gpu.requestNewSwapchain)
      ensures gpu.doVsync == old(gpu.doVsync)
    {
      var id := LoadMaterial(alloc, gpu, asset, asset.materials[k]);
      ids' := ids + [id];
    }

    /** The node loop of LoadGLTF: a point light is stored for each node carrying
        one. A spot or directional light is built and then dropped. */
    method LoadLights(lights: seq<GltfLight>, nodes: seq<GltfNode>, tp: Vec3 -> Vec3)
      requires forall i :: 0 <= i < |nodes| ==> NodeOk(lights, nodes[i])
      modifies this
      ensures State() == old(State()).(pointLights := old(pointLights) + PointLightsOf(lights, nodes, tp))
    {
      var i := 0;
      while i < |nodes|
        invariant 0 <= i <= |nodes|
        invariant State() == old(State()).(pointLights := old(pointLights) + PointLightsOf(lights, nodes[..i], tp))
      {
        var node := nodes[i];
        assert nodes[..i + 1][..i] == nodes[..i] && nodes[..i + 1][i] == node;
        if node.lightIndex.Some? {
          var light := lights[node.lightIndex.value];
          match light.kind {
            case Point =>
              var radius := 100.0;
              if light.range.Some? {
                radius := light.range.value;
              }
              pointLights := pointLights + [PointLight(tp(NodeTranslation(node.transform)), radius, light.color, 0.0)];
            case Spot =>
            case Directional =>
          }
        }
        i := i + 1;
      }
      assert nodes[..i] == nodes;
    }

    /** The vertex half of a primitive: positions and normals transformed in
        place, the vertex pool resized, and the new vertices filled in by index. */
    method AppendVertices(p: Primitive, tp: Vec3 -> Vec3, tn: Vec3 -> Vec3)
      requires PrimitiveShapeOk(p)
      modifies this
      ensures vertices == old(vertices) + PrimitiveVertices(p, tp, tn)
      ensures State() == old(State()).(geometry := old(Geom()).(vertices := vertices))
    {
      var positions, normals := p.positions, p.normals;
      var t := 0;
      while t < |positions|
        invariant 0 <= t <= |positions| && |positions| == |p.positions| && |normals| == |p.normals|
        invariant forall j :: 0 <= j < t ==> positions[j] == tp(p.positions[j]) && normals[j] == tn(p.normals[j])
        invariant forall j :: t <= j < |positions| ==> positions[j] == p.positions[j] && normals[j] == p.normals[j]
      {
        positions := positions[t := tp(positions[t])];
        normals := normals[t := tn(normals[t])];
        t := t + 1;
      }
      ghost var added := PrimitiveVertices(p, tp, tn);
      var vertOffset := |vertices|;
      var grown := Resize(vertices, vertOffset + |positions|, ZERO_VERTEX);
      var i := 0;
      while i < |positions|
        invariant 0 <= i <= |positions| && |grown| == vertOffset + |positions|
        invariant grown[..vertOffset] == vertices
        invariant forall j :: 0 <= j < i ==> grown[vertOffset + j] == added[j]
      {
        grown := grown[i + vertOffset := Vertex(positions[i], p.texCoords[i].x, normals[i], p.texCoords[i].y)];
        i := i + 1;
      }
      assert grown == vertices + added;
      vertices := grown;
    }

    /** The index half of a primitive: the index pool resized, the accessor read by
        its component type, and each index offset by the vertex count from before the
        primitive. */
    method AppendIndices(accessor: IndexAccessor, prevVertexSize: nat)
      requires AccessorInBounds(accessor)
      modifies this
      ensures indices == old(indices) + OffsetIndices(RawIndices(accessor), prevVertexSize)
      ensures |indices| == |old(indices)| + accessor.count
      ensures State() == old(State()).(geometry := old(Geom()).(indices := indices))
    {
      var raw := ReadIndices(accessor);
      indices := OffsetInto(indices, raw, prevVertexSize);
    }

    /** One primitive: its vertices appended, the unused material ID looked up, its
        indices appended, and the mesh's view pushed with its end at the last index. */
    method LoadPrimitive(p: Primitive, start: u32, materialIDs: seq<u32>, tp: Vec3 -> Vec3, tn: Vec3 -> Vec3)
      requires PrimitiveShapeOk(p) && PrimitiveMaterialOk(p, |materialIDs|)
      modifies this
      ensures State() == old(State()).(geometry := AfterPrimitive(old(Geom()), start, p, tp, tn))
    {
      var prevVertexSize := |vertices|;
      var prevIndexSize := |indices|;
      AppendVertices(p, tp, tn);
      var virtualMaterialIndex: u32 := 0;
      if p.materialIndex.Some? {
        virtualMaterialIndex := materialIDs[p.materialIndex.value];
      }
      AppendIndices(p.indices, prevVertexSize);
      assert |indices| - 1 == prevIndexSize + p.indices.count - 1;
      meshViews := meshViews + [MeshView(start, Wrap32(|indices| - 1), 0, 0)];
    }

    /** One mesh: its view starts at the index-pool size, and each primitive pushes
        a copy with its own end. */
    method LoadMesh(mesh: Mesh, materialIDs: seq<u32>, tp: Vec3 -> Vec3, tn: Vec3 -> Vec3)
      requires PrimitivesOk(mesh.primitives) && MeshMaterialsOk(mesh, |materialIDs|)
      modifies this
      ensures State() == old(State()).(geometry := AfterMesh(old(Geom()), mesh, tp, tn))
    {
      var ps := mesh.primitives;
      var start := Wrap32(|indices|);
      var j := 0;
      while j < |ps|
        invariant 0 <= j <= |ps| && PrimitivesOk(ps[..j])
        invariant State() == old(State()).(geometry := AfterPrimitives(old(Geom()), start, ps[..j], tp, tn))
      {
        assert ps[..j + 1][..j] == ps[..j] && ps[..j + 1][j] == ps[j];
        assert PrimitivesOk(ps[..j + 1]);
        LoadPrimitive(ps[j], start, materialIDs, tp, tn);
        j := j + 1;
      }
      assert ps[..j] == ps;
    }

    /** The mesh loop of LoadGLTF. */
    method LoadMeshes(meshes: seq<Mesh>, materialIDs: seq<u32>, tp: Vec3 -> Vec3, tn: Vec3 -> Vec3)
      requires MeshesOk(meshes) && MaterialRefsOk(meshes, |materialIDs|)
      modifies this
      ensures State() == old(State()).(geometry := AfterMeshes(old(Geom()), meshes, tp, tn))
    {
      var i := 0;
      while i < |meshes|
        invariant 0 <= i <= |meshes| && MeshesOk(meshes[..i])
        invariant State() == old(State()).(geometry := AfterMeshes(old(Geom()), meshes[..i], tp, tn))
      {
        assert meshes[..i + 1][..i] == meshes[..i] && meshes[..i + 1][i] == meshes[i];
        assert MeshesOk(meshes[..i + 1]);
        LoadMesh(meshes[i], materialIDs, tp, tn);
        i := i + 1;
      }
      assert meshes[..i] == meshes;
    }

    /** LoadGLTF on a parsed asset: the lights, then the materials with their
        textures, then the meshes. */
    method LoadGLTF(alloc: Allocator, gpu: Renderer, asset: Asset, tp: Vec3 -> Vec3, tn: Vec3 -> Vec3)
      requires gpu.Idle() && WellFormed(asset)
      modifies this, alloc, gpu, gpu.cmdBuffers[0], gpu.cmdBuffers[1]
      ensures gpu.Idle()
      ensures Imported(alloc, gpu)
           == ImportMaterials(gpu.currentFrame, asset, asset.materials, |asset.materials|, old(Imported(alloc, gpu)))
      ensures State() == old(State()).(
        geometry := AfterMeshes(old(Geom()), asset.meshes, tp, tn),
        materialIndexGroups := materialIndexGroups,
        textures := textures,
        pointLights := old(pointLights) + PointLightsOf(asset.lights, asset.nodes, tp))
      ensures alloc.destroyed == old(alloc.destroyed)
      ensures gpu.currentFrame == old(gpu.currentFrame) && gpu.requestNewSwapchain == old(gpu.requestNewSwapchain)
      ensures gpu.doVsync == old(gpu.doVsync)
    {
      LoadLights(asset.lights, asset.nodes, tp);
      LoadSurfaces(alloc, gpu, asset, tp, tn);
    }

    /** The second half of LoadGLTF: the materials, whose IDs the meshes are given,
        then the meshes. */
    method LoadSurfaces(alloc: Allocator, gpu: Renderer, asset: Asset, tp: Vec3 -> Vec3, tn: Vec3 -> Vec3)
      requires gpu.Idle() && WellFormed(asset)
      modifies this, alloc, gpu, gpu.cmdBuffers[0], gpu.cmdBuffers[1]
      ensures gpu.Idle()
      ensures Imported(alloc, gpu)
           == ImportMaterials(gpu.currentFrame, asset, asset.materials, |asset.materials|, old(Imported(alloc, gpu)))
      ensures State() == old(State()).(
        geometry := AfterMeshes(old(Geom()), asset.meshes, tp, tn),
        materialIndexGroups := materialIndexGroups,
        textures := textures)
      ensures alloc.destroyed == old(alloc.destroyed)
      ensures gpu.currentFrame == old(gpu.currentFrame) && gpu.requestNewSwapchain == old(gpu.requestNewSwapchain)
      ensures gpu.doVsync == old(gpu.doVsync)
    {
      ghost var g0 := |materialIndexGroups|;
      var materialIDs := LoadMaterials(alloc, gpu, asset);
      MaterialIDsConsecutive(g0, |asset.materials|);
      LoadMeshes(asset.meshes, materialIDs, tp, tn);
    }

    /** CreateDebugTextures: the checkerboard, black and white textures in that
        order, then the default material group (0, 1, 1). */
    method CreateDebugTextures(alloc: Allocator, gpu: Renderer)
      requires gpu.Idle()
      modifies this, alloc, gpu, gpu.cmdBuffers[0], gpu.cmdBuffers[1]
      ensures gpu.Idle()
      ensures TexLog(alloc, gpu) == LogTextures(gpu.currentFrame, old(TexLog(alloc, gpu)), DEBUG_TEXTURE_EXTENTS)
      ensures State() == old(State()).(textures := textures,
        materialIndexGroups := old(materialIndexGroups) + [MaterialIndexGroup(0, 1, 1)])
      ensures alloc.destroyed == old(alloc.destroyed)
      ensures gpu.currentFrame == old(gpu.currentFrame) && gpu.requestNewSwapchain == old(gpu.requestNewSwapchain)
      ensures gpu.doVsync == old(gpu.doVsync)
    {
      ghost var slot := gpu.currentFrame;
      ghost var log0 := TexLog(alloc, gpu);
      UploadTexture(alloc, gpu, Extent2D(16, 16));
      UploadTexture(alloc, gpu, Extent2D(1, 1));
      LogTexturesAppend(slot, log0, [Extent2D(16, 16)], [Extent2D(1, 1)]);
      UploadTexture(alloc, gpu, Extent2D(1, 1));
      LogTexturesAppend(slot, log0, [Extent2D(16, 16), Extent2D(1, 1)], [Extent2D(1, 1)]);
      assert [Extent2D(16, 16)] + [Extent2D(1, 1)] == [Extent2D(16, 16), Extent2D(1, 1)];
      assert [Extent2D(16, 16), Extent2D(1, 1)] + [Extent2D(1, 1)] == DEBUG_TEXTURE_EXTENTS;
      materialIndexGroups := materialIndexGroups + [MaterialIndexGroup(0, 1, 1)];
    }

    /** The sizes of the pools UploadAll_Init uploads. */
    function Sizes(): UploadSizes
      reads this
    {
      UploadSizes(|indices|, |vertices|, |meshViews|, |materialIndexGroups|, |pointLights|, |spotLights|, |dirLights|)
    }

    /** UploadAll_Init: the geometry when both pools are non-empty, then the mesh
        views, the material groups and the three light arrays, each only when
        non-empty. No buffer of size 0 is ever created, each address holds its
        whole pool, and only the staging buffers are destroyed. */
    method UploadAll(alloc: Allocator, gpu: Renderer) returns (addresses: SceneAddresses)
      requires gpu.Idle()
      modifies alloc, gpu, gpu.cmdBuffers[0], gpu.cmdBuffers[1]
      ensures gpu.Idle()
      ensures UploadsLogged(alloc, gpu, old(alloc.buffers), old(gpu.calls), old(alloc.destroyed), UploadPlan(Sizes()))
      ensures alloc.images == old(alloc.images)
      ensures AllSized(alloc.buffers[|old(alloc.buffers)|..])
      ensures forall h :: h in alloc.destroyed - old(alloc.destroyed) ==>
        |old(alloc.buffers)| <= h < |alloc.buffers| && alloc.buffers[h].usage == STAGING_USAGE
      ensures addresses.mesh.Some? <==> |indices| > 0 && |vertices| > 0
      ensures MeshHolds(alloc.buffers, addresses.mesh, |vertices|, |indices|)
      ensures addresses.meshViews.Some? <==> |meshViews| > 0
      ensures addresses.materials.Some? <==> |materialIndexGroups| > 0
      ensures addresses.pointLights.Some? <==> |pointLights| > 0
      ensures addresses.spotLights.Some? <==> |spotLights| > 0
      ensures addresses.dirLights.Some? <==> |dirLights| > 0
      ensures BufferHolds(alloc.buffers, addresses.meshViews, MESH_VIEW_SIZE * |meshViews|)
      ensures BufferHolds(alloc.buffers, addresses.materials, MATERIAL_INDEX_GROUP_SIZE * |materialIndexGroups|)
      ensures BufferHolds(alloc.buffers, addresses.pointLights, POINT_LIGHT_SIZE * |pointLights|)
      ensures BufferHolds(alloc.buffers, addresses.spotLights, SPOT_LIGHT_SIZE * |spotLights|)
      ensures BufferHolds(alloc.buffers, addresses.dirLights, DIR_LIGHT_SIZE * |dirLights|)
      ensures gpu.currentFrame == old(gpu.currentFrame) && gpu.requestNewSwapchain == old(gpu.requestNewSwapchain)
      ensures gpu.doVsync == old(gpu.doVsync)
    {
      ghost var b0, c0, d0 := alloc.buffers, gpu.calls, alloc.destroyed;
      var sizes := Sizes();
      var mesh, done := UploadMeshIfAny(alloc, gpu);
      var meshViewsAt, materialsAt, pointLightsAt, spotLightsAt, dirLightsAt;
      meshViewsAt, done := UploadIfAny(alloc, gpu, MESH_VIEW_SIZE, sizes.meshViews, b0, c0, d0, done);
      materialsAt, done := UploadIfAny(alloc, gpu, MATERIAL_INDEX_GROUP_SIZE, sizes.materials, b0, c0, d0, done);
      pointLightsAt, done := UploadIfAny(alloc, gpu, POINT_LIGHT_SIZE, sizes.pointLights, b0, c0, d0, done);
      spotLightsAt, done := UploadIfAny(alloc, gpu, SPOT_LIGHT_SIZE, sizes.spotLights, b0, c0, d0, done);
      dirLightsAt, done := UploadIfAny(alloc, gpu, DIR_LIGHT_SIZE, sizes.dirLights, b0, c0, d0, done);
      addresses := SceneAddresses(mesh, meshViewsAt, materialsAt, pointLightsAt, spotLightsAt, dirLightsAt);
      assert done == UploadPlan(sizes);
      UploadsOnlyDestroyStaging(b0, d0, done, alloc.buffers, alloc.destroyed);
    }

    /** The geometry part of UploadAll_Init: UploadMesh when both pools are non-empty. */
    method UploadMeshIfAny(alloc: Allocator, gpu: Renderer) returns (mesh: Option<MeshBuffer>, ghost done: seq<Upload>)
      requires gpu.Idle()
      modifies alloc, gpu, gpu.cmdBuffers[0], gpu.cmdBuffers[1]
      ensures gpu.Idle() && UploadsLogged(alloc, gpu, old(alloc.buffers), old(gpu.calls), old(alloc.destroyed), done)
      ensures done == MeshUploadIfAny(|indices|, |vertices|)
      ensures mesh.Some? <==> |indices| > 0 && |vertices| > 0
      ensures MeshHolds(alloc.buffers, mesh, |vertices|, |indices|)
      ensures old(alloc.buffers) <= alloc.buffers && alloc.images == old(alloc.images)
      ensures gpu.currentFrame == old(gpu.currentFrame) && gpu.requestNewSwapchain == old(gpu.requestNewSwapchain)
      ensures gpu.doVsync == old(gpu.doVsync)
    {
      ghost var b0, c0, d0 := alloc.buffers, gpu.calls, alloc.destroyed;
      done := [];
      mesh := None;
      assert UploadsRequests(done) == [];
      if |indices| > 0 && |vertices| > 0 {
        var u := MeshUpload(|indices|, |vertices|);
        UploadsAppendRequests(done, u);
        UploadsAppendCalls(gpu.currentFrame, |b0|, done, u);
        UploadsAppendDestroyed(|b0|, done, u);
        var m, staging := UploadMesh(alloc, gpu, indices, |vertices|);
        mesh := Some(m);
        done := [u];
        assert [] + [u] == done;
      }
    }
  }
}
