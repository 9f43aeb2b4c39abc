/** The parts of a loaded glTF 2.0 asset that LoadGLTF reads (Renderer.cpp), and the
    pure definitions of what an import adds to the scene pools. Parsing the file is
    fastgltf's work, so an asset is a value here. Float payloads are reals, and the
    model transform is a pair of functions supplied by the caller: tp for positions
    and tn for normals. */
module Gltf {
  import opened Common
  import opened Images
  import opened Scene

  datatype MimeType = Jpeg | Png | Ktx2 | OtherMime

  /** An image embedded in a buffer view, with the size stb_image decodes it to.
      The size is used only for JPEG and PNG images. */
  datatype GltfImage = GltfImage(mimeType: MimeType, decodedExtent: Extent2D)

  datatype GltfTexture = GltfTexture(imageIndex: nat)

  datatype LightType = Point | Spot | Directional

  datatype GltfLight = GltfLight(kind: LightType, color: Vec3, range: Option<real>)

  /** A node's local transform as the parser leaves it when node matrices are not
      decomposed: a translation (rotation and scale are not read), or a
      column-major 4x4 matrix given by its columns. */
  datatype NodeTransform = TRS(translation: Vec3) | TransformMatrix(c0: Vec4, c1: Vec4, c2: Vec4, c3: Vec4)

  /** A node: the light it carries, if any, and its transform. */
  datatype GltfNode = GltfNode(lightIndex: Option<nat>, transform: NodeTransform)

  /** A material's three texture slots. A present slot holds a texture index. */
  datatype GltfMaterial = GltfMaterial(baseColorTexture: Option<nat>, metallicRoughnessTexture: Option<nat>,
                                       emissiveTexture: Option<nat>)

  datatype ComponentType = UnsignedByte | UnsignedShort | UnsignedInt

  /** An index accessor: its component type, its count, and the bytes of its buffer
      from the accessor's first byte to the end of the buffer. */
  datatype IndexAccessor = IndexAccessor(componentType: ComponentType, count: nat, bytes: seq<u8>)

  /** A primitive's POSITION, NORMAL and TEXCOORD_0 attributes, its material and its
      index accessor. */
  datatype Primitive = Primitive(positions: seq<Vec3>, normals: seq<Vec3>, texCoords: seq<Vec2>,
                                 materialIndex: Option<nat>, indices: IndexAccessor)

  datatype Mesh = Mesh(primitives: seq<Primitive>)

  datatype Asset = Asset(nodes: seq<GltfNode>, lights: seq<GltfLight>, materials: seq<GltfMaterial>,
                         textures: seq<GltfTexture>, images: seq<GltfImage>, meshes: seq<Mesh>)

  // ---------------------------------------------------------------- index reads

  /** Bytes per index for each component type. */
  function ComponentSize(t: ComponentType): nat {
    match t
    case UnsignedByte => 1
    case UnsignedShort => 2
    case UnsignedInt => 4
  }

  /** The accessor's count indices lie inside its buffer. */
  predicate AccessorInBounds(a: IndexAccessor) {
    a.count * ComponentSize(a.componentType) <= |a.bytes|
  }

  /** A memcpy of count little-endian uint8_t, uint16_t or uint32_t values. */
  function ReadU8s(bytes: seq<u8>, count: nat): (r: seq<u32>)
    requires count <= |bytes|
    ensures |r| == count && forall i :: 0 <= i < count ==> r[i] == bytes[i]
  {
    seq(count, i requires 0 <= i < count => bytes[i])
  }

  function ReadU16s(bytes: seq<u8>, count: nat): (r: seq<u32>)
    requires 2 * count <= |bytes|
    ensures |r| == count && forall i :: 0 <= i < count ==> r[i] == LeU16At(bytes, i)
  {
    seq(count, i requires 0 <= i < count => LeU16At(bytes, i))
  }

  function ReadU32s(bytes: seq<u8>, count: nat): (r: seq<u32>)
    requires 4 * count <= |bytes|
    ensures |r| == count && forall i :: 0 <= i < count ==> r[i] == LeU32At(bytes, i)
  {
    seq(count, i requires 0 <= i < count => LeU32At(bytes, i))
  }

  /** The index values as LoadGLTF reads them: uint16_t for UNSIGNED_SHORT, and
      uint32_t for every other component type. None stands for a read that would
      run past the end of the buffer. */
  function RawIndicesAsWritten(a: IndexAccessor): (r: Option<seq<u32>>)
    ensures r.Some? <==> (if a.componentType == UnsignedShort then 2 else 4) * a.count <= |a.bytes|
    ensures r.Some? ==> |r.value| == a.count
  {
    if a.componentType == UnsignedShort then
      if 2 * a.count <= |a.bytes| then Some(ReadU16s(a.bytes, a.count)) else None
    else
      if 4 * a.count <= |a.bytes| then Some(ReadU32s(a.bytes, a.count)) else None
  }

  /** The index values an accessor holds: one, two or four bytes each, according
      to its component type. */
  function RawIndices(a: IndexAccessor): (r: seq<u32>)
    requires AccessorInBounds(a)
    ensures |r| == a.count
    ensures a.componentType == UnsignedByte ==> forall i :: 0 <= i < |r| ==> r[i] < 0x100
    ensures a.componentType == UnsignedShort ==> forall i :: 0 <= i < |r| ==> r[i] < 0x1_0000
  {
    match a.componentType
    case UnsignedByte => ReadU8s(a.bytes, a.count)
    case UnsignedShort => ReadU16s(a.bytes, a.count)
    case UnsignedInt => ReadU32s(a.bytes, a.count)
  }

  /** The two reads agree on UNSIGNED_SHORT and UNSIGNED_INT accessors. */
  lemma AsWrittenAgreesExceptBytes(a: IndexAccessor)
    requires AccessorInBounds(a) && a.componentType != UnsignedByte
    ensures RawIndicesAsWritten(a) == Some(RawIndices(a))
  {
  }

  /** An UNSIGNED_BYTE accessor with the indices 0, 1, 2. If nine zero bytes follow
      it in its buffer, the four-byte read gives 0x20100, 0, 0. If the buffer ends
      with the accessor, the read runs past the end. */
  lemma AsWrittenByteIndicesMisread()
    ensures RawIndices(IndexAccessor(UnsignedByte, 3, [0, 1, 2, 0, 0, 0, 0, 0, 0, 0, 0, 0])) == [0, 1, 2]
    ensures RawIndicesAsWritten(IndexAccessor(UnsignedByte, 3, [0, 1, 2, 0, 0, 0, 0, 0, 0, 0, 0, 0]))
         == Some([0x2_0100, 0, 0])
    ensures RawIndicesAsWritten(IndexAccessor(UnsignedByte, 3, [0, 1, 2])) == None
  {
    var a := IndexAccessor(UnsignedByte, 3, [0, 1, 2, 0, 0, 0, 0, 0, 0, 0, 0, 0]);
    assert RawIndices(a)[0] == 0 && RawIndices(a)[1] == 1 && RawIndices(a)[2] == 2;
    var r := ReadU32s(a.bytes, 3);
    assert r[0] == 0x2_0100 && r[1] == 0 && r[2] == 0;
    assert r == [0x2_0100, 0, 0];
  }

  // ---------------------------------------------------------------- well-formedness

  /** The asset references LoadGLTF follows without a check. */
  predicate NodeOk(lights: seq<GltfLight>, n: GltfNode) {
    n.lightIndex.Some? ==> n.lightIndex.value < |lights|
  }

  predicate SlotOk(asset: Asset, slot: Option<nat>) {
    slot.Some? ==>
      slot.value < |asset.textures| && asset.textures[slot.value].imageIndex < |asset.images|
  }

  predicate MaterialOk(asset: Asset, m: GltfMaterial) {
    SlotOk(asset, m.baseColorTexture) && SlotOk(asset, m.metallicRoughnessTexture) && SlotOk(asset, m.emissiveTexture)
  }

  predicate MaterialsOk(asset: Asset, ms: seq<GltfMaterial>) {
    forall i :: 0 <= i < |ms| ==> MaterialOk(asset, ms[i])
  }

  /** Every position has a normal and a texture coordinate, and the index accessor
      lies inside its buffer. */
  predicate PrimitiveShapeOk(p: Primitive) {
    |p.normals| >= |p.positions| && |p.texCoords| >= |p.positions| && AccessorInBounds(p.indices)
  }

  predicate PrimitivesOk(ps: seq<Primitive>) {
    forall j :: 0 <= j < |ps| ==> PrimitiveShapeOk(ps[j])
  }

  predicate MeshesOk(ms: seq<Mesh>) {
    forall i :: 0 <= i < |ms| ==> PrimitivesOk(ms[i].primitives)
  }

  /** A primitive's material, when it names one, is among the asset's materials. */
  predicate PrimitiveMaterialOk(p: Primitive, materialCount: nat) {
    p.materialIndex.Some? ==> p.materialIndex.value < materialCount
  }

  predicate MeshMaterialsOk(mesh: Mesh, materialCount: nat) {
    forall j :: 0 <= j < |mesh.primitives| ==> PrimitiveMaterialOk(mesh.primitives[j], materialCount)
  }

  predicate MaterialRefsOk(ms: seq<Mesh>, materialCount: nat) {
    forall i :: 0 <= i < |ms| ==> MeshMaterialsOk(ms[i], materialCount)
  }

  predicate WellFormed(asset: Asset) {
    (forall i :: 0 <= i < |asset.nodes| ==> NodeOk(asset.lights, asset.nodes[i]))
    && MaterialsOk(asset, asset.materials)
    && MeshesOk(asset.meshes)
    && MaterialRefsOk(asset.meshes, |asset.materials|)
  }

  // ---------------------------------------------------------------- lights

  /** A node that carries a point light. */
  predicate IsPointNode(lights: seq<GltfLight>, n: GltfNode) {
    n.lightIndex.Some? && n.lightIndex.value < |lights| && lights[n.lightIndex.value].kind == Point
  }

  /** The point a matrix transform maps p to, (M * (p, 1)).xyz. */
  function MatrixApply(t: NodeTransform, p: Vec3): Vec3
    requires t.TransformMatrix?
  {
    Vec3(t.c0.x * p.x + t.c1.x * p.y + t.c2.x * p.z + t.c3.x,
         t.c0.y * p.x + t.c1.y * p.y + t.c2.y * p.z + t.c3.y,
         t.c0.z * p.x + t.c1.z * p.y + t.c2.z * p.z + t.c3.z)
  }

  /** The node's translation, wherever the node keeps it: the corrected half of the
      light-node finding. For a matrix it is where the matrix puts the node's
      origin, which is the translation decomposing the matrix yields. */
  function NodeTranslation(t: NodeTransform): (r: Vec3)
    ensures t.TRS? ==> r == t.translation
    ensures t.TransformMatrix? ==> r == MatrixApply(t, Vec3(0.0, 0.0, 0.0))
  {
    match t
    case TRS(translation) => translation
    case TransformMatrix(_, _, _, c3) => Vec3(c3.x, c3.y, c3.z)
  }

  /** The translation LoadGLTF reads from a light node as written: get<TRS> on the
      node's transform, which throws (None) for a matrix. Where it does not throw it
      agrees with NodeTranslation. */
  function LightTranslationAsWritten(t: NodeTransform): (r: Option<Vec3>)
    ensures r.None? <==> t.TransformMatrix?
    ensures r.Some? ==> r.value == NodeTranslation(t)
  {
    match t
    case TRS(translation) => Some(translation)
    case TransformMatrix(_, _, _, _) => None
  }

  /** A point-light node whose transform is the matrix translating by (1, 2, 3): the
      read as written throws, while the node's translation is (1, 2, 3). */
  lemma MatrixLightNodeThrows()
    ensures var m := TransformMatrix(Vec4(1.0, 0.0, 0.0, 0.0), Vec4(0.0, 1.0, 0.0, 0.0),
                                     Vec4(0.0, 0.0, 1.0, 0.0), Vec4(1.0, 2.0, 3.0, 1.0));
      var lights := [GltfLight(Point, Vec3(1.0, 1.0, 1.0), None)];
      IsPointNode(lights, GltfNode(Some(0), m))
      && LightTranslationAsWritten(m) == None
      && MatrixApply(m, Vec3(0.0, 0.0, 0.0)) == Vec3(1.0, 2.0, 3.0)
      && NodeTranslation(m) == Vec3(1.0, 2.0, 3.0)
  {
  }

  /** The point light a node contributes: the transformed translation, the range or
      100 when the light has none, the light's colour, falloff 0. */
  function NodeLight(lights: seq<GltfLight>, n: GltfNode, tp: Vec3 -> Vec3): PointLight
    requires IsPointNode(lights, n)
  {
    var light := lights[n.lightIndex.value];
    PointLight(tp(NodeTranslation(n.transform)), if light.range.Some? then light.range.value else 100.0, light.color, 0.0)
  }

  /** The lights the node loop stores: one per point-light node, in node order.
      Spot and directional lights are built and dropped. */
  function PointLightsOf(lights: seq<GltfLight>, nodes: seq<GltfNode>, tp: Vec3 -> Vec3): seq<PointLight>
    decreases |nodes|
  {
    if |nodes| == 0 then []
    else
      var n := nodes[|nodes| - 1];
      PointLightsOf(lights, nodes[..|nodes| - 1], tp) + (if IsPointNode(lights, n) then [NodeLight(lights, n, tp)] else [])
  }

  /** The positions of the point-light nodes, in order. */
  function PointNodeIndices(lights: seq<GltfLight>, nodes: seq<GltfNode>): seq<nat>
    decreases |nodes|
  {
    if |nodes| == 0 then []
    else
      PointNodeIndices(lights, nodes[..|nodes| - 1]) + (if IsPointNode(lights, nodes[|nodes| - 1]) then [|nodes| - 1] else [])
  }

  /** r holds, for each position in idx, the light of that node; idx lists exactly
      the point-light nodes, in increasing order. */
  predicate LightsFrom(lights: seq<GltfLight>, nodes: seq<GltfNode>, tp: Vec3 -> Vec3, idx: seq<nat>, r: seq<PointLight>) {
    |r| == |idx|
    && (forall j :: 0 <= j < |idx| ==>
          idx[j] < |nodes| && IsPointNode(lights, nodes[idx[j]]) && r[j] == NodeLight(lights, nodes[idx[j]], tp))
    && (forall j, k :: 0 <= j < k < |idx| ==> idx[j] < idx[k])
    && (forall i :: 0 <= i < |nodes| && IsPointNode(lights, nodes[i]) ==> i in idx)
  }

  /** The stored lights come only from point-light nodes, from every one of them,
      each once and in node order. */
  lemma {:induction false} PointLightsFromPointNodes(lights: seq<GltfLight>, nodes: seq<GltfNode>, tp: Vec3 -> Vec3)
    ensures LightsFrom(lights, nodes, tp, PointNodeIndices(lights, nodes), PointLightsOf(lights, nodes, tp))
    decreases |nodes|
  {
    if |nodes| > 0 {
      var init := nodes[..|nodes| - 1];
      var n := nodes[|nodes| - 1];
      PointLightsFromPointNodes(lights, init, tp);
      var idx0, r0 := PointNodeIndices(lights, init), PointLightsOf(lights, init, tp);
      var idx, r := PointNodeIndices(lights, nodes), PointLightsOf(lights, nodes, tp);
      assert forall j :: 0 <= j < |idx0| ==> idx0[j] < |init| && nodes[idx0[j]] == init[idx0[j]];
      if IsPointNode(lights, n) {
        assert idx == idx0 + [|nodes| - 1] && r == r0 + [NodeLight(lights, n, tp)];
        forall i | 0 <= i < |nodes| && IsPointNode(lights, nodes[i])
          ensures i in idx
        {
          if i < |init| {
            assert init[i] == nodes[i];
            assert i in idx0;
          } else {
            assert idx[|idx0|] == i;
          }
        }
      } else {
        assert idx == idx0 && r == r0;
        forall i | 0 <= i < |nodes| && IsPointNode(lights, nodes[i])
          ensures i in idx
        {
          assert i < |init| && init[i] == nodes[i];
        }
      }
    }
  }

  // ---------------------------------------------------------------- materials

  /** What ParseGLTFImage uploads for texture t: the decoded size of a JPEG or PNG
      image, and nothing for KTX2 or any other type. */
  function TextureExtents(asset: Asset, t: nat): (r: seq<Extent2D>)
    requires SlotOk(asset, Some(t))
    ensures |r| <= 1
    ensures |r| == 1 <==> asset.images[asset.textures[t].imageIndex].mimeType in {Jpeg, Png}
  {
    var image := asset.images[asset.textures[t].imageIndex];
    if image.mimeType == Jpeg || image.mimeType == Png then [image.decodedExtent] else []
  }

  function SlotExtents(asset: Asset, slot: Option<nat>): (r: seq<Extent2D>)
    requires SlotOk(asset, slot)
    ensures |r| <= 1
  {
    if slot.None? then [] else TextureExtents(asset, slot.value)
  }

  /** ParseGLTFImage's result for texture t when count textures precede it: the
      index of the texture it appended (textures.size() - 1, narrowed to uint32_t),
      or 0 when it appended none. */
  function ParsedIndex(asset: Asset, t: nat, count: nat): u32
    requires SlotOk(asset, Some(t))
  {
    if |TextureExtents(asset, t)| == 1 then Wrap32(count) else 0
  }

  /** Without wrap-around, the parsed index names the appended texture when there
      is one, and is 0 otherwise. */
  lemma ParsedIndexNamesTexture(asset: Asset, t: nat, count: nat)
    requires SlotOk(asset, Some(t))
    ensures |TextureExtents(asset, t)| == 0 ==> ParsedIndex(asset, t, count) == 0
    ensures |TextureExtents(asset, t)| == 1 && count < U32_LIMIT ==> ParsedIndex(asset, t, count) == count
  {
  }

  /** The index a material slot receives: the absent value when the slot is empty,
      otherwise ParseGLTFImage's result. */
  function SlotIndex(asset: Asset, slot: Option<nat>, absent: u32, count: nat): u32
    requires SlotOk(asset, slot)
  {
    if slot.None? then absent else ParsedIndex(asset, slot.value, count)
  }

  /** The images one material uploads: base colour, metallic-roughness, emissive. */
  function MaterialExtents(asset: Asset, m: GltfMaterial): (r: seq<Extent2D>)
    requires MaterialOk(asset, m)
    ensures |r| <= 3
  {
    SlotExtents(asset, m.baseColorTexture) + SlotExtents(asset, m.metallicRoughnessTexture)
    + SlotExtents(asset, m.emissiveTexture)
  }

  /** The group stored for material m when count textures exist before it. An
      absent base colour falls back to texture 0, the debug checkerboard. An absent
      metallic-roughness or emissive texture falls back to texture 1, the black
      debug texture. A present texture that is not JPEG or PNG also gets 0. */
  function MaterialGroup(asset: Asset, m: GltfMaterial, count: nat): MaterialIndexGroup
    requires MaterialOk(asset, m)
  {
    var c1 := count + |SlotExtents(asset, m.baseColorTexture)|;
    var c2 := c1 + |SlotExtents(asset, m.metallicRoughnessTexture)|;
    MaterialIndexGroup(SlotIndex(asset, m.baseColorTexture, 0, count),
                       SlotIndex(asset, m.metallicRoughnessTexture, 1, c1),
                       SlotIndex(asset, m.emissiveTexture, 1, c2))
  }

  /** The group built from the three slot indices a material's import returned. */
  lemma MaterialGroupOfSlots(asset: Asset, m: GltfMaterial, count: nat, diffuse: u32, metallicRoughness: u32, emissive: u32)
    requires MaterialOk(asset, m)
    requires diffuse == SlotIndex(asset, m.baseColorTexture, 0, count)
    requires metallicRoughness == SlotIndex(asset, m.metallicRoughnessTexture, 1, count + |SlotExtents(asset, m.baseColorTexture)|)
    requires emissive == SlotIndex(asset, m.emissiveTexture, 1,
                                   count + |SlotExtents(asset, m.baseColorTexture)| + |SlotExtents(asset, m.metallicRoughnessTexture)|)
    ensures MaterialIndexGroup(diffuse, metallicRoughness, emissive) == MaterialGroup(asset, m, count)
  {
  }

  /** The defaults of the absent slots, and where a present slot's index can point:
      at the texture it appended, or 0 when it appended none. */
  lemma MaterialGroupSlots(asset: Asset, m: GltfMaterial, count: nat)
    requires MaterialOk(asset, m)
    ensures var r := MaterialGroup(asset, m, count);
      (m.baseColorTexture.None? ==> r.diffuse == 0)
      && (m.metallicRoughnessTexture.None? ==> r.metallicRoughness == 1)
      && (m.emissiveTexture.None? ==> r.emissive == 1)
    ensures var r := MaterialGroup(asset, m, count);
      count + 3 <= U32_LIMIT ==>
        (r.diffuse == 0 || r.diffuse == count)
        && (r.metallicRoughness <= 1 || count <= r.metallicRoughness <= count + 1)
        && (r.emissive <= 1 || count <= r.emissive <= count + 2)
  {
  }

  /** The IDs n materials receive when start groups exist before them: the index
      each one's group is stored at, narrowed to uint32_t. */
  function MaterialIDs(start: nat, n: nat): seq<u32>
    decreases n
  {
    if n == 0 then [] else MaterialIDs(start, n - 1) + [Wrap32(start + n - 1)]
  }

  /** Material j of the run receives the index start + j, narrowed to uint32_t. */
  lemma {:induction false} MaterialIDsConsecutive(start: nat, n: nat)
    ensures |MaterialIDs(start, n)| == n
    ensures forall j :: 0 <= j < n ==> MaterialIDs(start, n)[j] == Wrap32(start + j)
    decreases n
  {
    if n > 0 {
      MaterialIDsConsecutive(start, n - 1);
    }
  }

  predicate GroupInRange(g: MaterialIndexGroup, total: nat) {
    g.diffuse < total && g.metallicRoughness < total && g.emissive < total
  }

  /** One material's indices stay below the texture count after its own uploads. */
  lemma MaterialGroupInRange(asset: Asset, m: GltfMaterial, count: nat)
    requires MaterialOk(asset, m)
    requires count >= 2 && count + |MaterialExtents(asset, m)| <= U32_LIMIT
    ensures GroupInRange(MaterialGroup(asset, m, count), count + |MaterialExtents(asset, m)|)
  {
    var g := MaterialGroup(asset, m, count);
    var e0 := SlotExtents(asset, m.baseColorTexture);
    var e1 := SlotExtents(asset, m.metallicRoughnessTexture);
    var e2 := SlotExtents(asset, m.emissiveTexture);
    var total := count + |MaterialExtents(asset, m)|;
    assert total == count + |e0| + |e1| + |e2|;
    assert g.diffuse < total by {
      if |e0| == 1 { assert g.diffuse == count; }
    }
    assert g.metallicRoughness < total by {
      if m.metallicRoughnessTexture.Some? && |e1| == 1 { assert g.metallicRoughness == count + |e0|; }
    }
    assert g.emissive < total by {
      if m.emissiveTexture.Some? && |e2| == 1 { assert g.emissive == count + |e0| + |e1|; }
    }
  }

  predicate GroupsInRange(groups: seq<MaterialIndexGroup>, total: nat) {
    forall k :: 0 <= k < |groups| ==> GroupInRange(groups[k], total)
  }

  /** Groups in range of a smaller bound, followed by one group in range of the
      larger bound, are all in range of the larger bound. */
  lemma GroupsInRangeSnoc(groups: seq<MaterialIndexGroup>, g: MaterialIndexGroup, bound: nat, total: nat)
    requires GroupsInRange(groups, bound) && bound <= total && GroupInRange(g, total)
    ensures GroupsInRange(groups + [g], total)
  {
    forall k | 0 <= k < |groups| + 1
      ensures GroupInRange((groups + [g])[k], total)
    {
      if k < |groups| {
        assert (groups + [g])[k] == groups[k];
      }
    }
  }

  // ---------------------------------------------------------------- geometry

  /** The three pools a mesh import appends to. */
  datatype Geometry = Geometry(vertices: seq<Vertex>, indices: seq<u32>, views: seq<MeshView>)

  /** The vertices of a primitive: transformed position, U, transformed normal, V. */
  function PrimitiveVertices(p: Primitive, tp: Vec3 -> Vec3, tn: Vec3 -> Vec3): (r: seq<Vertex>)
    requires PrimitiveShapeOk(p)
    ensures |r| == |p.positions|
  {
    seq(|p.positions|, i requires 0 <= i < |p.positions| =>
      Vertex(tp(p.positions[i]), p.texCoords[i].x, tn(p.normals[i]), p.texCoords[i].y))
  }

  /** Raw indices moved past the base vertices already in the pool, each sum stored
      into a uint32_t. */
  function OffsetIndices(raw: seq<u32>, base: nat): (r: seq<u32>)
    ensures |r| == |raw|
  {
    seq(|raw|, k requires 0 <= k < |raw| => Wrap32(base + raw[k]))
  }

  /** One primitive of a mesh whose view starts at start: its vertices and offset
      indices are appended, and a view ending at the last index in the pool. */
  function AfterPrimitive(g: Geometry, start: u32, p: Primitive, tp: Vec3 -> Vec3, tn: Vec3 -> Vec3): Geometry
    requires PrimitiveShapeOk(p)
  {
    // The pool is resized by the index count before the indices are read in.
    var indexEnd := |g.indices| + p.indices.count;
    Geometry(g.vertices + PrimitiveVertices(p, tp, tn), g.indices + OffsetIndices(RawIndices(p.indices), |g.vertices|),
             g.views + [MeshView(start, Wrap32(indexEnd - 1), 0, 0)])
  }

  function AfterPrimitives(g: Geometry, start: u32, ps: seq<Primitive>, tp: Vec3 -> Vec3, tn: Vec3 -> Vec3): Geometry
    requires PrimitivesOk(ps)
    decreases |ps|
  {
    if |ps| == 0 then g
    else AfterPrimitive(AfterPrimitives(g, start, ps[..|ps| - 1], tp, tn), start, ps[|ps| - 1], tp, tn)
  }

  /** A mesh: every view it pushes starts at the index-pool size when it began. */
  function AfterMesh(g: Geometry, mesh: Mesh, tp: Vec3 -> Vec3, tn: Vec3 -> Vec3): Geometry
    requires PrimitivesOk(mesh.primitives)
  {
    AfterPrimitives(g, Wrap32(|g.indices|), mesh.primitives, tp, tn)
  }

  function AfterMeshes(g: Geometry, ms: seq<Mesh>, tp: Vec3 -> Vec3, tn: Vec3 -> Vec3): Geometry
    requires MeshesOk(ms)
    decreases |ms|
  {
    if |ms| == 0 then g
    else AfterMesh(AfterMeshes(g, ms[..|ms| - 1], tp, tn), ms[|ms| - 1], tp, tn)
  }

  function IndexTotal(ps: seq<Primitive>): nat
    decreases |ps|
  {
    if |ps| == 0 then 0 else IndexTotal(ps[..|ps| - 1]) + ps[|ps| - 1].indices.count
  }

  function VertexTotal(ps: seq<Primitive>): nat
    decreases |ps|
  {
    if |ps| == 0 then 0 else VertexTotal(ps[..|ps| - 1]) + |ps[|ps| - 1].positions|
  }

  function MeshesVertexTotal(ms: seq<Mesh>): nat
    decreases |ms|
  {
    if |ms| == 0 then 0 else MeshesVertexTotal(ms[..|ms| - 1]) + VertexTotal(ms[|ms| - 1].primitives)
  }

  /** Importing a primitive appends exactly its vertices and its index count of
      indices, each index being the vertex-pool size before the primitive plus the
      raw index; the earlier entries are unchanged; one view is pushed, ending at
      the last index. */
  lemma PrimitiveAppends(g: Geometry, start: u32, p: Primitive, tp: Vec3 -> Vec3, tn: Vec3 -> Vec3)
    requires PrimitiveShapeOk(p)
    ensures var r := AfterPrimitive(g, start, p, tp, tn);
      var raw := RawIndices(p.indices);
      |r.vertices| == |g.vertices| + |p.positions| && r.vertices[..|g.vertices|] == g.vertices
      && (forall i :: 0 <= i < |p.positions| ==>
            r.vertices[|g.vertices| + i] == Vertex(tp(p.positions[i]), p.texCoords[i].x, tn(p.normals[i]), p.texCoords[i].y))
      && |r.indices| == |g.indices| + p.indices.count && r.indices[..|g.indices|] == g.indices
      && (forall k :: 0 <= k < p.indices.count ==> r.indices[|g.indices| + k] == Wrap32(|g.vertices| + raw[k]))
      && (forall k :: 0 <= k < p.indices.count && |g.vertices| + raw[k] < U32_LIMIT ==>
            r.indices[|g.indices| + k] == |g.vertices| + raw[k])
      && r.views == g.views + [MeshView(start, Wrap32(|r.indices| - 1), 0, 0)]
  {
  }

  /** A run of primitives appends their vertex and index totals and one view per
      primitive, and keeps every earlier entry. */
  lemma {:induction false} PrimitivesGrow(g: Geometry, start: u32, ps: seq<Primitive>, tp: Vec3 -> Vec3, tn: Vec3 -> Vec3)
    requires PrimitivesOk(ps)
    ensures var r := AfterPrimitives(g, start, ps, tp, tn);
      |r.vertices| == |g.vertices| + VertexTotal(ps) && g.vertices <= r.vertices
      && |r.indices| == |g.indices| + IndexTotal(ps) && g.indices <= r.indices
      && |r.views| == |g.views| + |ps| && g.views <= r.views
    decreases |ps|
  {
    if |ps| > 0 {
      var init := ps[..|ps| - 1];
      assert PrimitivesOk(init);
      PrimitivesGrow(g, start, init, tp, tn);
      PrimitiveAppends(AfterPrimitives(g, start, init, tp, tn), start, ps[|ps| - 1], tp, tn);
    }
  }

  /** The views a run of primitives pushes when the index pool held base indices
      before it: each ends at the last index of its own primitive. */
  function PrimitiveViews(start: u32, base: nat, ps: seq<Primitive>): (r: seq<MeshView>)
    ensures |r| == |ps|
    decreases |ps|
  {
    if |ps| == 0 then []
    else PrimitiveViews(start, base, ps[..|ps| - 1]) + [MeshView(start, Wrap32(base + IndexTotal(ps) - 1), 0, 0)]
  }

  lemma PrimitiveViewsSnoc(start: u32, base: nat, ps: seq<Primitive>)
    requires |ps| > 0
    ensures PrimitiveViews(start, base, ps)
      == PrimitiveViews(start, base, ps[..|ps| - 1]) + [MeshView(start, Wrap32(base + IndexTotal(ps) - 1), 0, 0)]
  {
  }

  /** View j ends at the index-pool size before the run plus the index counts of
      primitives 0..j, minus one, in uint32_t. */
  lemma {:induction false} PrimitiveViewsAt(start: u32, base: nat, ps: seq<Primitive>)
    ensures forall j :: 0 <= j < |ps| ==>
      PrimitiveViews(start, base, ps)[j] == MeshView(start, Wrap32(base + IndexTotal(ps[..j + 1]) - 1), 0, 0)
    decreases |ps|
  {
    if |ps| > 0 {
      var init := ps[..|ps| - 1];
      PrimitiveViewsAt(start, base, init);
      forall j | 0 <= j < |ps|
        ensures PrimitiveViews(start, base, ps)[j] == MeshView(start, Wrap32(base + IndexTotal(ps[..j + 1]) - 1), 0, 0)
      {
        if j < |init| {
          assert ps[..j + 1] == init[..j + 1];
        } else {
          assert ps[..j + 1] == ps;
        }
      }
    }
  }

  /** A run of primitives pushes exactly the views PrimitiveViews lists. */
  lemma {:induction false} PrimitivesPushViews(g: Geometry, start: u32, ps: seq<Primitive>, tp: Vec3 -> Vec3, tn: Vec3 -> Vec3)
    requires PrimitivesOk(ps)
    ensures AfterPrimitives(g, start, ps, tp, tn).views == g.views + PrimitiveViews(start, |g.indices|, ps)
    decreases |ps|
  {
    if |ps| > 0 {
      var init := ps[..|ps| - 1];
      assert PrimitivesOk(init);
      PrimitivesPushViews(g, start, init, tp, tn);
      PrimitivesPushViewsStep(g, start, ps, tp, tn);
    }
  }

  /** The inductive step of PrimitivesPushViews, from the run without its last
      primitive to the whole run. */
  lemma {:induction false} PrimitivesPushViewsStep(g: Geometry, start: u32, ps: seq<Primitive>, tp: Vec3 -> Vec3, tn: Vec3 -> Vec3)
    requires |ps| > 0 && PrimitivesOk(ps) && PrimitivesOk(ps[..|ps| - 1])
    requires AfterPrimitives(g, start, ps[..|ps| - 1], tp, tn).views == g.views + PrimitiveViews(start, |g.indices|, ps[..|ps| - 1])
    ensures AfterPrimitives(g, start, ps, tp, tn).views == g.views + PrimitiveViews(start, |g.indices|, ps)
  {
    AfterPrimitivesLastView(g, start, ps, tp, tn);
    PrimitiveViewsStep(AfterPrimitives(g, start, ps, tp, tn).views, AfterPrimitives(g, start, ps[..|ps| - 1], tp, tn).views,
                       g.views, start, |g.indices|, ps);
  }

  /** The step of PrimitivesPushViews: the views of the run without its last
      primitive, then the last primitive's view, are the views of the run. */
  lemma PrimitiveViewsStep(after: seq<MeshView>, before: seq<MeshView>, views: seq<MeshView>, start: u32, base: nat, ps: seq<Primitive>)
    requires |ps| > 0
    requires after == before + [MeshView(start, Wrap32(base + IndexTotal(ps) - 1), 0, 0)]
    requires before == views + PrimitiveViews(start, base, ps[..|ps| - 1])
    ensures after == views + PrimitiveViews(start, base, ps)
  {
    PrimitiveViewsSnoc(start, base, ps);
    SnocRegroups(after, before, views, PrimitiveViews(start, base, ps[..|ps| - 1]), PrimitiveViews(start, base, ps),
                 MeshView(start, Wrap32(base + IndexTotal(ps) - 1), 0, 0));
  }

  /** The last primitive of a run pushes the view ending at the last index of the
      whole run. */
  lemma AfterPrimitivesLastView(g: Geometry, start: u32, ps: seq<Primitive>, tp: Vec3 -> Vec3, tn: Vec3 -> Vec3)
    requires |ps| > 0 && PrimitivesOk(ps) && PrimitivesOk(ps[..|ps| - 1])
    ensures AfterPrimitives(g, start, ps, tp, tn).views
      == AfterPrimitives(g, start, ps[..|ps| - 1], tp, tn).views
         + [MeshView(start, Wrap32(|g.indices| + IndexTotal(ps) - 1), 0, 0)]
  {
    var init := ps[..|ps| - 1];
    var p := ps[|ps| - 1];
    var mid := AfterPrimitives(g, start, init, tp, tn);
    assert |mid.indices| + p.indices.count == |g.indices| + IndexTotal(ps) by {
      PrimitivesGrow(g, start, init, tp, tn);
      assert IndexTotal(ps) == IndexTotal(init) + p.indices.count;
    }
    assert AfterPrimitives(g, start, ps, tp, tn).views
        == mid.views + [MeshView(start, Wrap32(|mid.indices| + p.indices.count - 1), 0, 0)] by {
      assert AfterPrimitives(g, start, ps, tp, tn).views == AfterPrimitive(mid, start, p, tp, tn).views;
      AfterPrimitiveView(mid, start, p, tp, tn);
    }
    assert Wrap32(|g.indices| + IndexTotal(ps) - 1) == Wrap32(|mid.indices| + p.indices.count - 1);
  }

  /** The view one primitive pushes ends at the last index of the grown pool. */
  lemma AfterPrimitiveView(g: Geometry, start: u32, p: Primitive, tp: Vec3 -> Vec3, tn: Vec3 -> Vec3)
    requires PrimitiveShapeOk(p)
    ensures AfterPrimitive(g, start, p, tp, tn).views == g.views + [MeshView(start, Wrap32(|g.indices| + p.indices.count - 1), 0, 0)]
  {
  }

  /** Every view a run of primitives pushes starts at start and carries material 0
      and filler 0. */
  lemma PrimitiveViewsShareStart(views: seq<MeshView>, start: u32, base: nat, ps: seq<Primitive>)
    ensures var r := views + PrimitiveViews(start, base, ps);
      forall j :: |views| <= j < |r| ==> (r[j].start == start && r[j].material == 0 && r[j].filler == 0)
  {
    PrimitiveViewsAt(start, base, ps);
    var r := views + PrimitiveViews(start, base, ps);
    forall j | |views| <= j < |r|
      ensures r[j].start == start && r[j].material == 0 && r[j].filler == 0
    {
      assert r[j] == PrimitiveViews(start, base, ps)[j - |views|];
    }
  }

  /** All views of one mesh start at the index-pool size when the mesh began, and
      carry material 0 and filler 0. */
  lemma MeshViewsShareStart(g: Geometry, mesh: Mesh, tp: Vec3 -> Vec3, tn: Vec3 -> Vec3)
    requires PrimitivesOk(mesh.primitives)
    ensures var r := AfterMesh(g, mesh, tp, tn);
      |r.views| == |g.views| + |mesh.primitives|
      && forall j :: |g.views| <= j < |r.views| ==>
           (r.views[j].start == Wrap32(|g.indices|) && r.views[j].material == 0 && r.views[j].filler == 0)
  {
    PrimitivesPushViews(g, Wrap32(|g.indices|), mesh.primitives, tp, tn);
    PrimitiveViewsShareStart(g.views, Wrap32(|g.indices|), |g.indices|, mesh.primitives);
  }

  /** Every index of the pool names a vertex of the pool. */
  predicate IndicesValid(g: Geometry) {
    forall i :: 0 <= i < |g.indices| ==> g.indices[i] < |g.vertices|
  }

  /** A primitive's raw indices name its own vertices, as glTF requires. */
  predicate IndicesInBounds(p: Primitive) {
    AccessorInBounds(p.indices) && forall k :: 0 <= k < p.indices.count ==> RawIndices(p.indices)[k] < |p.positions|
  }

  predicate AllIndicesInBounds(ms: seq<Mesh>) {
    forall i, j :: 0 <= i < |ms| && 0 <= j < |ms[i].primitives| ==> IndicesInBounds(ms[i].primitives[j])
  }

  /** Offsetting by the vertex-pool size keeps the index pool pointing into the
      vertex pool, as long as the pool stays within uint32_t. */
  lemma PrimitiveKeepsIndicesValid(g: Geometry, start: u32, p: Primitive, tp: Vec3 -> Vec3, tn: Vec3 -> Vec3)
    requires PrimitiveShapeOk(p) && IndicesInBounds(p) && IndicesValid(g)
    requires |g.vertices| + |p.positions| <= U32_LIMIT
    ensures IndicesValid(AfterPrimitive(g, start, p, tp, tn))
  {
    PrimitiveAppends(g, start, p, tp, tn);
    var r := AfterPrimitive(g, start, p, tp, tn);
    forall i | 0 <= i < |r.indices|
      ensures r.indices[i] < |r.vertices|
    {
      if i < |g.indices| {
        assert r.indices[i] == r.indices[..|g.indices|][i] == g.indices[i];
      } else {
        var k := i - |g.indices|;
        assert RawIndices(p.indices)[k] < |p.positions|;
      }
    }
  }

  lemma {:induction false} PrimitivesKeepIndicesValid(g: Geometry, start: u32, ps: seq<Primitive>, tp: Vec3 -> Vec3, tn: Vec3 -> Vec3)
    requires PrimitivesOk(ps) && IndicesValid(g)
    requires forall j :: 0 <= j < |ps| ==> IndicesInBounds(ps[j])
    requires |g.vertices| + VertexTotal(ps) <= U32_LIMIT
    ensures IndicesValid(AfterPrimitives(g, start, ps, tp, tn))
    decreases |ps|
  {
    if |ps| > 0 {
      var init := ps[..|ps| - 1];
      assert PrimitivesOk(init);
      PrimitivesKeepIndicesValid(g, start, init, tp, tn);
      PrimitivesGrow(g, start, init, tp, tn);
      PrimitiveKeepsIndicesValid(AfterPrimitives(g, start, init, tp, tn), start, ps[|ps| - 1], tp, tn);
    }
  }

  /** The index pool keeps naming vertices of the vertex pool across any number of
      imported meshes, as long as the vertex pool stays within uint32_t. */
  lemma {:induction false} MeshesKeepIndicesValid(g: Geometry, ms: seq<Mesh>, tp: Vec3 -> Vec3, tn: Vec3 -> Vec3)
    requires MeshesOk(ms) && AllIndicesInBounds(ms) && IndicesValid(g)
    requires |g.vertices| + MeshesVertexTotal(ms) <= U32_LIMIT
    ensures IndicesValid(AfterMeshes(g, ms, tp, tn))
    ensures |AfterMeshes(g, ms, tp, tn).vertices| == |g.vertices| + MeshesVertexTotal(ms)
    decreases |ms|
  {
    if |ms| > 0 {
      var init := ms[..|ms| - 1];
      var mesh := ms[|ms| - 1];
      assert MeshesOk(init);
      assert AllIndicesInBounds(init) by {
        forall i, j | 0 <= i < |init| && 0 <= j < |init[i].primitives|
          ensures IndicesInBounds(init[i].primitives[j])
        {
          assert init[i] == ms[i];
        }
      }
      MeshesKeepIndicesValid(g, init, tp, tn);
      var mid := AfterMeshes(g, init, tp, tn);
      assert forall j :: 0 <= j < |mesh.primitives| ==> IndicesInBounds(mesh.primitives[j]);
      PrimitivesKeepIndicesValid(mid, Wrap32(|mid.indices|), mesh.primitives, tp, tn);
      PrimitivesGrow(mid, Wrap32(|mid.indices|), mesh.primitives, tp, tn);
    }
  }
}
