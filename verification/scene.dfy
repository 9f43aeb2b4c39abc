/** The records the renderer keeps in its scene pools and hands to the shaders
    (Renderer.h). Floating-point payloads are kept as reals: no operation in the
    model computes with them, they are only copied. */
module Scene {
  import opened Common

  datatype Vec2 = Vec2(x: real, y: real)
  datatype Vec3 = Vec3(x: real, y: real, z: real)
  datatype Vec4 = Vec4(x: real, y: real, z: real, w: real)

  /** Position, the U texture coordinate, normal, the V texture coordinate. */
  datatype Vertex = Vertex(position: Vec3, u: real, normal: Vec3, v: real)

  /** Three texture indices into the renderer's texture array. */
  datatype MaterialIndexGroup = MaterialIndexGroup(diffuse: u32, metallicRoughness: u32, emissive: u32)

  datatype PointLight = PointLight(position: Vec3, radius: real, color: Vec3, falloff: real)

  /** A cone light; the two fillers pad it to 64 bytes. */
  datatype SpotLight = SpotLight(position: Vec3, radius: real, lightDir: Vec4, color: Vec3, falloff: real,
                                 cutoff: real, innerCutoff: real, fillerA: real, fillerB: real)

  datatype DirLight = DirLight(lightDir: Vec4, color: Vec4)

  /** One primitive's index range in the shared index pool, inclusive at both ends. */
  datatype MeshView = MeshView(start: u32, end: u32, material: u32, filler: u32)

  /** The four counters the shaders read, in this order. */
  datatype SceneInfo = SceneInfo(meshCount: u32, pointLightCount: u32, spotLightCount: u32, directionLightCount: u32)

  /** The counters PushConstant_Draw fills from the pool sizes; each size_t is
      narrowed to uint32_t. */
  function SceneInfoOf(meshViews: nat, pointLights: nat, spotLights: nat, dirLights: nat): (r: SceneInfo)
    ensures meshViews < U32_LIMIT ==> r.meshCount == meshViews
    ensures pointLights < U32_LIMIT ==> r.pointLightCount == pointLights
    ensures spotLights < U32_LIMIT ==> r.spotLightCount == spotLights
    ensures dirLights < U32_LIMIT ==> r.directionLightCount == dirLights
  {
    SceneInfo(Wrap32(meshViews), Wrap32(pointLights), Wrap32(spotLights), Wrap32(dirLights))
  }
}
