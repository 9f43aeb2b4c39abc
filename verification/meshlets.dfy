/** The meshlet buffers OptimizeMesh builds (Renderer.cpp): their capacities, the
    trim after meshlet building, and the 4-byte round-up of each meshlet's triangle
    bytes. The meshoptimizer calls (the meshlet bound and buildMeshlets itself) are
    library code: their results are inputs here. */
module Meshlets {
  import opened Common

  /** meshopt_Meshlet: four unsigned ints. */
  datatype Meshlet = Meshlet(vertexOffset: u32, triangleOffset: u32, vertexCount: u32, triangleCount: u32)

  const EMPTY_MESHLET: Meshlet := Meshlet(0, 0, 0, 0)

  /** The limits OptimizeMesh passes to the meshlet builder. */
  const MAX_VERTICES: nat := 64
  const MAX_TRIANGLES: nat := 124

  /** std::vector::resize: keeps the first n entries, and value-initialises (zero)
      the entries it adds when growing. */
  function Resize<T>(s: seq<T>, n: nat, zero: T): (r: seq<T>)
    ensures |r| == n
    ensures forall i :: 0 <= i < n && i < |s| ==> r[i] == s[i]
    ensures forall i :: |s| <= i < n ==> r[i] == zero
  {
    if n <= |s| then s[..n] else s + seq(n - |s|, _ => zero)
  }

  /** The triangle bytes a meshlet occupies, `(triangle_count * 3 + 3) & ~3` in
      unsigned int arithmetic. Clearing the two low bits of x is x - x % 4. Without
      wrap-around it is 3 * triangleCount rounded up to a multiple of 4. */
  function PaddedTriangleBytes(triangleCount: u32): (r: u32)
    ensures r % 4 == 0
    ensures 3 * triangleCount + 3 < U32_LIMIT ==> 3 * triangleCount <= r < 3 * triangleCount + 4
  {
    var x := Wrap32(triangleCount * 3 + 3);
    x - x % 4
  }

  /** The new size of meshletVertices: `vertex_offset + vertex_count` in unsigned int. */
  function VertexEnd(m: Meshlet): u32 {
    Wrap32(m.vertexOffset + m.vertexCount)
  }

  /** The new size of meshletTriangles: `triangle_offset + padded bytes` in unsigned int. */
  function TriangleEnd(m: Meshlet): u32 {
    Wrap32(m.triangleOffset + PaddedTriangleBytes(m.triangleCount))
  }

  /** The index `meshletCount - 1` computed in size_t. */
  function LastIndex(meshletCount: size_t): nat {
    WrapSize(meshletCount - 1)
  }

  /** What meshopt_buildMeshlets leaves in the three arrays it fills in place. */
  datatype BuiltMeshlets = BuiltMeshlets(meshlets: seq<Meshlet>, vertices: seq<u32>, triangles: seq<u8>)

  /** The layout the builder produces: each meshlet's vertices and (padded)
      triangle bytes follow directly after the previous meshlet's. */
  predicate Packed(ms: seq<Meshlet>, count: nat)
    requires count <= |ms|
  {
    forall k :: 0 <= k < count - 1 ==>
      ms[k + 1].vertexOffset == ms[k].vertexOffset + ms[k].vertexCount
      && ms[k + 1].triangleOffset == ms[k].triangleOffset + PaddedTriangleBytes(ms[k].triangleCount)
  }

  /** In a packed layout no meshlet ends after the last one. */
  lemma {:induction false} PackedEndsBelowLast(ms: seq<Meshlet>, count: nat, k: nat)
    requires 1 <= count <= |ms| && Packed(ms, count) && k < count
    ensures ms[k].vertexOffset + ms[k].vertexCount <= ms[count - 1].vertexOffset + ms[count - 1].vertexCount
    ensures ms[k].triangleOffset + PaddedTriangleBytes(ms[k].triangleCount)
      <= ms[count - 1].triangleOffset + PaddedTriangleBytes(ms[count - 1].triangleCount)
    decreases count - k
  {
    if k < count - 1 {
      PackedEndsBelowLast(ms, count, k + 1);
    }
  }

  class MeshletBuffers {
    var meshlets: seq<Meshlet>
    var meshletVertices: seq<u32>
    var meshletTriangles: seq<u8>

    constructor ()
      ensures meshlets == [] && meshletVertices == [] && meshletTriangles == []
    {
      meshlets := [];
      meshletVertices := [];
      meshletTriangles := [];
    }

    /** The three vectors sized for maxMeshlets meshlets, value-initialised. */
    method Allocate(maxMeshlets: nat)
      modifies this
      ensures meshlets == seq(maxMeshlets, _ => EMPTY_MESHLET)
      ensures meshletVertices == seq(maxMeshlets * MAX_VERTICES, _ => 0)
      ensures meshletTriangles == seq(maxMeshlets * MAX_TRIANGLES * 3, _ => 0)
    {
      meshlets := seq(maxMeshlets, _ => EMPTY_MESHLET);
      meshletVertices := seq(maxMeshlets * MAX_VERTICES, _ => 0);
      meshletTriangles := seq(maxMeshlets * MAX_TRIANGLES * 3, _ => 0);
    }

    /** The trim as written: the meshlet at index meshletCount - 1 (computed in size_t)
        is read without a check, so that index must lie inside meshlets. The meshlet
        array itself is left at its full length. */
    method Trim(meshletCount: size_t)
      modifies this
      requires LastIndex(meshletCount) < |meshlets|
      ensures meshlets == old(meshlets)
      ensures meshletVertices == Resize(old(meshletVertices), VertexEnd(meshlets[LastIndex(meshletCount)]), 0)
      ensures meshletTriangles == Resize(old(meshletTriangles), TriangleEnd(meshlets[LastIndex(meshletCount)]), 0)
    {
      var last := meshlets[LastIndex(meshletCount)];
      meshletVertices := Resize(meshletVertices, VertexEnd(last), 0);
      meshletTriangles := Resize(meshletTriangles, TriangleEnd(last), 0);
    }

    /** The trim with an empty build handled: no meshlet means no meshlet data. */
    method TrimBuilt(meshletCount: size_t)
      modifies this
      requires meshletCount <= |meshlets|
      ensures meshlets == old(meshlets)
      ensures meshletCount == 0 ==> meshletVertices == [] && meshletTriangles == []
      ensures meshletCount >= 1 ==>
        meshletVertices == Resize(old(meshletVertices), VertexEnd(meshlets[meshletCount - 1]), 0)
        && meshletTriangles == Resize(old(meshletTriangles), TriangleEnd(meshlets[meshletCount - 1]), 0)
    {
      if meshletCount == 0 {
        meshletVertices := [];
        meshletTriangles := [];
      } else {
        Trim(meshletCount);
      }
    }

    /** The meshlet step of OptimizeMesh: allocate for the library's bound, let the
        builder fill the arrays in place (built, of the allocated sizes), then trim the
        vertex and triangle arrays to the last built meshlet's end. */
    method BuildMeshlets(maxMeshlets: nat, meshletCount: size_t, built: BuiltMeshlets)
      modifies this
      requires |built.meshlets| == maxMeshlets
      requires |built.vertices| == maxMeshlets * MAX_VERTICES
      requires |built.triangles| == maxMeshlets * MAX_TRIANGLES * 3
      requires meshletCount <= maxMeshlets
      ensures meshlets == built.meshlets && |meshlets| == maxMeshlets
      ensures meshletCount == 0 ==> meshletVertices == [] && meshletTriangles == []
      ensures meshletCount >= 1 ==>
        meshletVertices == Resize(built.vertices, VertexEnd(built.meshlets[meshletCount - 1]), 0)
        && meshletTriangles == Resize(built.triangles, TriangleEnd(built.meshlets[meshletCount - 1]), 0)
    {
      Allocate(maxMeshlets);
      meshlets, meshletVertices, meshletTriangles := built.meshlets, built.vertices, built.triangles;
      TrimBuilt(meshletCount);
    }
  }

  /** The as-written trim cannot run on an empty build: meshletCount - 1 wraps to the
      largest size_t, which no vector length reaches. */
  lemma EmptyBuildIndexOutOfRange(len: nat)
    requires len < SIZE_LIMIT
    ensures !(LastIndex(0) < len)
  {
    assert LastIndex(0) == SIZE_LIMIT - 1;
  }

  /** For a packed build that fits its arrays, the trimmed vertex array is the prefix
      of the builder's output up to the last meshlet's end and still holds every
      built meshlet's vertex indices. */
  lemma {:induction false} TrimKeepsMeshletVertices(built: BuiltMeshlets, meshletCount: nat, k: nat, j: nat)
    requires 1 <= meshletCount <= |built.meshlets|
    requires Packed(built.meshlets, meshletCount)
    requires built.meshlets[meshletCount - 1].vertexOffset + built.meshlets[meshletCount - 1].vertexCount <= |built.vertices|
    requires |built.vertices| < U32_LIMIT
    requires k < meshletCount && j < built.meshlets[k].vertexCount
    ensures var trimmed := Resize(built.vertices, VertexEnd(built.meshlets[meshletCount - 1]), 0);
      built.meshlets[k].vertexOffset + j < |trimmed|
      && trimmed[built.meshlets[k].vertexOffset + j] == built.vertices[built.meshlets[k].vertexOffset + j]
  {
    PackedEndsBelowLast(built.meshlets, meshletCount, k);
  }

  /** Likewise the trimmed triangle array holds every built meshlet's padded
      triangle bytes. */
  lemma {:induction false} TrimKeepsMeshletTriangles(built: BuiltMeshlets, meshletCount: nat, k: nat, j: nat)
    requires 1 <= meshletCount <= |built.meshlets|
    requires Packed(built.meshlets, meshletCount)
    requires var last := built.meshlets[meshletCount - 1];
      last.triangleOffset + PaddedTriangleBytes(last.triangleCount) <= |built.triangles|
    requires |built.triangles| < U32_LIMIT
    requires k < meshletCount && j < PaddedTriangleBytes(built.meshlets[k].triangleCount)
    ensures var trimmed := Resize(built.triangles, TriangleEnd(built.meshlets[meshletCount - 1]), 0);
      built.meshlets[k].triangleOffset + j < |trimmed|
      && trimmed[built.meshlets[k].triangleOffset + j] == built.triangles[built.meshlets[k].triangleOffset + j]
  {
    PackedEndsBelowLast(built.meshlets, meshletCount, k);
  }
}
