/** Regeneration of a reduced-detail model from a source model, one mesh at a
    time: triangle budget from the quality factor, decimation, index buffer
    of 16 or 32 bits, vertex buffer and mesh fields (ModelLodDescriptor). */
module ModelLod {
  import opened Wrappers
  import opened MachineInts

  /** Index counts strictly below this get a 16-bit index buffer. */
  const ShortIndexLimit: nat := 0xFFFF

  // ---------------------------------------------------------------------
  // Geometry and GPU-facing records
  // ---------------------------------------------------------------------

  datatype Vector2 = Vector2(x: real, y: real)
  datatype Vector3 = Vector3(x: real, y: real, z: real)
  datatype Vector4 = Vector4(x: real, y: real, z: real, w: real)

  datatype BoundingBox = BoundingBox(minimum: Vector3, maximum: Vector3)

  datatype PrimitiveType =
    | Undefined | PointList | LineList | LineStrip | TriangleList | TriangleStrip
    | LineListWithAdjacency | LineStripWithAdjacency
    | TriangleListWithAdjacency | TriangleStripWithAdjacency
    | PatchList(controlPoints: nat)

  /** Hardware feature levels, in increasing order of capability. */
  datatype GraphicsProfile =
    | Level_9_1 | Level_9_2 | Level_9_3 | Level_10_0 | Level_10_1
    | Level_11_0 | Level_11_1 | Level_11_2
  {
    function Rank(): nat {
      match this
      case Level_9_1 => 0
      case Level_9_2 => 1
      case Level_9_3 => 2
      case Level_10_0 => 3
      case Level_10_1 => 4
      case Level_11_0 => 5
      case Level_11_1 => 6
      case Level_11_2 => 7
    }
  }

  /** `CurrentProfile <= GraphicsProfile.Level_9_3`: no 32-bit index buffers. */
  predicate LacksLargeIndexBuffers(profile: GraphicsProfile) {
    profile.Rank() <= Level_9_3.Rank()
  }

  datatype VertexPositionNormalTexture =
    VertexPositionNormalTexture(position: Vector3, normal: Vector3, textureCoordinate: Vector2)

  /** A vertex buffer as the records it was created from, and its vertex count. */
  datatype VertexBufferBinding =
    VertexBufferBinding(vertices: seq<VertexPositionNormalTexture>, count: int)

  /** Index buffer contents: 16-bit or 32-bit elements. */
  datatype IndexBuffer = ShortIndices(shorts: seq<uint16>) | IntIndices(ints: seq<int32>)

  datatype IndexBufferBinding = IndexBufferBinding(buffer: IndexBuffer, is32Bit: bool, count: int)

  datatype MeshDraw = MeshDraw(
    primitiveType: PrimitiveType,
    vertexBuffers: seq<VertexBufferBinding>,
    indexBuffer: Option<IndexBufferBinding>,
    drawCount: int)

  /** A mesh: its draw, bounding box, and the indices of its material slot and
      of the skeleton node it hangs from. */
  datatype Mesh = Mesh(draw: MeshDraw, boundingBox: BoundingBox, materialIndex: int, nodeIndex: int)

  /** A material slot of a model; its contents play no part here. */
  datatype MaterialInstance = MaterialInstance(materialId: nat)

  /** A model: the list of meshes is replaced wholesale by generation. */
  class Model {
    var meshes: seq<Mesh>
    var materials: seq<MaterialInstance>

    constructor ()
      ensures meshes == [] && materials == []
    {
      meshes := [];
      materials := [];
    }
  }

  // ---------------------------------------------------------------------
  // Collaborators: mesh data extraction, decimation, device capability
  // ---------------------------------------------------------------------

  /** The arrays a mesh-data tool reads out of a mesh (MeshDataToolBase). */
  datatype MeshData = MeshData(
    totalVertices: nat,
    totalIndices: nat,
    indices: seq<int32>,
    positions: seq<Vector3>,
    uvs: seq<Vector2>,
    normals: seq<Vector3>,
    tangents: seq<Vector4>)

  /** The decimator's mesh: its vertex count is the length of `vertices`. */
  datatype DecimatorMesh = DecimatorMesh(
    vertices: seq<Vector3>,
    indices: seq<int32>,
    uv1: seq<Vector2>,
    normals: seq<Vector3>,
    tangents: seq<Vector4>)

  /** What generation takes from outside: the GPU read-back of a mesh, the
      fast-quadric decimator (given a mesh and a target triangle count) and
      the current profile of the graphics device. */
  datatype Collaborators = Collaborators(
    readBack: Mesh -> MeshData,
    decimate: (DecimatorMesh, nat) -> DecimatorMesh,
    profile: GraphicsProfile)

  datatype LodError =
    | ModelIsNull                // ArgumentNullException
    | NoSourceModel              // InvalidOperationException, no source model
    | TooManyIndicesForProfile   // InvalidOperationException, > 65535 indices on 9.3
    | VertexIndexOutOfRange      // IndexOutOfRangeException in the vertex loop

  // ---------------------------------------------------------------------
  // Triangle budget
  // ---------------------------------------------------------------------

  function Clamp01(q: real): (r: real)
    ensures 0.0 <= r <= 1.0
    ensures 0.0 <= q <= 1.0 ==> r == q
    ensures q < 0.0 ==> r == 0.0
    ensures 1.0 < q ==> r == 1.0
  {
    if q < 0.0 then 0.0 else if q > 1.0 then 1.0 else q
  }

  /** The least integer not below `x`. */
  function Ceiling(x: real): (r: int)
    ensures r as real - 1.0 < x <= r as real
  {
    -((-x).Floor)
  }

  lemma CeilingOfInt(n: int)
    ensures Ceiling(n as real) == n
  {
  }

  lemma CeilingMonotonic(x: real, y: real)
    requires x <= y
    ensures Ceiling(x) <= Ceiling(y)
  {
  }

  lemma RealProductBounds(n: nat, q: real)
    requires 0.0 <= q <= 1.0
    ensures 0.0 <= n as real * q <= n as real
  {
    var c, d := n as real, 1.0 - q;
    assert 0.0 <= c * q && 0.0 <= c * d;
    assert c - c * q == c * d;
  }

  /** Target triangle count for one mesh: the current count `totalIndices / 3`
      scaled by the clamped quality and rounded up. */
  function TriangleBudget(totalIndices: nat, quality: real): (target: nat)
    ensures target <= totalIndices / 3
    ensures quality >= 1.0 ==> target == totalIndices / 3
    ensures quality <= 0.0 ==> target == 0
  {
    var current := totalIndices / 3;
    var q := Clamp01(quality);
    RealProductBounds(current, q);
    var t := Ceiling(current as real * q);
    CeilingOfInt(current);
    CeilingOfInt(0);
    CeilingMonotonic(current as real * q, current as real);
    assert q == 1.0 ==> current as real * q == current as real;
    assert q == 0.0 ==> current as real * q == 0.0;
    t
  }

  /** The budget is the exact ceiling of the scaled triangle count. */
  lemma TriangleBudgetIsCeiling(totalIndices: nat, quality: real)
    ensures var t := TriangleBudget(totalIndices, quality);
      var x := (totalIndices / 3) as real * Clamp01(quality);
      t as real - 1.0 < x <= t as real
  {
  }

  /** A higher quality never asks for fewer triangles. */
  lemma TriangleBudgetMonotonic(totalIndices: nat, q1: real, q2: real)
    requires q1 <= q2
    ensures TriangleBudget(totalIndices, q1) <= TriangleBudget(totalIndices, q2)
  {
    var c := (totalIndices / 3) as real;
    var a, b := Clamp01(q1), Clamp01(q2);
    var d := b - a;
    assert 0.0 <= c && 0.0 <= d;
    assert 0.0 <= c * d;
    assert c * b - c * a == c * d;
    assert c * a <= c * b;
    assert TriangleBudget(totalIndices, q1) == Ceiling(c * a);
    assert TriangleBudget(totalIndices, q2) == Ceiling(c * b);
    CeilingMonotonic(c * a, c * b);
  }

  /** Rounding up: any positive quality keeps at least one triangle of a mesh
      that has one. */
  lemma TriangleBudgetPositive(totalIndices: nat, quality: real)
    requires 0.0 < quality && 3 <= totalIndices
    ensures 1 <= TriangleBudget(totalIndices, quality)
  {
    var c := (totalIndices / 3) as real;
    var q := Clamp01(quality);
    assert 1.0 <= c && 0.0 < q;
    assert 0.0 < c * q;
    TriangleBudgetIsCeiling(totalIndices, quality);
  }

  // ---------------------------------------------------------------------
  // Index buffer
  // ---------------------------------------------------------------------

  /** C# `(ushort)` of an `int` in an unchecked context: the low 16 bits. */
  function TruncateToUInt16(x: int32): (r: uint16)
    ensures r as int % 0x1_0000 == x as int % 0x1_0000
    ensures 0 <= x as int < 0x1_0000 ==> r as int == x as int
  {
    (x as int % 0x1_0000) as uint16
  }

  /** The index values a buffer holds, widened to integers. */
  function IndexValues(buffer: IndexBuffer): seq<int> {
    match buffer
    case ShortIndices(s) => seq(|s|, k requires 0 <= k < |s| => s[k] as int)
    case IntIndices(s) => seq(|s|, k requires 0 <= k < |s| => s[k] as int)
  }

  /** The index buffer binding built from `indices` on a device of `profile`. */
  function IndexBufferFor(indices: seq<int32>, profile: GraphicsProfile): Result<IndexBufferBinding, LodError> {
    if |indices| < ShortIndexLimit then
      Ok(IndexBufferBinding(
        ShortIndices(seq(|indices|, k requires 0 <= k < |indices| => TruncateToUInt16(indices[k]))),
        false, |indices|))
    else if LacksLargeIndexBuffers(profile) then
      Err(TooManyIndicesForProfile)
    else
      Ok(IndexBufferBinding(IntIndices(indices), true, |indices|))
  }

  /** Width rule: 16 bits below 0xFFFF indices, else 32 bits unless the
      profile is at most Level_9_3; the count is the input length, and each
      element is the input index, truncated to 16 bits in the short case. */
  lemma IndexBufferWidth(indices: seq<int32>, profile: GraphicsProfile)
    ensures var r := IndexBufferFor(indices, profile);
      && (r.Ok? <==> (|indices| < 0xFFFF || !LacksLargeIndexBuffers(profile)))
      && (r.Err? ==> r.error == TooManyIndicesForProfile)
      && (r.Ok? ==>
            && r.value.is32Bit == (|indices| >= 0xFFFF)
            && r.value.buffer.IntIndices? == r.value.is32Bit
            && r.value.count == |indices|
            && |IndexValues(r.value.buffer)| == |indices|
            && forall k :: 0 <= k < |indices| ==>
                 IndexValues(r.value.buffer)[k] ==
                 if r.value.is32Bit then indices[k] as int else indices[k] as int % 0x1_0000)
  {
  }

  /** Reading the buffer back gives exactly the input indices if and only if
      it is 32-bit or every index already fits in 16 bits. */
  lemma {:induction false} IndexBufferRoundTrip(indices: seq<int32>, profile: GraphicsProfile)
    requires IndexBufferFor(indices, profile).Ok?
    ensures var b := IndexBufferFor(indices, profile).value;
      (IndexValues(b.buffer) == seq(|indices|, k requires 0 <= k < |indices| => indices[k] as int))
      <==> (b.is32Bit || forall k :: 0 <= k < |indices| ==> 0 <= indices[k] < 0x1_0000)
  {
    var b := IndexBufferFor(indices, profile).value;
    var wide := seq(|indices|, k requires 0 <= k < |indices| => indices[k] as int);
    IndexBufferWidth(indices, profile);
    if !b.is32Bit {
      if IndexValues(b.buffer) == wide {
        forall k | 0 <= k < |indices| ensures 0 <= indices[k] < 0x1_0000 {
          assert IndexValues(b.buffer)[k] == wide[k];
        }
      }
      if forall k :: 0 <= k < |indices| ==> 0 <= indices[k] < 0x1_0000 {
        assert IndexValues(b.buffer) == wide;
      }
    } else {
      assert IndexValues(b.buffer) == wide;
    }
  }

  /** createIndexBuffer: fills a `ushort` array in a loop when the short
      width applies, otherwise checks the profile and keeps the `int` indices. */
  method CreateIndexBuffer(indices: seq<int32>, profile: GraphicsProfile) returns (r: Result<IndexBufferBinding, LodError>)
    ensures r == IndexBufferFor(indices, profile)
  {
    if |indices| < ShortIndexLimit {
      var indicesShort := new uint16[|indices|];
      for i := 0 to indicesShort.Length
        invariant forall k :: 0 <= k < i ==> indicesShort[k] == TruncateToUInt16(indices[k])
      {
        indicesShort[i] := TruncateToUInt16(indices[i]);
      }
      assert indicesShort[..] == seq(|indices|, k requires 0 <= k < |indices| => TruncateToUInt16(indices[k]));
      return Ok(IndexBufferBinding(ShortIndices(indicesShort[..]), false, |indices|));
    } else {
      if LacksLargeIndexBuffers(profile) {
        return Err(TooManyIndicesForProfile);
      }
      return Ok(IndexBufferBinding(IntIndices(indices), true, |indices|));
    }
  }

  // ---------------------------------------------------------------------
  // Vertex buffer
  // ---------------------------------------------------------------------

  /** The decimator's input built from the extracted arrays: positions, the
      triangle indices, UVs, tangents and normals. */
  function DecimatorInput(data: MeshData): DecimatorMesh {
    DecimatorMesh(data.positions, data.indices, data.uvs, data.normals, data.tangents)
  }

  /** The vertex records for the first `vertexCount` entries of `source`'s
      arrays, or the out-of-range error when an array is shorter. */
  function VerticesFor(source: DecimatorMesh, vertexCount: nat): Result<seq<VertexPositionNormalTexture>, LodError> {
    if vertexCount <= |source.vertices| && vertexCount <= |source.uv1| && vertexCount <= |source.normals| then
      Ok(seq(vertexCount, k requires 0 <= k < vertexCount =>
        VertexPositionNormalTexture(source.vertices[k], source.normals[k], source.uv1[k])))
    else
      Err(VertexIndexOutOfRange)
  }

  /** The vertex array has `vertexCount` entries, entry k taking position, UV
      and normal at k of the arrays given; it fails exactly when one of those
      arrays is too short. */
  lemma VerticesForFacts(source: DecimatorMesh, vertexCount: nat)
    ensures var r := VerticesFor(source, vertexCount);
      && (r.Ok? <==> vertexCount <= |source.vertices| && vertexCount <= |source.uv1| && vertexCount <= |source.normals|)
      && (r.Err? ==> r.error == VertexIndexOutOfRange)
      && (r.Ok? ==> |r.value| == vertexCount)
      && (r.Ok? ==> forall k :: 0 <= k < vertexCount ==>
            && r.value[k].position == source.vertices[k]
            && r.value[k].textureCoordinate == source.uv1[k]
            && r.value[k].normal == source.normals[k])
  {
  }

  /** Tangents are extracted but never stored: the vertices do not depend on them. */
  lemma VerticesIgnoreTangents(source: DecimatorMesh, tangents: seq<Vector4>, vertexCount: nat)
    ensures VerticesFor(source.(tangents := tangents), vertexCount) == VerticesFor(source, vertexCount)
  {
  }

  /** The vertex loop of GenerateModel: one record per index below
      `vertexCount`, read from `source` (the decimator's input). */
  method BuildVertices(source: DecimatorMesh, vertexCount: nat) returns (r: Result<seq<VertexPositionNormalTexture>, LodError>)
    ensures r == VerticesFor(source, vertexCount)
  {
    var vertices := new VertexPositionNormalTexture[vertexCount];
    for idx := 0 to vertexCount
      invariant idx <= |source.vertices| && idx <= |source.uv1| && idx <= |source.normals|
      invariant forall k :: 0 <= k < idx ==>
        vertices[k] == VertexPositionNormalTexture(source.vertices[k], source.normals[k], source.uv1[k])
    {
      if idx >= |source.vertices| || idx >= |source.uv1| || idx >= |source.normals| {
        return Err(VertexIndexOutOfRange);
      }
      vertices[idx] := VertexPositionNormalTexture(source.vertices[idx], source.normals[idx], source.uv1[idx]);
    }
    assert vertices[..] == VerticesFor(source, vertexCount).value;
    return Ok(vertices[..]);
  }

  /** createVertexBuffer: one binding over all the vertices, counting them. */
  function CreateVertexBuffer(vertices: seq<VertexPositionNormalTexture>): (r: VertexBufferBinding)
    ensures r.vertices == vertices && r.count == |vertices|
  {
    VertexBufferBinding(vertices, |vertices|)
  }

  // ---------------------------------------------------------------------
  // One mesh, and the whole model
  // ---------------------------------------------------------------------

  /** The decimated mesh produced from `mesh` at `quality`. */
  function Decimated(mesh: Mesh, quality: real, env: Collaborators): DecimatorMesh {
    var dt := env.readBack(mesh);
    env.decimate(DecimatorInput(dt), TriangleBudget(dt.totalIndices, quality))
  }

  /** The converted mesh for one source mesh (body of the per-mesh loop). */
  function ConvertedMesh(mesh: Mesh, quality: real, env: Collaborators): Result<Mesh, LodError> {
    var dt := env.readBack(mesh);
    var destMesh := Decimated(mesh, quality, env);
    match IndexBufferFor(destMesh.indices, env.profile)
    case Err(e) => Err(e)
    case Ok(ib) =>
      match VerticesFor(DecimatorInput(dt), |destMesh.vertices|)
      case Err(e) => Err(e)
      case Ok(vs) =>
        Ok(Mesh(MeshDraw(mesh.draw.primitiveType, [CreateVertexBuffer(vs)], Some(ib), |destMesh.indices|),
                mesh.boundingBox, 0, 0))
  }

  /** What a converted mesh keeps and what it takes from the decimated one:
      primitive type and bounding box are the source mesh's; the draw count
      is the decimated index count; the single vertex binding counts the
      vertex array, built from the read-back arrays up to the decimated vertex
      count; the index binding counts the index array. The mesh is a new one,
      so its material and node indices are the defaults (0), whatever the
      source mesh's were. An index-buffer error comes first, then a vertex
      error. */
  lemma ConvertedMeshFacts(mesh: Mesh, quality: real, env: Collaborators)
    ensures var dt := env.readBack(mesh);
      var dest := Decimated(mesh, quality, env);
      var ib := IndexBufferFor(dest.indices, env.profile);
      var vs := VerticesFor(DecimatorInput(dt), |dest.vertices|);
      var r := ConvertedMesh(mesh, quality, env);
      && (r.Ok? <==> ib.Ok? && vs.Ok?)
      && (ib.Err? ==> r == Err(ib.error))
      && (ib.Ok? && vs.Err? ==> r == Err(vs.error))
      && (r.Ok? ==>
            && r.value.draw.primitiveType == mesh.draw.primitiveType
            && r.value.boundingBox == mesh.boundingBox
            && r.value.materialIndex == 0
            && r.value.nodeIndex == 0
            && r.value.draw.drawCount == |dest.indices|
            && |r.value.draw.vertexBuffers| == 1
            && r.value.draw.vertexBuffers[0].vertices == vs.value
            && r.value.draw.vertexBuffers[0].count == |vs.value| == |dest.vertices|
            && r.value.draw.indexBuffer == Some(ib.value)
            && r.value.draw.indexBuffer.value.count == |dest.indices| == r.value.draw.drawCount)
  {
    var dt := env.readBack(mesh);
    var dest := Decimated(mesh, quality, env);
    VerticesForFacts(DecimatorInput(dt), |dest.vertices|);
  }

  /** The decimator is asked for the triangle budget of the read-back index count. */
  lemma DecimationTarget(mesh: Mesh, quality: real, env: Collaborators)
    ensures var dt := env.readBack(mesh);
      Decimated(mesh, quality, env) == env.decimate(DecimatorInput(dt), TriangleBudget(dt.totalIndices, quality))
      && (quality >= 1.0 ==> Decimated(mesh, quality, env) == env.decimate(DecimatorInput(dt), dt.totalIndices / 3))
      && (quality <= 0.0 ==> Decimated(mesh, quality, env) == env.decimate(DecimatorInput(dt), 0))
  {
  }

  /** Per-mesh conversion: reads the mesh back, computes the budget,
      decimates, builds the index buffer, then the vertices. */
  method ConvertMesh(mesh: Mesh, quality: real, env: Collaborators) returns (r: Result<Mesh, LodError>)
    ensures r == ConvertedMesh(mesh, quality, env)
  {
    var dt := env.readBack(mesh);
    var newTriangleCount := TriangleBudget(dt.totalIndices, quality);
    var sourceMesh := DecimatorInput(dt);
    var destMesh := env.decimate(sourceMesh, newTriangleCount);
    var indexBuffer := CreateIndexBuffer(destMesh.indices, env.profile);
    if indexBuffer.Err? {
      return Err(indexBuffer.error);
    }
    var vertices := BuildVertices(sourceMesh, |destMesh.vertices|);
    if vertices.Err? {
      return Err(vertices.error);
    }
    var draw := MeshDraw(mesh.draw.primitiveType, [CreateVertexBuffer(vertices.value)],
                         Some(indexBuffer.value), |destMesh.indices|);
    return Ok(Mesh(draw, mesh.boundingBox, 0, 0));
  }

  /** All meshes converted in order, stopping at the first failure. */
  function GenerateMeshes(meshes: seq<Mesh>, quality: real, env: Collaborators): Result<seq<Mesh>, LodError>
    decreases |meshes|
  {
    if meshes == [] then Ok([])
    else
      match GenerateMeshes(meshes[..|meshes| - 1], quality, env)
      case Err(e) => Err(e)
      case Ok(done) =>
        match ConvertedMesh(meshes[|meshes| - 1], quality, env)
        case Err(e) => Err(e)
        case Ok(m) => Ok(done + [m])
  }

  /** One output mesh per source mesh, in source order. */
  lemma {:induction false} GenerateMeshesInOrder(meshes: seq<Mesh>, quality: real, env: Collaborators)
    requires GenerateMeshes(meshes, quality, env).Ok?
    ensures var out := GenerateMeshes(meshes, quality, env).value;
      |out| == |meshes| &&
      forall k :: 0 <= k < |meshes| ==>
        ConvertedMesh(meshes[k], quality, env) == Ok(out[k])
    decreases |meshes|
  {
    if meshes != [] {
      var init := meshes[..|meshes| - 1];
      GenerateMeshesInOrder(init, quality, env);
      var out := GenerateMeshes(meshes, quality, env).value;
      var prev := GenerateMeshes(init, quality, env).value;
      assert out == prev + [ConvertedMesh(meshes[|meshes| - 1], quality, env).value];
      forall k | 0 <= k < |meshes|
        ensures ConvertedMesh(meshes[k], quality, env) == Ok(out[k])
      {
        if k < |meshes| - 1 {
          assert meshes[k] == init[k];
        }
      }
    }
  }

  /** Fail-fast: generation fails if and only if some mesh fails, and then
      with the error of the first failing mesh. */
  lemma {:induction false} GenerateMeshesFailsFast(meshes: seq<Mesh>, quality: real, env: Collaborators)
    ensures var g := GenerateMeshes(meshes, quality, env);
      && (g.Ok? <==> forall k :: 0 <= k < |meshes| ==> ConvertedMesh(meshes[k], quality, env).Ok?)
      && (g.Err? ==>
            exists k :: 0 <= k < |meshes| &&
              ConvertedMesh(meshes[k], quality, env) == Err(g.error) &&
              forall j :: 0 <= j < k ==> ConvertedMesh(meshes[j], quality, env).Ok?)
    decreases |meshes|
  {
    if meshes != [] {
      var n := |meshes| - 1;
      var init := meshes[..n];
      GenerateMeshesFailsFast(init, quality, env);
      assert forall j :: 0 <= j < n ==> init[j] == meshes[j];
      var g := GenerateMeshes(meshes, quality, env);
      var gi := GenerateMeshes(init, quality, env);
      if gi.Err? {
        var k :| 0 <= k < n && ConvertedMesh(init[k], quality, env) == Err(gi.error) &&
          forall j :: 0 <= j < k ==> ConvertedMesh(init[j], quality, env).Ok?;
        assert ConvertedMesh(meshes[k], quality, env) == Err(g.error);
      } else if ConvertedMesh(meshes[n], quality, env).Err? {
        assert ConvertedMesh(meshes[n], quality, env) == Err(g.error);
      }
    }
  }

  /** A failure in a prefix is the failure of the whole list. */
  lemma {:induction false} GenerateMeshesPrefixError(meshes: seq<Mesh>, i: nat, quality: real, env: Collaborators)
    requires i <= |meshes|
    requires GenerateMeshes(meshes[..i], quality, env).Err?
    ensures GenerateMeshes(meshes, quality, env) == GenerateMeshes(meshes[..i], quality, env)
    decreases |meshes| - i
  {
    if i < |meshes| {
      assert meshes[..i + 1][..i] == meshes[..i];
      GenerateMeshesPrefixError(meshes, i + 1, quality, env);
    } else {
      assert meshes[..i] == meshes;
    }
  }

  /** The descriptor of one LOD level: level, quality (clamped when used) and
      the source model, which may be missing. */
  class ModelLodDescriptor {
    var level: int
    var quality: real
    var srcModel: Model?

    /** The parameterless constructor: every field at its default. */
    constructor ()
      ensures level == 0 && quality == 0.0 && srcModel == null
    {
      level := 0;
      quality := 0.0;
      srcModel := null;
    }

    constructor WithSource(level: int, quality: real, srcModel: Model?)
      ensures this.level == level && this.quality == quality && this.srcModel == srcModel
    {
      this.level := level;
      this.quality := quality;
      this.srcModel := srcModel;
    }

    /** GenerateModel(services, model): rebuilds every source mesh and then
        replaces `model.meshes` with the results; on any failure the model
        keeps its meshes. The materials are never touched. */
    method GenerateModel(env: Collaborators, model: Model?) returns (r: Outcome<LodError>)
      modifies model
      ensures model == null ==> r == Fail(ModelIsNull)
      ensures model != null && srcModel == null ==>
        r == Fail(NoSourceModel) && model.meshes == old(model.meshes)
      ensures model != null && srcModel != null ==>
        var g := GenerateMeshes(old(srcModel.meshes), quality, env);
        && r == (if g.Ok? then Pass else Fail(g.error))
        && model.meshes == (if g.Ok? then g.value else old(model.meshes))
      ensures model != null ==> model.materials == old(model.materials)
    {
      if model == null {
        return Fail(ModelIsNull);
      }
      if srcModel == null {
        return Fail(NoSourceModel);
      }
      var sourceMeshes := srcModel.meshes;
      var convertedMeshes: seq<Mesh> := [];
      for i := 0 to |sourceMeshes|
        invariant GenerateMeshes(sourceMeshes[..i], quality, env) == Ok(convertedMeshes)
        invariant unchanged(model)
      {
        var convertedMesh := ConvertMesh(sourceMeshes[i], quality, env);
        assert sourceMeshes[..i + 1][..i] == sourceMeshes[..i];
        assert sourceMeshes[..i + 1][i] == sourceMeshes[i];
        if convertedMesh.Err? {
          assert GenerateMeshes(sourceMeshes[..i + 1], quality, env) == Err(convertedMesh.error);
          GenerateMeshesPrefixError(sourceMeshes, i + 1, quality, env);
          return Fail(convertedMesh.error);
        }
        convertedMeshes := convertedMeshes + [convertedMesh.value];
      }
      assert sourceMeshes[..|sourceMeshes|] == sourceMeshes;
      model.meshes := convertedMeshes;
      return Pass;
    }

    /** GenerateModel(services): the same generation into a new, empty model. */
    method GenerateNewModel(env: Collaborators) returns (model: Model, r: Outcome<LodError>)
      ensures fresh(model)
      ensures model.materials == []
      ensures srcModel == null ==> r == Fail(NoSourceModel) && model.meshes == []
      ensures srcModel != null ==>
        var g := GenerateMeshes(old(srcModel.meshes), quality, env);
        && r == (if g.Ok? then Pass else Fail(g.error))
        && model.meshes == (if g.Ok? then g.value else [])
    {
      model := new Model();
      r := GenerateModel(env, model);
    }
  }

  /** Bounding boxes and primitive types of a generated model are exactly
      those of the source meshes, position by position. */
  lemma GeneratedKeepsBoundsAndTopology(meshes: seq<Mesh>, quality: real, env: Collaborators)
    requires GenerateMeshes(meshes, quality, env).Ok?
    ensures var out := GenerateMeshes(meshes, quality, env).value;
      |out| == |meshes| &&
      forall k :: 0 <= k < |meshes| ==>
        out[k].boundingBox == meshes[k].boundingBox &&
        out[k].draw.primitiveType == meshes[k].draw.primitiveType
  {
    GenerateMeshesInOrder(meshes, quality, env);
    var out := GenerateMeshes(meshes, quality, env).value;
    forall k | 0 <= k < |meshes|
      ensures out[k].boundingBox == meshes[k].boundingBox &&
              out[k].draw.primitiveType == meshes[k].draw.primitiveType
    {
      ConvertedMeshFacts(meshes[k], quality, env);
    }
  }
}
