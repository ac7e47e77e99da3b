# Model LOD generation and model asset import

This project is a Dafny model of two parts of the Stride engine's model pipeline.

**Level-of-detail (LOD) generation.** `ModelLodDescriptor.GenerateModel` rebuilds
every mesh of a source model at a quality between 0 and 1:

- It reads the mesh back from the GPU.
- It asks the mesh decimator for `ceil(⌊indices / 3⌋ · clamp01(quality))` triangles.
- It builds a 16-bit index buffer when there are fewer than 0xFFFF indices.
  Otherwise it builds a 32-bit buffer, and fails on devices of profile
  Level_9_3 or below.
- It builds one position/normal/UV vertex buffer from the source arrays, up to
  the decimated vertex count.
- It keeps the primitive type and the bounding box of the source mesh. The new
  mesh's material and node indices keep their defaults (0).
- It replaces the meshes of the target model. The materials are left alone.

**Model asset import.** `ModelAssetImporter.Import` turns the scene read from a
3D file into asset items, appended to one shared list in a fixed order:

1. textures (one per distinct dependency path);
2. the skeleton;
3. the animation (only for a non-empty animation-node list);
4. the materials;
5. when LOD generation is requested, the LOD assets `<model>_LOD1 .. _LODn`
   (each referring back to the model and copying its material list); the
   level count is a C# `int`, and at `int.MaxValue` the loop bound
   `levels + 1` wraps, so no LOD asset is made;
6. the model last.

Files:

- `wrappers.dfy`: `Option`, `Result`, `Outcome`.
- `machine_ints.dfy`: the C# `int` and `ushort` ranges and unchecked 32-bit wrap-around.
- `decimal.dfy`: decimal rendering of naturals, which builds the `_LOD<i>` suffix: its value and its injectivity.
- `model_lod.dfy`: module `ModelLod`, modelled on `ModelLodDescriptor.cs`.
- `model_assets.dfy`: module `ModelAssets`, modelled on `ModelAssetImporter.cs`.

How the pieces are modelled:

- Collaborators the model cannot see are parameters:
  - GPU read-back of a mesh;
  - the mesh decimator;
  - the device's graphics profile;
  - the scene reader (`GetEntityInfo`);
  - the animation duration;
  - `UFile.GetFileNameWithoutExtension`.
- Objects the source updates in place are classes:
  - `Model`;
  - `ModelLodDescriptor`;
  - the shared asset-item list;
  - the model asset while ImportModel and ImportLods fill it;
  - the source of fresh asset ids.
- Each loop of the source is a `while`/`for` loop. It is proved equal to a
  specification function, and the properties are lemmas about that function.

Behaviour of the code that the model keeps as written:

- The 16-bit index buffer is used when there are fewer than 0xFFFF (65535) indices, so a mesh of exactly 65535 indices gets a 32-bit buffer.
- The primitive type of the source mesh is copied without being checked, and a triangle target of zero is handed to the decimator as it is.
- A mesh that fails to convert ends the generation. The target model's meshes are assigned only after the loop, so after a failure they are the meshes the target had before.

## Model

| member | source | states |
|---|---|---|
| ModelLod.Clamp01 | sources/engine/Stride.Rendering/Rendering/ModelLod/ModelLodDescriptor.cs:106 | the quality is clamped into [0, 1]: unchanged inside, 0 below, 1 above |
| ModelLod.Ceiling | sources/engine/Stride.Rendering/Rendering/ModelLod/ModelLodDescriptor.cs:107 | the result is the least integer not below x |
| ModelLod.TriangleBudget | sources/engine/Stride.Rendering/Rendering/ModelLod/ModelLodDescriptor.cs:102-107 | the triangle target never exceeds the current triangle count ⌊indices/3⌋; it equals that count at quality ≥ 1 and is 0 at quality ≤ 0 |
| ModelLod.TriangleBudgetIsCeiling | sources/engine/Stride.Rendering/Rendering/ModelLod/ModelLodDescriptor.cs:104-107 | the target is the ceiling of current triangle count × clamped quality |
| ModelLod.TriangleBudgetMonotonic | sources/engine/Stride.Rendering/Rendering/ModelLod/ModelLodDescriptor.cs:104-107 | a higher quality never asks for fewer triangles |
| ModelLod.TriangleBudgetPositive | sources/engine/Stride.Rendering/Rendering/ModelLod/ModelLodDescriptor.cs:104-107 | any positive quality on a mesh of at least one triangle asks for at least one triangle |
| ModelLod.TruncateToUInt16 | sources/engine/Stride.Rendering/Rendering/ModelLod/ModelLodDescriptor.cs:166 | the `(ushort)` cast keeps the low 16 bits and preserves values in [0, 65536) |
| ModelLod.IndexBufferWidth | sources/engine/Stride.Rendering/Rendering/ModelLod/ModelLodDescriptor.cs:159-179 | the index buffer is built exactly when there are fewer than 0xFFFF indices or the profile is above Level_9_3; otherwise the error is the profile error; it is 32-bit exactly when there are at least 0xFFFF indices; its count is the index count; element k is index k, truncated to 16 bits in the short case |
| ModelLod.IndexBufferRoundTrip | sources/engine/Stride.Rendering/Rendering/ModelLod/ModelLodDescriptor.cs:161-168 | the stored buffer reads back as the input indices exactly when it is 32-bit or every index fits in 16 bits |
| ModelLod.CreateIndexBuffer | sources/engine/Stride.Rendering/Rendering/ModelLod/ModelLodDescriptor.cs:159-179 | the loop filling the `ushort` array, with the profile check, yields the index buffer described by IndexBufferFor |
| ModelLod.VerticesForFacts | sources/engine/Stride.Rendering/Rendering/ModelLod/ModelLodDescriptor.cs:130-140 | the vertex array has the decimated vertex count of entries; entry k takes position, UV and normal k of the source arrays; it fails exactly when one of those arrays is shorter |
| ModelLod.VerticesIgnoreTangents | sources/engine/Stride.Rendering/Rendering/ModelLod/ModelLodDescriptor.cs:130-140 | tangents handed to the decimator do not affect the vertex array |
| ModelLod.BuildVertices | sources/engine/Stride.Rendering/Rendering/ModelLod/ModelLodDescriptor.cs:130-140 | the vertex loop yields VerticesFor, or the out-of-range error |
| ModelLod.ConvertedMeshFacts | sources/engine/Stride.Rendering/Rendering/ModelLod/ModelLodDescriptor.cs:98-145 | a converted mesh keeps the primitive type and bounding box, keeps the default material and node index 0, has one vertex binding counting the vertex array, an index binding counting the decimated indices, and a draw count equal to that index count; an index-buffer error takes precedence over a vertex error |
| ModelLod.CreateVertexBuffer | sources/engine/Stride.Rendering/Rendering/ModelLod/ModelLodDescriptor.cs:154-157 | the draw's single vertex binding holds the vertex array and counts its length |
| ModelLod.DecimationTarget | sources/engine/Stride.Rendering/Rendering/ModelLod/ModelLodDescriptor.cs:109-122 | the decimator receives the read-back mesh and the triangle budget (the full triangle count at quality ≥ 1, zero at quality ≤ 0) |
| ModelLod.ConvertMesh | sources/engine/Stride.Rendering/Rendering/ModelLod/ModelLodDescriptor.cs:98-147 | the loop body converting one mesh yields ConvertedMesh |
| ModelLod.GenerateMeshesInOrder | sources/engine/Stride.Rendering/Rendering/ModelLod/ModelLodDescriptor.cs:95-148 | on success there is one converted mesh per source mesh, in source order |
| ModelLod.GenerateMeshesFailsFast | sources/engine/Stride.Rendering/Rendering/ModelLod/ModelLodDescriptor.cs:95-148 | generation succeeds exactly when every mesh converts; otherwise its error is that of the first mesh that fails, all earlier ones having converted |
| ModelLod.GenerateMeshesPrefixError | sources/engine/Stride.Rendering/Rendering/ModelLod/ModelLodDescriptor.cs:95-148 | once a prefix of the meshes fails, the whole generation fails with that error |
| ModelLod.GeneratedKeepsBoundsAndTopology | sources/engine/Stride.Rendering/Rendering/ModelLod/ModelLodDescriptor.cs:125-145 | every generated mesh keeps its source mesh's bounding box and primitive type |
| ModelLod.ModelLodDescriptor.constructor | sources/engine/Stride.Rendering/Rendering/ModelLod/ModelLodDescriptor.cs:36-38 | the default descriptor has level 0, quality 0 and no source model |
| ModelLod.ModelLodDescriptor.WithSource | sources/engine/Stride.Rendering/Rendering/ModelLod/ModelLodDescriptor.cs:44-49 | the descriptor holds the given level, quality and source model |
| ModelLod.ModelLodDescriptor.GenerateModel | sources/engine/Stride.Rendering/Rendering/ModelLod/ModelLodDescriptor.cs:82-152 | a null target fails; a missing source model fails and leaves the target alone; otherwise the target's meshes become the generated meshes, or stay unchanged when a mesh fails; the materials are never touched |
| ModelLod.ModelLodDescriptor.GenerateNewModel | sources/engine/Stride.Rendering/Rendering/ModelLod/ModelLodDescriptor.cs:75-80 | a fresh model receives the generated meshes and no materials |
| Decimal.NatToString | sources/engine/Stride.Assets.Models/ModelAssetImporter.cs:224 | the decimal rendering of an integer is a non-empty string of digits |
| Decimal.NatToStringInjective | sources/engine/Stride.Assets.Models/ModelAssetImporter.cs:224 | different levels render differently |
| Decimal.NatToStringValue | sources/engine/Stride.Assets.Models/ModelAssetImporter.cs:224 | the decimal rendering of n denotes n and has no leading zero |
| MachineInts.WrapInt32 | sources/engine/Stride.Assets.Models/ModelAssetImporter.cs:216 | unchecked 32-bit arithmetic: the result agrees with the exact value modulo 2^32 and equals it inside the `int` range |
| MachineInts.WrapInt32Overflow | sources/engine/Stride.Assets.Models/ModelAssetImporter.cs:216 | `int.MaxValue + 1` wraps to `int.MinValue` |
| ModelAssets.Distinct | sources/engine/Stride.Assets.Models/ModelAssetImporter.cs:328 | the distinct paths are exactly the input's elements, without repeats |
| ModelAssets.DistinctFirstOccurrenceOrder | sources/engine/Stride.Assets.Models/ModelAssetImporter.cs:328 | the distinct paths keep the order of their first occurrence |
| ModelAssets.TextureItemsFacts | sources/engine/Stride.Assets.Models/ModelAssetImporter.cs:323-338 | a null dependency list gives nothing; otherwise every path gets exactly one non-premultiplied texture item, located at the path's file name, in the order of first occurrence |
| ModelAssets.ImportTextures | sources/engine/Stride.Assets.Models/ModelAssetImporter.cs:323-338 | the texture loop appends exactly TextureItems to the list |
| ModelAssets.SkeletonItemFacts | sources/engine/Stride.Assets.Models/ModelAssetImporter.cs:131-151 | the skeleton item sits at `<name> Skeleton`, copies every node's name, depth and preserve flag in order (none for a null node list), and asks to preserve nodes exactly when the animation-node list is non-empty |
| ModelAssets.ImportSkeleton | sources/engine/Stride.Assets.Models/ModelAssetImporter.cs:131-151 | appends and returns the skeleton item |
| ModelAssets.AnimationItems | sources/engine/Stride.Assets.Models/ModelAssetImporter.cs:153-167 | no animation item for a null or empty node list, otherwise exactly one, at the file name with ` Animation` appended when the model is imported, carrying the source, the time range and a reference to the skeleton item exactly when there is one |
| ModelAssets.ImportAnimation | sources/engine/Stride.Assets.Models/ModelAssetImporter.cs:153-167 | appends one animation item, with the time range, the optional ` Animation` suffix and a skeleton reference when there is a skeleton, exactly when the animation-node list is non-empty |
| ModelAssets.ImportMaterials | sources/engine/Stride.Assets.Models/ModelAssetImporter.cs:234-265 | appends one material item per dictionary entry at the entry's key, nothing for a null dictionary |
| ModelAssets.MaterialItemsIn | sources/engine/Stride.Assets.Models/ModelAssetImporter.cs:174 | the loaded materials are exactly the material items of the list; none for an empty list; a single item is kept exactly when it is a material |
| ModelAssets.MaterialItemsInConcat | sources/engine/Stride.Assets.Models/ModelAssetImporter.cs:174 | the filter keeps order: the material items of `a + b` are those of `a` followed by those of `b` |
| ModelAssets.FirstAt | sources/engine/Stride.Assets.Models/ModelAssetImporter.cs:182 | finds nothing exactly when no item has the location, and otherwise the first item that has it |
| ModelAssets.ModelMaterialsFacts | sources/engine/Stride.Assets.Models/ModelAssetImporter.cs:172-196 | one slot per material entry, named by its key, in order, or the single slot "Material" when there are none; a slot refers to an imported material item exactly when one sits at its key |
| ModelAssets.LodUrlInjective | sources/engine/Stride.Assets.Models/ModelAssetImporter.cs:224 | two levels of one model never share a LOD location |
| ModelAssets.LevelCount | sources/engine/Stride.Assets.Models/ModelAssetImporter.cs:212-217 | the LOD loop makes no asset for a level count below 1 or equal to `int.MaxValue` (its bound wraps), and `levels` assets otherwise |
| ModelAssets.ModelItemsFacts | sources/engine/Stride.Assets.Models/ModelAssetImporter.cs:169-232 | with N = LevelCount(levels): N LOD items precede the model item; item k is level k+1 at `<model>_LOD<k+1>`, refers to the model item, has quality 0.5 and the model's materials; LOD locations are pairwise distinct; the model's LOD list refers to them in level order; the model item is last |
| ModelAssets.ImportLods | sources/engine/Stride.Assets.Models/ModelAssetImporter.cs:212-232 | the level loop, with its 32-bit bound `levels + 1`, appends exactly the LevelCount(levels) LOD items and registers each in the model asset, leaving its other fields alone |
| ModelAssets.AddMaterialSlots | sources/engine/Stride.Assets.Models/ModelAssetImporter.cs:175-195 | the material loop gives one slot per entry, referring to the loaded material at its key, or the single default slot when there are no entries, and changes nothing else in the asset |
| ModelAssets.ImportModel | sources/engine/Stride.Assets.Models/ModelAssetImporter.cs:169-210 | fails, appending nothing, when the scene has models but no material dictionary; otherwise appends the LOD items and the model item described by ModelItems |
| ModelAssets.RequestedLodLevels | sources/engine/Stride.Assets.Models/ModelAssetImporter.cs:77-82 | a missing level key reads as 0 and a missing generation key as off; the level count reaches the model step only when generation is on, and is 0 otherwise |
| ModelAssets.ImportBeforeModel | sources/engine/Stride.Assets.Models/ModelAssetImporter.cs:94-120 | the texture, skeleton, animation and material steps, run as selected, append exactly the items of SectionsOf and hand the skeleton item to the model step |
| ModelAssets.Import | sources/engine/Stride.Assets.Models/ModelAssetImporter.cs:73-129 | the run of the selected steps yields ImportResult; no scene gives an empty list |
| ModelAssets.SectionsInOrder | sources/engine/Stride.Assets.Models/ModelAssetImporter.cs:94-120 | the steps before the model give textures, then skeleton, animation and materials, and no LOD or model item |
| ModelAssets.ImportInOrder | sources/engine/Stride.Assets.Models/ModelAssetImporter.cs:94-126 | every import lists textures, skeleton, animation, materials, LOD assets and the model, in that order |
| ModelAssets.ImportResultSplit | sources/engine/Stride.Assets.Models/ModelAssetImporter.cs:94-126 | an import is the earlier steps' items followed, when the model is selected, by the model step's items |
| ModelAssets.ImportWithoutLods | sources/engine/Stride.Assets.Models/ModelAssetImporter.cs:77-126 | no LOD asset is produced without the model, without LOD generation (a missing key counts as off), without a level count (a missing key counts as 0) with a level count below 1, or with a level count of `int.MaxValue` |
| ModelAssets.ImportLodsBeforeModel | sources/engine/Stride.Assets.Models/ModelAssetImporter.cs:77-126 | with the model selected, LOD generation on and a positive level count v, the import ends with the LOD assets of levels 1..N followed by the model, where N = v below `int.MaxValue` and 0 at it |

## Left out

- The mesh decimation algorithm (FastQuadricMesh), GPU buffer creation and GPU read-back are opaque function parameters. The decimator is a pure function of its input: the model assumes it does not change the input's position, UV and normal arrays, which the vertex loop reads after it (ModelLodDescriptor.cs:122, 131-139). Services and the content manager are left out. The logging calls are left out.
- Floating point is not modelled:
  - The quality and its product with the triangle count are `real`.
  - The `(int)` cast after `MathF.Ceiling` is taken as exact; single-precision rounding of the product is not modelled.
  - Positions cross float → double → float. That round trip is exact, so positions are copied unchanged.
- ModelLod.ModelLodDescriptor.GenerateModel:
  - Meshes and draws are values. A freshly built mesh is never shared before it is published, so nothing about aliasing is lost.
  - A source mesh with a null `Draw` is not modelled.
  - Array index errors in the vertex loop become the `VertexIndexOutOfRange` error.
  - The vertex layout object in the vertex buffer binding is not modelled.
  - Of a mesh's fields the model keeps the draw, the bounding box and the material and node indices. `BoundingSphere`, `Skinning` and `Parameters` are left out; GenerateModel never sets them, so they keep the defaults of `new Mesh()`. Mesh.cs is not part of this model.
- ModelLod.IndexBufferWidth: the 16-bit buffer is chosen by the *number* of indices, not by their largest value, as the code does. A 16-bit buffer for a large mesh with few indices therefore truncates values; IndexBufferRoundTrip states exactly when it does not.
- ModelAssets.ImportMaterials: the material is added unchanged. Two things are left out, since both depend on the reference-analysis library, which is not part of this model:
  - re-pointing the material's texture references to the imported texture items;
  - AdjustForTransparency, whose body is entirely commented out.
- ModelAssets.SkeletonItemFacts: the effect of `SkeletonAsset.PreserveNodes` on node flags is not modelled; the model records the node list handed to it.
- `UFile` path normalisation and comparison are left out. Locations are plain strings and the file-name function is a parameter.
- Asset ids are random GUIDs in the source. Here they come from a counter, and only their equality is used.
- ModelAssets.ImportLods: the LOD assets take copies of the model's material slots; in the source they share the same `ModelMaterial` objects.
- The model item holds the model asset's final state. The source adds the item after the last change to the asset, so the two agree.
- Scene reading (`GetEntityInfo`), `GetAnimationDuration`, the prefab output type and the importer's metadata are left out. The scene and the time range are parameters.
