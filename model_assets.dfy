/** Import of a 3D source file into asset items (ModelAssetImporter): the
    items are appended to one shared list, textures first, then skeleton,
    animation, materials, the LOD assets and last the model. */
module ModelAssets {
  import opened Wrappers
  import opened Decimal
  import opened MachineInts

  /** Asset ids are compared for equality only. */
  type AssetId = nat

  /** A deferred reference to an asset, by id and location
      (AttachedReferenceManager.CreateProxyObject). */
  datatype Proxy = Proxy(id: AssetId, location: string)

  /** The output types an import can be asked for. */
  datatype AssetType =
    | ModelAssetType | AnimationAssetType | SkeletonAssetType | MaterialAssetType | TextureAssetType

  /** The input parameters: the two optional LOD keys (the level count a C#
      `int`) and the selected output types. */
  datatype ImportParameters = ImportParameters(
    lodLevels: Option<int32>,
    generateLods: Option<bool>,
    selectedOutputTypes: set<AssetType>)

  /** A node of the imported scene. */
  datatype NodeInfo = NodeInfo(name: string, depth: int, preserve: bool)

  /** A mesh of the imported scene; only its presence matters here. */
  datatype MeshParameters = MeshParameters(meshName: string)

  /** A material read from the source file; its contents are opaque. */
  datatype MaterialAsset = MaterialAsset(id: AssetId)

  /** What the file reader found; a `None` field is a null reference.
      `materials` is the material dictionary in its iteration order. */
  datatype EntityInfo = EntityInfo(
    textureDependencies: Option<seq<string>>,
    nodes: Option<seq<NodeInfo>>,
    animationNodes: Option<seq<string>>,
    materials: Option<seq<(string, MaterialAsset)>>,
    models: Option<seq<MeshParameters>>)

  datatype NodeInformation = NodeInformation(name: string, depth: int, preserve: bool)

  datatype TextureAsset = TextureAsset(source: string, premultiplyAlpha: bool)

  /** `preserveRequest` records the node list handed to PreserveNodes. */
  datatype SkeletonAsset = SkeletonAsset(
    source: string,
    nodes: seq<NodeInformation>,
    preserveRequest: Option<seq<string>>)

  datatype AnimationAsset = AnimationAsset(
    source: string,
    animationTimeMinimum: int,
    animationTimeMaximum: int,
    skeleton: Option<Proxy>)

  /** A material slot of a model: its name and, when one was found among the
      imported material items, a reference to it. */
  datatype ModelMaterial = ModelMaterial(name: string, material: Option<Proxy>)

  datatype ModelAssetState = ModelAssetState(
    source: string,
    materials: seq<ModelMaterial>,
    skeleton: Option<Proxy>,
    lods: seq<Proxy>)

  datatype ModelLodAsset = ModelLodAsset(
    srcModel: Proxy,
    level: int,
    quality: real,
    materials: seq<ModelMaterial>)

  datatype Asset =
    | Texture(texture: TextureAsset)
    | Skeleton(skeletonAsset: SkeletonAsset)
    | Animation(animation: AnimationAsset)
    | Material(material: MaterialAsset)
    | Model(model: ModelAssetState)
    | ModelLod(lod: ModelLodAsset)

  datatype AssetItem = AssetItem(location: string, id: AssetId, asset: Asset)

  /** `Import` throws a NullReferenceException when the scene has models but
      no material dictionary. */
  datatype ImportError = MaterialsMissing

  /** The quality a new LOD asset starts with (ModelLodAsset). */
  const DefaultLodQuality: real := 0.5

  /** The single material of a model for which no material was imported. */
  const DefaultModelMaterial: ModelMaterial := ModelMaterial("Material", None)

  function ProxyOf(item: AssetItem): Proxy {
    Proxy(item.id, item.location)
  }

  function SkeletonProxy(skeletonAsset: Option<AssetItem>): Option<Proxy> {
    if skeletonAsset.Some? then Some(ProxyOf(skeletonAsset.value)) else None
  }

  // ---------------------------------------------------------------------
  // Mutable state shared by the import steps
  // ---------------------------------------------------------------------

  /** The list of asset items every step appends to. */
  class AssetItemList {
    var items: seq<AssetItem>

    constructor ()
      ensures items == []
    {
      items := [];
    }

    method Add(item: AssetItem)
      modifies this
      ensures items == old(items) + [item]
    {
      items := items + [item];
    }
  }

  /** Fresh asset ids: each new asset takes the next one. */
  class AssetIdSource {
    var next: AssetId

    constructor (first: AssetId)
      ensures next == first
    {
      next := first;
    }

    method New() returns (id: AssetId)
      modifies this
      ensures id == old(next) && next == old(next) + 1
    {
      id := next;
      next := next + 1;
    }
  }

  /** The model asset: filled by ImportModel, its LOD list extended by ImportLods. */
  class ModelAsset {
    const id: AssetId
    var source: string
    var materials: seq<ModelMaterial>
    var skeleton: Option<Proxy>
    var lods: seq<Proxy>

    constructor (id: AssetId, source: string)
      ensures this.id == id && this.source == source
      ensures materials == [] && skeleton == None && lods == []
    {
      this.id := id;
      this.source := source;
      materials := [];
      skeleton := None;
      lods := [];
    }

    function State(): ModelAssetState
      reads this
    {
      ModelAssetState(source, materials, skeleton, lods)
    }
  }

  // ---------------------------------------------------------------------
  // Sequence helpers: distinct elements, filtering, first match
  // ---------------------------------------------------------------------

  predicate NoDuplicates<T(==)>(s: seq<T>) {
    forall i, j :: 0 <= i < j < |s| ==> s[i] != s[j]
  }

  /** The elements of `s` without repeats, each where it first occurs. */
  function Distinct<T(==,!new)>(s: seq<T>): (r: seq<T>)
    ensures forall x :: x in r <==> x in s
    ensures NoDuplicates(r)
    decreases |s|
  {
    if s == [] then []
    else
      var d := Distinct(s[..|s| - 1]);
      if s[|s| - 1] in d then d else d + [s[|s| - 1]]
  }

  /** The position of the first occurrence of `x` in `s`. */
  function FirstIndex<T(==)>(s: seq<T>, x: T): (k: nat)
    requires x in s
    ensures k < |s| && s[k] == x
    ensures forall j :: 0 <= j < k ==> s[j] != x
  {
    if s[0] == x then 0 else 1 + FirstIndex(s[1..], x)
  }

  lemma {:induction false} FirstIndexInPrefix<T>(s: seq<T>, n: nat, x: T)
    requires n <= |s| && x in s[..n]
    ensures x in s && FirstIndex(s, x) == FirstIndex(s[..n], x)
  {
    var k := FirstIndex(s[..n], x);
    assert s[k] == x;
    forall j | 0 <= j < k ensures s[j] != x {
      assert s[..n][j] == s[j];
    }
    FirstIndexUnique(s, x, k);
  }

  lemma FirstIndexUnique<T>(s: seq<T>, x: T, k: nat)
    requires k < |s| && s[k] == x && forall j :: 0 <= j < k ==> s[j] != x
    ensures FirstIndex(s, x) == k
  {
    var f := FirstIndex(s, x);
    assert !(f < k) && !(k < f);
  }

  /** The elements of `r` occur in `s` and appear in `r` in the order of
      their first occurrence in `s`. */
  predicate InFirstOccurrenceOrder<T(==)>(s: seq<T>, r: seq<T>) {
    && (forall k :: 0 <= k < |r| ==> r[k] in s)
    && forall i, j :: 0 <= i < j < |r| ==> FirstIndex(s, r[i]) < FirstIndex(s, r[j])
  }

  /** Distinct keeps the order of first occurrences. */
  lemma {:induction false} DistinctFirstOccurrenceOrder<T(!new)>(s: seq<T>)
    ensures InFirstOccurrenceOrder(s, Distinct(s))
    decreases |s|
  {
    if s != [] {
      var n := |s| - 1;
      var init := s[..n];
      var d := Distinct(init);
      DistinctFirstOccurrenceOrder(init);
      forall x | x in d ensures FirstIndex(s, x) == FirstIndex(init, x) < n {
        FirstIndexInPrefix(s, n, x);
      }
      var r := Distinct(s);
      if s[n] in d {
        assert r == d;
        forall i, j | 0 <= i < j < |r| ensures FirstIndex(s, r[i]) < FirstIndex(s, r[j]) {
          assert d[i] in d && d[j] in d;
          assert FirstIndex(init, d[i]) < FirstIndex(init, d[j]);
          assert FirstIndex(s, d[i]) == FirstIndex(init, d[i]);
        }
      } else {
        assert r == d + [s[n]];
        assert s[n] !in init;
        forall j | 0 <= j < n ensures s[j] != s[n] {
          assert s[j] == init[j];
        }
        FirstIndexUnique(s, s[n], n);
        forall i, j | 0 <= i < j < |r| ensures FirstIndex(s, r[i]) < FirstIndex(s, r[j]) {
          assert r[i] == d[i] && d[i] in d;
          if j < |d| {
            assert r[j] == d[j] && d[j] in d;
          } else {
            assert r[j] == s[n];
          }
        }
      }
    }
  }

  /** The material items of `items`, in order (`Where(x => x.Asset is MaterialAsset)`). */
  function MaterialItemsIn(items: seq<AssetItem>): (r: seq<AssetItem>)
    ensures forall x :: x in r <==> x in items && x.asset.Material?
    ensures items == [] ==> r == []
    ensures |items| == 1 ==> r == (if items[0].asset.Material? then items else [])
    decreases |items|
  {
    if items == [] then []
    else (if items[0].asset.Material? then [items[0]] else []) + MaterialItemsIn(items[1..])
  }

  /** Filtering keeps order: the material items of `a + b` are those of `a`
      followed by those of `b`. */
  lemma {:induction false} MaterialItemsInConcat(a: seq<AssetItem>, b: seq<AssetItem>)
    ensures MaterialItemsIn(a + b) == MaterialItemsIn(a) + MaterialItemsIn(b)
    decreases |a|
  {
    if a == [] {
      assert a + b == b;
    } else {
      assert (a + b)[0] == a[0];
      assert (a + b)[1..] == a[1..] + b;
      MaterialItemsInConcat(a[1..], b);
    }
  }

  /** The first item at `location` (`FirstOrDefault(x => x.Location == location)`). */
  function FirstAt(items: seq<AssetItem>, location: string): (r: Option<AssetItem>)
    ensures r.None? <==> forall k :: 0 <= k < |items| ==> items[k].location != location
    ensures r.Some? ==>
      exists k :: 0 <= k < |items| && items[k] == r.value && r.value.location == location &&
        forall j :: 0 <= j < k ==> items[j].location != location
    decreases |items|
  {
    if items == [] then None
    else if items[0].location == location then Some(items[0])
    else
      var rest := FirstAt(items[1..], location);
      assert forall k :: 0 <= k < |items| - 1 ==> items[1..][k] == items[k + 1];
      rest
  }

  // ---------------------------------------------------------------------
  // 1. Textures
  // ---------------------------------------------------------------------

  function TextureItem(path: string, nameOf: string -> string, id: AssetId): AssetItem {
    AssetItem(nameOf(path), id, Texture(TextureAsset(path, false)))
  }

  function TextureItemsFrom(paths: seq<string>, nameOf: string -> string, firstId: AssetId): seq<AssetItem> {
    seq(|paths|, k requires 0 <= k < |paths| => TextureItem(paths[k], nameOf, firstId + k))
  }

  /** One texture item per distinct dependency, nothing for a null list. */
  function TextureItems(textureDependencies: Option<seq<string>>, nameOf: string -> string, firstId: AssetId): seq<AssetItem> {
    if textureDependencies.None? then []
    else TextureItemsFrom(Distinct(textureDependencies.value), nameOf, firstId)
  }

  /** Texture items: none for a null list; otherwise exactly one per distinct
      path (every path has one, no path has two), in the order of first
      occurrence, each a non-premultiplied colour texture named by the file
      name of its path, with consecutive fresh ids. */
  lemma TextureItemsFacts(textureDependencies: Option<seq<string>>, nameOf: string -> string, firstId: AssetId)
    ensures textureDependencies.None? ==> TextureItems(textureDependencies, nameOf, firstId) == []
    ensures textureDependencies.Some? ==>
      var deps := textureDependencies.value;
      var items := TextureItems(textureDependencies, nameOf, firstId);
      && (forall k :: 0 <= k < |items| ==>
            && items[k].asset.Texture?
            && items[k].asset.texture.source in deps
            && items[k].asset.texture.premultiplyAlpha == false
            && items[k].location == nameOf(items[k].asset.texture.source)
            && items[k].id == firstId + k)
      && (forall p :: p in deps ==> exists k :: 0 <= k < |items| && items[k].asset.texture.source == p)
      && (forall i, j :: 0 <= i < j < |items| ==>
            items[i].asset.texture.source != items[j].asset.texture.source &&
            FirstIndex(deps, items[i].asset.texture.source) < FirstIndex(deps, items[j].asset.texture.source))
  {
    if textureDependencies.Some? {
      var deps := textureDependencies.value;
      var paths := Distinct(deps);
      var items := TextureItemsFrom(paths, nameOf, firstId);
      TextureItemsFromFacts(paths, nameOf, firstId);
      DistinctFirstOccurrenceOrder(deps);
      forall p | p in deps ensures exists k :: 0 <= k < |items| && items[k].asset.texture.source == p {
        var k :| 0 <= k < |paths| && paths[k] == p;
        assert items[k].asset.texture.source == p;
      }
      forall i, j | 0 <= i < j < |items|
        ensures items[i].asset.texture.source != items[j].asset.texture.source
        ensures FirstIndex(deps, items[i].asset.texture.source) < FirstIndex(deps, items[j].asset.texture.source)
      {
        assert items[i].asset.texture.source == paths[i] && items[j].asset.texture.source == paths[j];
        assert FirstIndex(deps, paths[i]) < FirstIndex(deps, paths[j]);
      }
    }
  }

  lemma TextureItemsFromFacts(paths: seq<string>, nameOf: string -> string, firstId: AssetId)
    ensures var items := TextureItemsFrom(paths, nameOf, firstId);
      && |items| == |paths|
      && forall k :: 0 <= k < |items| ==>
           items[k] == AssetItem(nameOf(paths[k]), firstId + k, Texture(TextureAsset(paths[k], false)))
  {
  }

  /** ImportTextures: nothing for a null list, otherwise one texture item per
      distinct path. */
  method ImportTextures(textureDependencies: Option<seq<string>>, assetReferences: AssetItemList,
                        ids: AssetIdSource, nameOf: string -> string)
    modifies assetReferences, ids
    ensures assetReferences.items ==
      old(assetReferences.items) + TextureItems(textureDependencies, nameOf, old(ids.next))
    ensures ids.next == old(ids.next) + |TextureItems(textureDependencies, nameOf, old(ids.next))|
  {
    if textureDependencies.None? {
      return;
    }
    var paths := Distinct(textureDependencies.value);
    ghost var first := ids.next;
    for k := 0 to |paths|
      invariant ids.next == first + k
      invariant assetReferences.items == old(assetReferences.items) + TextureItemsFrom(paths[..k], nameOf, first)
    {
      var texturePath := paths[k];
      var id := ids.New();
      assetReferences.Add(AssetItem(nameOf(texturePath), id, Texture(TextureAsset(texturePath, false))));
      assert TextureItemsFrom(paths[..k + 1], nameOf, first) ==
             TextureItemsFrom(paths[..k], nameOf, first) + [TextureItem(texturePath, nameOf, first + k)];
    }
    assert paths[..|paths|] == paths;
  }

  // ---------------------------------------------------------------------
  // 2. Skeleton
  // ---------------------------------------------------------------------

  function NodesOf(infos: seq<NodeInfo>): seq<NodeInformation> {
    seq(|infos|, k requires 0 <= k < |infos| => NodeInformation(infos[k].name, infos[k].depth, infos[k].preserve))
  }

  function PreserveRequest(animationNodes: Option<seq<string>>): Option<seq<string>> {
    if animationNodes.Some? && |animationNodes.value| > 0 then animationNodes else None
  }

  function SkeletonItem(entityInfo: EntityInfo, assetSource: string, fileName: string, id: AssetId): AssetItem {
    var nodes := if entityInfo.nodes.Some? then NodesOf(entityInfo.nodes.value) else [];
    AssetItem(fileName + " Skeleton", id,
              Skeleton(SkeletonAsset(assetSource, nodes, PreserveRequest(entityInfo.animationNodes))))
  }

  /** The skeleton item: location `name + " Skeleton"`, one node entry per
      scene node in order with name, depth and preserve flag copied (none for
      a null node list), and PreserveNodes asked only for a non-empty
      animation-node list. */
  lemma SkeletonItemFacts(entityInfo: EntityInfo, assetSource: string, fileName: string, id: AssetId)
    ensures var item := SkeletonItem(entityInfo, assetSource, fileName, id);
      var nodes := item.asset.skeletonAsset.nodes;
      && item.location == fileName + " Skeleton"
      && item.asset.Skeleton?
      && item.asset.skeletonAsset.source == assetSource
      && (entityInfo.nodes.None? ==> nodes == [])
      && (entityInfo.nodes.Some? ==>
            |nodes| == |entityInfo.nodes.value| &&
            forall k :: 0 <= k < |nodes| ==>
              nodes[k].name == entityInfo.nodes.value[k].name &&
              nodes[k].depth == entityInfo.nodes.value[k].depth &&
              nodes[k].preserve == entityInfo.nodes.value[k].preserve)
      && (item.asset.skeletonAsset.preserveRequest.Some? <==>
            entityInfo.animationNodes.Some? && |entityInfo.animationNodes.value| > 0)
  {
  }

  /** ImportSkeleton: one skeleton item, appended and returned. */
  method ImportSkeleton(assetReferences: AssetItemList, ids: AssetIdSource, assetSource: string,
                        fileName: string, entityInfo: EntityInfo) returns (item: AssetItem)
    modifies assetReferences, ids
    ensures item == SkeletonItem(entityInfo, assetSource, fileName, old(ids.next))
    ensures assetReferences.items == old(assetReferences.items) + [item]
    ensures ids.next == old(ids.next) + 1
  {
    var id := ids.New();
    var nodes: seq<NodeInformation> := [];
    if entityInfo.nodes.Some? {
      var infos := entityInfo.nodes.value;
      for k := 0 to |infos|
        invariant nodes == NodesOf(infos[..k])
      {
        var node := infos[k];
        nodes := nodes + [NodeInformation(node.name, node.depth, node.preserve)];
      }
      assert infos[..|infos|] == infos;
    }
    var preserve := None;
    if entityInfo.animationNodes.Some? && |entityInfo.animationNodes.value| > 0 {
      preserve := entityInfo.animationNodes;
    }
    item := AssetItem(fileName + " Skeleton", id, Skeleton(SkeletonAsset(assetSource, nodes, preserve)));
    assetReferences.Add(item);
  }

  // ---------------------------------------------------------------------
  // 3. Animation
  // ---------------------------------------------------------------------

  /** No animation item for a null or empty animation-node list; otherwise
      one, at `fileName` (suffixed " Animation" when a model is imported too),
      with the source file, the time range and a reference to the skeleton
      item exactly when there is one. */
  function AnimationItems(localPath: string, fileName: string, animationNodes: Option<seq<string>>,
                          shouldPostFixName: bool, skeletonAsset: Option<AssetItem>,
                          startTime: int, endTime: int, id: AssetId): (r: seq<AssetItem>)
    ensures |r| == (if animationNodes.Some? && |animationNodes.value| > 0 then 1 else 0)
    ensures forall k :: 0 <= k < |r| ==>
      && r[k].id == id
      && r[k].location == fileName + (if shouldPostFixName then " Animation" else "")
      && r[k].asset.Animation?
      && r[k].asset.animation.source == localPath
      && r[k].asset.animation.animationTimeMinimum == startTime
      && r[k].asset.animation.animationTimeMaximum == endTime
      && (r[k].asset.animation.skeleton.Some? <==> skeletonAsset.Some?)
      && (skeletonAsset.Some? ==> r[k].asset.animation.skeleton == Some(ProxyOf(skeletonAsset.value)))
  {
    if animationNodes.Some? && |animationNodes.value| > 0 then
      [AssetItem(fileName + (if shouldPostFixName then " Animation" else ""), id,
                 Animation(AnimationAsset(localPath, startTime, endTime, SkeletonProxy(skeletonAsset))))]
    else []
  }

  /** ImportAnimation: one animation item for a non-empty animation-node list, nothing otherwise. */
  method ImportAnimation(assetReferences: AssetItemList, ids: AssetIdSource, localPath: string, fileName: string,
                         animationNodes: Option<seq<string>>, shouldPostFixName: bool,
                         skeletonAsset: Option<AssetItem>, startTime: int, endTime: int)
    modifies assetReferences, ids
    ensures assetReferences.items == old(assetReferences.items) +
      AnimationItems(localPath, fileName, animationNodes, shouldPostFixName, skeletonAsset, startTime, endTime, old(ids.next))
    ensures ids.next == old(ids.next) +
      |AnimationItems(localPath, fileName, animationNodes, shouldPostFixName, skeletonAsset, startTime, endTime, old(ids.next))|
  {
    if animationNodes.Some? && |animationNodes.value| > 0 {
      var id := ids.New();
      var animUrl := fileName + (if shouldPostFixName then " Animation" else "");
      var skeleton := None;
      if skeletonAsset.Some? {
        skeleton := Some(ProxyOf(skeletonAsset.value));
      }
      assetReferences.Add(AssetItem(animUrl, id, Animation(AnimationAsset(localPath, startTime, endTime, skeleton))));
    }
  }

  // ---------------------------------------------------------------------
  // 4. Materials
  // ---------------------------------------------------------------------

  function MaterialItemsFrom(entries: seq<(string, MaterialAsset)>): seq<AssetItem> {
    seq(|entries|, k requires 0 <= k < |entries| => AssetItem(entries[k].0, entries[k].1.id, Material(entries[k].1)))
  }

  function MaterialItems(materials: Option<seq<(string, MaterialAsset)>>): seq<AssetItem> {
    if materials.None? then [] else MaterialItemsFrom(materials.value)
  }

  /** ImportMaterials: one material item per dictionary entry, at the entry's key. */
  method ImportMaterials(assetReferences: AssetItemList, materials: Option<seq<(string, MaterialAsset)>>)
    modifies assetReferences
    ensures assetReferences.items == old(assetReferences.items) + MaterialItems(materials)
  {
    if materials.Some? {
      var entries := materials.value;
      for k := 0 to |entries|
        invariant assetReferences.items == old(assetReferences.items) + MaterialItemsFrom(entries[..k])
      {
        var material := entries[k].1;
        assetReferences.Add(AssetItem(entries[k].0, material.id, Material(material)));
        assert MaterialItemsFrom(entries[..k + 1]) ==
               MaterialItemsFrom(entries[..k]) + [AssetItem(entries[k].0, material.id, Material(material))];
      }
      assert entries[..|entries|] == entries;
    }
  }

  // ---------------------------------------------------------------------
  // 5. Model and its LODs
  // ---------------------------------------------------------------------

  /** The slot for material `key`, referring to the first loaded material item at that location. */
  function ModelMaterialFor(key: string, loadedMaterials: seq<AssetItem>): ModelMaterial {
    var found := FirstAt(loadedMaterials, key);
    ModelMaterial(key, if found.Some? then Some(ProxyOf(found.value)) else None)
  }

  function EntryMaterials(entries: seq<(string, MaterialAsset)>, loadedMaterials: seq<AssetItem>): seq<ModelMaterial> {
    seq(|entries|, k requires 0 <= k < |entries| => ModelMaterialFor(entries[k].0, loadedMaterials))
  }

  /** The model's material list: one slot per entry, or the single default. */
  function ModelMaterials(entries: seq<(string, MaterialAsset)>, loadedMaterials: seq<AssetItem>): seq<ModelMaterial> {
    EntryMaterials(entries, loadedMaterials) + (if |entries| == 0 then [DefaultModelMaterial] else [])
  }

  /** One slot per material entry, named by its key, in order, or exactly one
      default slot named "Material" when there are none; a slot refers to an
      already imported material item exactly when one sits at the key's
      location, and then to such an item. */
  lemma ModelMaterialsFacts(entries: seq<(string, MaterialAsset)>, assetReferences: seq<AssetItem>)
    ensures var r := ModelMaterials(entries, MaterialItemsIn(assetReferences));
      && |r| == (if |entries| == 0 then 1 else |entries|)
      && (|entries| == 0 ==> r == [ModelMaterial("Material", None)])
      && forall k :: 0 <= k < |entries| ==>
           && r[k].name == entries[k].0
           && (r[k].material.Some? <==>
                 exists x :: x in assetReferences && x.asset.Material? && x.location == entries[k].0)
           && (r[k].material.Some? ==>
                 exists x :: x in assetReferences && x.asset.Material? && x.location == entries[k].0 &&
                   r[k].material.value == ProxyOf(x))
  {
    var loaded := MaterialItemsIn(assetReferences);
    var r := ModelMaterials(entries, loaded);
    forall k | 0 <= k < |entries|
      ensures r[k].material.Some? <==>
                exists x :: x in assetReferences && x.asset.Material? && x.location == entries[k].0
      ensures r[k].material.Some? ==>
                exists x :: x in assetReferences && x.asset.Material? && x.location == entries[k].0 &&
                  r[k].material.value == ProxyOf(x)
    {
      var key := entries[k].0;
      assert r[k] == ModelMaterialFor(key, loaded);
      var found := FirstAt(loaded, key);
      if found.Some? {
        var j :| 0 <= j < |loaded| && loaded[j] == found.value && found.value.location == key;
        assert loaded[j] in loaded;
      } else {
        forall x | x in assetReferences && x.asset.Material? ensures x.location != key {
          assert x in loaded;
          var j :| 0 <= j < |loaded| && loaded[j] == x;
        }
      }
    }
  }

  /** The number of LOD assets ImportLods makes for `levels`. Its loop runs
      while `i < levels + 1` in unchecked 32-bit arithmetic: levels below one
      give none, and so does `int.MaxValue`, whose bound wraps to `int.MinValue`. */
  function LevelCount(levels: int32): (n: nat)
    ensures levels <= 0 ==> n == 0
    ensures 0 < levels as int < Int32Max ==> n == levels as int
    ensures levels as int == Int32Max ==> n == 0
  {
    WrapInt32Overflow();
    var bound := WrapInt32(levels as int + 1) as int;
    if bound > 1 then bound - 1 else 0
  }

  /** The location of LOD level `level` of the model at `modelUrl`. */
  function LodUrl(modelUrl: string, level: nat): string {
    modelUrl + "_LOD" + NatToString(level)
  }

  function LodItem(level: nat, modelUrl: string, srcModel: Proxy, materials: seq<ModelMaterial>, id: AssetId): AssetItem {
    AssetItem(LodUrl(modelUrl, level), id, ModelLod(ModelLodAsset(srcModel, level, DefaultLodQuality, materials)))
  }

  /** The LOD items of levels 1 through `count`. */
  function LodItems(count: nat, modelUrl: string, srcModel: Proxy, materials: seq<ModelMaterial>, firstId: AssetId): seq<AssetItem> {
    seq(count, k requires 0 <= k < count => LodItem(k + 1, modelUrl, srcModel, materials, firstId + k))
  }

  function ProxiesOf(items: seq<AssetItem>): seq<Proxy> {
    seq(|items|, k requires 0 <= k < |items| => ProxyOf(items[k]))
  }

  /** The location of the model item. */
  function ModelUrl(fileName: string, shouldPostFixName: bool): string {
    fileName + (if shouldPostFixName then " Model" else "")
  }

  /** The model's material slots: built only when the scene has models. */
  function SlotMaterials(assetReferences: seq<AssetItem>, entityInfo: EntityInfo): seq<ModelMaterial>
    requires entityInfo.models.Some? ==> entityInfo.materials.Some?
  {
    if entityInfo.models.Some?
    then ModelMaterials(entityInfo.materials.value, MaterialItemsIn(assetReferences)) else []
  }

  function ModelItem(modelUrl: string, id: AssetId, assetSource: string, materials: seq<ModelMaterial>,
                     skeletonAsset: Option<AssetItem>, lods: seq<AssetItem>): AssetItem {
    AssetItem(modelUrl, id, Model(ModelAssetState(assetSource, materials, SkeletonProxy(skeletonAsset), ProxiesOf(lods))))
  }

  /** The LOD items followed by the model item, or the null-materials error. */
  function ModelItems(assetReferences: seq<AssetItem>, entityInfo: EntityInfo, assetSource: string, fileName: string,
                      shouldPostFixName: bool, skeletonAsset: Option<AssetItem>, lodLevels: int32,
                      firstId: AssetId): Result<seq<AssetItem>, ImportError> {
    if entityInfo.models.Some? && entityInfo.materials.None? then Err(MaterialsMissing)
    else
      var materials := SlotMaterials(assetReferences, entityInfo);
      var modelUrl := ModelUrl(fileName, shouldPostFixName);
      var lods := LodItems(LevelCount(lodLevels), modelUrl, Proxy(firstId, modelUrl), materials, firstId + 1);
      Ok(lods + [ModelItem(modelUrl, firstId, assetSource, materials, skeletonAsset, lods)])
  }

  /** LOD URLs of one model differ from level to level. */
  lemma LodUrlInjective(modelUrl: string, a: nat, b: nat)
    requires LodUrl(modelUrl, a) == LodUrl(modelUrl, b)
    ensures a == b
  {
    var n := |modelUrl + "_LOD"|;
    assert NatToString(a) == LodUrl(modelUrl, a)[n..];
    assert NatToString(b) == LodUrl(modelUrl, b)[n..];
    NatToStringInjective(a, b);
  }

  /** With N = LevelCount(lodLevels) (`lodLevels` when it is positive and
      below `int.MaxValue`, otherwise 0): exactly N LOD items precede the model item;
      item k is level k + 1 at `modelUrl + "_LOD" + (k + 1)`, refers to the
      model item as its source, has quality 0.5 and the model's material list;
      their locations are pairwise distinct; the model asset's LOD list
      refers to them in level order; the model item is last. */
  lemma ModelItemsFacts(assetReferences: seq<AssetItem>, entityInfo: EntityInfo, assetSource: string, fileName: string,
                        shouldPostFixName: bool, skeletonAsset: Option<AssetItem>, lodLevels: int32, firstId: AssetId)
    requires ModelItems(assetReferences, entityInfo, assetSource, fileName, shouldPostFixName, skeletonAsset, lodLevels, firstId).Ok?
    ensures var items := ModelItems(assetReferences, entityInfo, assetSource, fileName, shouldPostFixName,
                                    skeletonAsset, lodLevels, firstId).value;
      var n := LevelCount(lodLevels);
      var model := items[|items| - 1];
      && |items| == n + 1
      && model.asset.Model?
      && model.location == fileName + (if shouldPostFixName then " Model" else "")
      && model.asset.model.source == assetSource
      && model.asset.model.skeleton == SkeletonProxy(skeletonAsset)
      && (forall k :: 0 <= k < n ==>
            && items[k].asset.ModelLod?
            && items[k].asset.lod.level == k + 1
            && items[k].asset.lod.srcModel == ProxyOf(model)
            && items[k].asset.lod.quality == 0.5
            && items[k].asset.lod.materials == model.asset.model.materials
            && items[k].location == model.location + "_LOD" + NatToString(k + 1))
      && (forall i, j :: 0 <= i < j < n ==> items[i].location != items[j].location)
      && |model.asset.model.lods| == n
      && (forall k :: 0 <= k < n ==> model.asset.model.lods[k] == ProxyOf(items[k]))
  {
    var items := ModelItems(assetReferences, entityInfo, assetSource, fileName, shouldPostFixName,
                            skeletonAsset, lodLevels, firstId).value;
    var n := LevelCount(lodLevels);
    var materials := SlotMaterials(assetReferences, entityInfo);
    var modelUrl := ModelUrl(fileName, shouldPostFixName);
    var lods := LodItems(n, modelUrl, Proxy(firstId, modelUrl), materials, firstId + 1);
    var model := ModelItem(modelUrl, firstId, assetSource, materials, skeletonAsset, lods);
    assert items == lods + [model];
    assert items[|items| - 1] == model;
    forall k | 0 <= k < n
      ensures items[k] == lods[k] == LodItem(k + 1, modelUrl, Proxy(firstId, modelUrl), materials, firstId + 1 + k)
    {
    }
    forall i, j | 0 <= i < j < n ensures items[i].location != items[j].location {
      if items[i].location == items[j].location {
        assert items[i].location == LodUrl(modelUrl, i + 1);
        assert items[j].location == LodUrl(modelUrl, j + 1);
        LodUrlInjective(modelUrl, i + 1, j + 1);
      }
    }
  }

  /** ImportLods: LOD assets for levels 1 .. LevelCount(levels), each appended
      to the list and registered in the model asset's LOD list. */
  method ImportLods(levels: int32, assetReferences: AssetItemList, ids: AssetIdSource, modelUrl: string,
                    asset: ModelAsset, assetItemId: AssetId)
    modifies assetReferences, ids, asset
    ensures var lods := LodItems(LevelCount(levels), modelUrl, Proxy(assetItemId, modelUrl), old(asset.materials), old(ids.next));
      && assetReferences.items == old(assetReferences.items) + lods
      && asset.lods == old(asset.lods) + ProxiesOf(lods)
      && ids.next == old(ids.next) + LevelCount(levels)
    ensures asset.materials == old(asset.materials) && asset.source == old(asset.source)
    ensures asset.skeleton == old(asset.skeleton)
  {
    var lodModelSrc := Proxy(assetItemId, modelUrl);
    ghost var first := ids.next;
    ghost var n := LevelCount(levels);
    var bound := WrapInt32(levels as int + 1);
    var i := 1;
    while i < bound as int
      invariant 1 <= i <= n + 1
      invariant ids.next == first + (i - 1)
      invariant asset.materials == old(asset.materials) && asset.source == old(asset.source)
      invariant asset.skeleton == old(asset.skeleton)
      invariant assetReferences.items ==
        old(assetReferences.items) + LodItems(i - 1, modelUrl, lodModelSrc, asset.materials, first)
      invariant asset.lods ==
        old(asset.lods) + ProxiesOf(LodItems(i - 1, modelUrl, lodModelSrc, asset.materials, first))
      decreases bound as int - i
    {
      var lodId := ids.New();
      var lodMaterials: seq<ModelMaterial> := [];
      for k := 0 to |asset.materials|
        invariant lodMaterials == asset.materials[..k]
      {
        lodMaterials := lodMaterials + [asset.materials[k]];
      }
      assert asset.materials[..|asset.materials|] == asset.materials;
      var newUrl := modelUrl + "_LOD" + NatToString(i);
      var lodAssetItem := AssetItem(newUrl, lodId, ModelLod(ModelLodAsset(lodModelSrc, i, DefaultLodQuality, lodMaterials)));
      assetReferences.Add(lodAssetItem);
      asset.lods := asset.lods + [ProxyOf(lodAssetItem)];
      ghost var before := LodItems(i - 1, modelUrl, lodModelSrc, asset.materials, first);
      ghost var after := LodItems(i, modelUrl, lodModelSrc, asset.materials, first);
      assert lodAssetItem == LodItem(i, modelUrl, lodModelSrc, asset.materials, first + (i - 1));
      assert after == before + [lodAssetItem];
      assert ProxiesOf(after) == ProxiesOf(before) + [ProxyOf(lodAssetItem)];
      i := i + 1;
    }
  }

  /** ImportModel: builds the model asset (material slots when the scene has
      models, skeleton reference), its LODs when `lodLevels` is positive, and
      appends the model item last. */
  method ImportModel(assetReferences: AssetItemList, ids: AssetIdSource, assetSource: string, fileName: string,
                     entityInfo: EntityInfo, shouldPostFixName: bool, skeletonAsset: Option<AssetItem>,
                     lodLevels: int32) returns (r: Outcome<ImportError>)
    modifies assetReferences, ids
    ensures var m := ModelItems(old(assetReferences.items), entityInfo, assetSource, fileName,
                                shouldPostFixName, skeletonAsset, lodLevels, old(ids.next));
      && (m.Err? ==> r == Fail(m.error) && assetReferences.items == old(assetReferences.items))
      && (m.Ok? ==> r == Pass && assetReferences.items == old(assetReferences.items) + m.value &&
                    ids.next == old(ids.next) + 1 + LevelCount(lodLevels))
  {
    ghost var before := assetReferences.items;
    var assetId := ids.New();
    var asset := new ModelAsset(assetId, assetSource);
    if entityInfo.models.Some? {
      var loadedMaterials := MaterialItemsIn(assetReferences.items);
      if entityInfo.materials.None? {
        return Fail(MaterialsMissing);
      }
      AddMaterialSlots(asset, entityInfo.materials.value, loadedMaterials);
    }
    ghost var materials := SlotMaterials(before, entityInfo);
    assert asset.materials == materials;
    if skeletonAsset.Some? {
      asset.skeleton := Some(ProxyOf(skeletonAsset.value));
    }
    var modelUrl := fileName + (if shouldPostFixName then " Model" else "");
    ghost var lods := LodItems(LevelCount(lodLevels), modelUrl, Proxy(assetId, modelUrl), materials, assetId + 1);
    if lodLevels > 0 {
      ImportLods(lodLevels, assetReferences, ids, modelUrl, asset, assetId);
    } else {
      assert lods == [];
    }
    ghost var model := ModelItem(modelUrl, assetId, assetSource, materials, skeletonAsset, lods);
    assert asset.State() == model.asset.model;
    assert ModelItems(before, entityInfo, assetSource, fileName, shouldPostFixName, skeletonAsset, lodLevels, assetId)
      == Ok(lods + [model]);
    assetReferences.Add(AssetItem(modelUrl, assetId, Model(asset.State())));
    return Pass;
  }

  /** The material-slot loop of ImportModel: one slot per material entry,
      referring to the loaded material at its key, or the single default slot
      when there are no entries; the asset's other fields are left alone. */
  method AddMaterialSlots(asset: ModelAsset, entries: seq<(string, MaterialAsset)>, loadedMaterials: seq<AssetItem>)
    requires asset.materials == []
    modifies asset
    ensures asset.materials == ModelMaterials(entries, loadedMaterials)
    ensures asset.source == old(asset.source) && asset.skeleton == old(asset.skeleton) && asset.lods == old(asset.lods)
  {
    for k := 0 to |entries|
      invariant asset.materials == EntryMaterials(entries[..k], loadedMaterials)
      invariant asset.source == old(asset.source) && asset.skeleton == old(asset.skeleton) && asset.lods == old(asset.lods)
    {
      asset.materials := asset.materials + [ModelMaterialFor(entries[k].0, loadedMaterials)];
      assert EntryMaterials(entries[..k + 1], loadedMaterials) ==
             EntryMaterials(entries[..k], loadedMaterials) + [ModelMaterialFor(entries[k].0, loadedMaterials)];
    }
    assert entries[..|entries|] == entries;
    if |entries| == 0 {
      asset.materials := asset.materials + [DefaultModelMaterial];
    }
  }

  // ---------------------------------------------------------------------
  // Import
  // ---------------------------------------------------------------------

  /** The LOD level count handed to ImportModel: `lodLevels` when LOD
      generation is on, else 0; a missing key reads as 0 or false. */
  function RequestedLodLevels(parameters: ImportParameters): (r: int32)
    ensures parameters.generateLods.None? || parameters.generateLods == Some(false) ==> r == 0
    ensures parameters.lodLevels.None? ==> r == 0
    ensures parameters.generateLods == Some(true) && parameters.lodLevels.Some? ==> r == parameters.lodLevels.value
  {
    var lodLevels := parameters.lodLevels.GetOr(0);
    var generateLods := parameters.generateLods.GetOr(false);
    if generateLods then lodLevels else 0
  }

  /** The items of the steps before the model step, and the id the model takes. */
  datatype ImportSections = ImportSections(
    textures: seq<AssetItem>,
    skeleton: Option<AssetItem>,
    animation: seq<AssetItem>,
    materials: seq<AssetItem>,
    modelId: AssetId)
  {
    function Before(): seq<AssetItem> {
      textures + skeleton.ToSeq() + animation + materials
    }
  }

  function SectionsOf(localPath: string, selected: set<AssetType>, info: EntityInfo, startTime: int, endTime: int,
                      nameOf: string -> string, firstId: AssetId): ImportSections {
    var fileName := nameOf(localPath);
    var textures := if TextureAssetType in selected then TextureItems(info.textureDependencies, nameOf, firstId) else [];
    var id1 := firstId + |textures|;
    var skeleton := if SkeletonAssetType in selected then Some(SkeletonItem(info, localPath, fileName, id1)) else None;
    var id2 := id1 + |skeleton.ToSeq()|;
    var animation := if AnimationAssetType in selected
      then AnimationItems(localPath, fileName, info.animationNodes, ModelAssetType in selected, skeleton, startTime, endTime, id2)
      else [];
    var materials := if MaterialAssetType in selected then MaterialItems(info.materials) else [];
    ImportSections(textures, skeleton, animation, materials, id2 + |animation|)
  }

  /** Everything Import returns. */
  function ImportResult(localPath: string, parameters: ImportParameters, entityInfo: Option<EntityInfo>,
                        startTime: int, endTime: int, nameOf: string -> string,
                        firstId: AssetId): Result<seq<AssetItem>, ImportError> {
    if entityInfo.None? then Ok([])
    else
      var info := entityInfo.value;
      var sections := SectionsOf(localPath, parameters.selectedOutputTypes, info, startTime, endTime, nameOf, firstId);
      var before := sections.Before();
      if ModelAssetType !in parameters.selectedOutputTypes then Ok(before)
      else
        match ModelItems(before, info, localPath, nameOf(localPath), false, sections.skeleton,
                         RequestedLodLevels(parameters), sections.modelId)
        case Err(e) => Err(e)
        case Ok(modelItems) => Ok(before + modelItems)
  }

  /** Steps 1 to 4 of Import: textures, skeleton, animation and materials, as
      selected; returns the skeleton item, if any, for the model step. */
  method ImportBeforeModel(rawAssetReferences: AssetItemList, ids: AssetIdSource, localPath: string,
                        selected: set<AssetType>, info: EntityInfo, startTime: int, endTime: int,
                        nameOf: string -> string) returns (skeletonAsset: Option<AssetItem>)
    requires rawAssetReferences.items == []
    modifies rawAssetReferences, ids
    ensures var sections := SectionsOf(localPath, selected, info, startTime, endTime, nameOf, old(ids.next));
      && rawAssetReferences.items == sections.Before()
      && ids.next == sections.modelId
      && skeletonAsset == sections.skeleton
  {
    ghost var firstId := ids.next;
    var fileName := nameOf(localPath);
    var isImportingModel := ModelAssetType in selected;
    ghost var textures: seq<AssetItem> := [];
    if TextureAssetType in selected {
      ImportTextures(info.textureDependencies, rawAssetReferences, ids, nameOf);
      textures := TextureItems(info.textureDependencies, nameOf, firstId);
    }
    assert rawAssetReferences.items == textures;
    ghost var id1 := ids.next;
    skeletonAsset := None;
    if SkeletonAssetType in selected {
      var item := ImportSkeleton(rawAssetReferences, ids, localPath, fileName, info);
      skeletonAsset := Some(item);
    }
    ghost var id2 := ids.next;
    assert rawAssetReferences.items == textures + skeletonAsset.ToSeq();
    ghost var animation: seq<AssetItem> := [];
    if AnimationAssetType in selected {
      ImportAnimation(rawAssetReferences, ids, localPath, fileName, info.animationNodes, isImportingModel,
                      skeletonAsset, startTime, endTime);
      animation := AnimationItems(localPath, fileName, info.animationNodes, isImportingModel,
                                  skeletonAsset, startTime, endTime, id2);
    }
    assert rawAssetReferences.items == textures + skeletonAsset.ToSeq() + animation;
    ghost var materials: seq<AssetItem> := [];
    if MaterialAssetType in selected {
      ImportMaterials(rawAssetReferences, info.materials);
      materials := MaterialItems(info.materials);
    }
    assert id1 == firstId + |textures|;
    assert id2 == id1 + |skeletonAsset.ToSeq()|;
    assert ImportSections(textures, skeletonAsset, animation, materials, ids.next) ==
           SectionsOf(localPath, selected, info, startTime, endTime, nameOf, firstId);
  }

  /** Import: reads the LOD parameters, then runs the selected steps in the
      order textures, skeleton, animation, materials, model. */
  method Import(localPath: string, parameters: ImportParameters, entityInfo: Option<EntityInfo>,
                startTime: int, endTime: int, nameOf: string -> string,
                firstId: AssetId) returns (r: Result<seq<AssetItem>, ImportError>)
    ensures r == ImportResult(localPath, parameters, entityInfo, startTime, endTime, nameOf, firstId)
    ensures entityInfo.None? ==> r == Ok([])
  {
    var rawAssetReferences := new AssetItemList();
    var lodLevels := parameters.lodLevels.GetOr(0);
    var generateLods := parameters.generateLods.GetOr(false);
    if entityInfo.None? {
      return Ok(rawAssetReferences.items);
    }
    var info := entityInfo.value;
    var ids := new AssetIdSource(firstId);
    var selected := parameters.selectedOutputTypes;
    var skeletonAsset := ImportBeforeModel(rawAssetReferences, ids, localPath, selected, info, startTime, endTime, nameOf);
    if ModelAssetType in selected {
      var outcome := ImportModel(rawAssetReferences, ids, localPath, nameOf(localPath), info, false, skeletonAsset,
                                 if generateLods then lodLevels else 0);
      if outcome.Fail? {
        return Err(outcome.error);
      }
    }
    return Ok(rawAssetReferences.items);
  }

  // ---------------------------------------------------------------------
  // Properties of a whole import
  // ---------------------------------------------------------------------

  /** Position of an item's kind in the import order. */
  function KindOrder(asset: Asset): nat {
    match asset
    case Texture(_) => 0
    case Skeleton(_) => 1
    case Animation(_) => 2
    case Material(_) => 3
    case ModelLod(_) => 4
    case Model(_) => 5
  }

  predicate InImportOrder(items: seq<AssetItem>) {
    forall i, j :: 0 <= i < j < |items| ==> KindOrder(items[i].asset) <= KindOrder(items[j].asset)
  }

  predicate AllOfKind(items: seq<AssetItem>, kind: nat) {
    forall k :: 0 <= k < |items| ==> KindOrder(items[k].asset) == kind
  }

  lemma {:induction false} OrderedConcat(a: seq<AssetItem>, b: seq<AssetItem>, bound: nat)
    requires InImportOrder(a) && InImportOrder(b)
    requires forall k :: 0 <= k < |a| ==> KindOrder(a[k].asset) <= bound
    requires forall k :: 0 <= k < |b| ==> bound <= KindOrder(b[k].asset)
    ensures InImportOrder(a + b)
  {
    var c := a + b;
    forall i, j | 0 <= i < j < |c| ensures KindOrder(c[i].asset) <= KindOrder(c[j].asset) {
      if j < |a| {
        assert c[i] == a[i] && c[j] == a[j];
      } else if i >= |a| {
        assert c[i] == b[i - |a|] && c[j] == b[j - |a|];
      } else {
        assert c[i] == a[i] && c[j] == b[j - |a|];
      }
    }
  }

  /** The steps before the model step give textures, the skeleton, the
      animation and the materials, in that order, and no LOD or model item. */
  lemma SectionsInOrder(localPath: string, selected: set<AssetType>, info: EntityInfo, startTime: int, endTime: int,
                        nameOf: string -> string, firstId: AssetId)
    ensures var before := SectionsOf(localPath, selected, info, startTime, endTime, nameOf, firstId).Before();
      && InImportOrder(before)
      && forall k :: 0 <= k < |before| ==> KindOrder(before[k].asset) <= 3
  {
    var s := SectionsOf(localPath, selected, info, startTime, endTime, nameOf, firstId);
    assert AllOfKind(s.textures, 0);
    assert AllOfKind(s.skeleton.ToSeq(), 1);
    assert AllOfKind(s.animation, 2);
    assert AllOfKind(s.materials, 3);
    OrderedConcat(s.textures, s.skeleton.ToSeq(), 0);
    var a := s.textures + s.skeleton.ToSeq();
    assert forall k :: 0 <= k < |a| ==> KindOrder(a[k].asset) <= 1;
    OrderedConcat(a, s.animation, 1);
    var b := a + s.animation;
    assert forall k :: 0 <= k < |b| ==> KindOrder(b[k].asset) <= 2;
    OrderedConcat(b, s.materials, 2);
    var c := b + s.materials;
    assert forall k :: 0 <= k < |c| ==> KindOrder(c[k].asset) <= 3;
  }

  /** The model step gives LOD items and then the model item. */
  lemma ModelItemsInOrder(assetReferences: seq<AssetItem>, entityInfo: EntityInfo, assetSource: string, fileName: string,
                          shouldPostFixName: bool, skeletonAsset: Option<AssetItem>, lodLevels: int32, firstId: AssetId)
    requires ModelItems(assetReferences, entityInfo, assetSource, fileName, shouldPostFixName, skeletonAsset, lodLevels, firstId).Ok?
    ensures var items := ModelItems(assetReferences, entityInfo, assetSource, fileName, shouldPostFixName,
                                    skeletonAsset, lodLevels, firstId).value;
      && InImportOrder(items)
      && forall k :: 0 <= k < |items| ==> 4 <= KindOrder(items[k].asset)
  {
    ModelItemsFacts(assetReferences, entityInfo, assetSource, fileName, shouldPostFixName, skeletonAsset, lodLevels, firstId);
    var items := ModelItems(assetReferences, entityInfo, assetSource, fileName, shouldPostFixName,
                            skeletonAsset, lodLevels, firstId).value;
    var n := LevelCount(lodLevels);
    assert forall k :: 0 <= k < |items| ==> KindOrder(items[k].asset) == if k < n then 4 else 5;
  }

  /** Every successful import lists textures, then the skeleton, the
      animation, the materials, the LOD assets and the model, in that order. */
  lemma ImportInOrder(localPath: string, parameters: ImportParameters, entityInfo: Option<EntityInfo>,
                      startTime: int, endTime: int, nameOf: string -> string, firstId: AssetId)
    requires ImportResult(localPath, parameters, entityInfo, startTime, endTime, nameOf, firstId).Ok?
    ensures InImportOrder(ImportResult(localPath, parameters, entityInfo, startTime, endTime, nameOf, firstId).value)
  {
    if entityInfo.Some? {
      var info := entityInfo.value;
      var selected := parameters.selectedOutputTypes;
      var s := SectionsOf(localPath, selected, info, startTime, endTime, nameOf, firstId);
      SectionsInOrder(localPath, selected, info, startTime, endTime, nameOf, firstId);
      ImportResultSplit(localPath, parameters, info, startTime, endTime, nameOf, firstId);
      if ModelAssetType in selected {
        var lodLevels := RequestedLodLevels(parameters);
        var fileName := nameOf(localPath);
        var items := ModelItems(s.Before(), info, localPath, fileName, false, s.skeleton, lodLevels, s.modelId).value;
        ModelItemsInOrder(s.Before(), info, localPath, fileName, false, s.skeleton, lodLevels, s.modelId);
        OrderedConcat(s.Before(), items, 3);
      }
    }
  }

  /** A successful import is the items of the steps before the model step,
      followed, when the model is selected, by the model step's items. */
  lemma ImportResultSplit(localPath: string, parameters: ImportParameters, info: EntityInfo,
                          startTime: int, endTime: int, nameOf: string -> string, firstId: AssetId)
    requires ImportResult(localPath, parameters, Some(info), startTime, endTime, nameOf, firstId).Ok?
    ensures var result := ImportResult(localPath, parameters, Some(info), startTime, endTime, nameOf, firstId).value;
      var s := SectionsOf(localPath, parameters.selectedOutputTypes, info, startTime, endTime, nameOf, firstId);
      var m := ModelItems(s.Before(), info, localPath, nameOf(localPath), false, s.skeleton,
                          RequestedLodLevels(parameters), s.modelId);
      && (ModelAssetType !in parameters.selectedOutputTypes ==> result == s.Before())
      && (ModelAssetType in parameters.selectedOutputTypes ==> m.Ok? && result == s.Before() + m.value)
  {
  }

  /** No LOD asset is produced when the model is not selected, when LOD
      generation is off or its key is missing, when the level key is missing,
      when the level count is not positive, or when it is `int.MaxValue`. */
  lemma ImportWithoutLods(localPath: string, parameters: ImportParameters, entityInfo: Option<EntityInfo>,
                          startTime: int, endTime: int, nameOf: string -> string, firstId: AssetId)
    requires ImportResult(localPath, parameters, entityInfo, startTime, endTime, nameOf, firstId).Ok?
    requires || ModelAssetType !in parameters.selectedOutputTypes
             || parameters.generateLods != Some(true)
             || parameters.lodLevels.None?
             || parameters.lodLevels.value <= 0
             || parameters.lodLevels.value as int == Int32Max
    ensures var items := ImportResult(localPath, parameters, entityInfo, startTime, endTime, nameOf, firstId).value;
      forall k :: 0 <= k < |items| ==> !items[k].asset.ModelLod?
  {
    if entityInfo.Some? {
      var info := entityInfo.value;
      var selected := parameters.selectedOutputTypes;
      var s := SectionsOf(localPath, selected, info, startTime, endTime, nameOf, firstId);
      var before := s.Before();
      SectionsInOrder(localPath, selected, info, startTime, endTime, nameOf, firstId);
      ImportResultSplit(localPath, parameters, info, startTime, endTime, nameOf, firstId);
      var result := ImportResult(localPath, parameters, entityInfo, startTime, endTime, nameOf, firstId).value;
      if ModelAssetType in selected {
        var lodLevels := RequestedLodLevels(parameters);
        assert LevelCount(lodLevels) == 0;
        var fileName := nameOf(localPath);
        var items := ModelItems(before, info, localPath, fileName, false, s.skeleton, lodLevels, s.modelId).value;
        ModelItemsFacts(before, info, localPath, fileName, false, s.skeleton, lodLevels, s.modelId);
        forall k | 0 <= k < |result| ensures !result[k].asset.ModelLod? {
          if k >= |before| {
            assert result[k] == items[k - |before|];
          } else {
            assert result[k] == before[k];
          }
        }
      } else {
        forall k | 0 <= k < |result| ensures !result[k].asset.ModelLod? {
          assert result[k] == before[k];
        }
      }
    }
  }

  /** With the model selected, LOD generation on and a positive `lodLevels`,
      the import ends with N LOD assets of levels 1 .. N followed by the model
      item, where N is `lodLevels` below `int.MaxValue` and 0 at it. */
  lemma ImportLodsBeforeModel(localPath: string, parameters: ImportParameters, info: EntityInfo,
                              startTime: int, endTime: int, nameOf: string -> string, firstId: AssetId)
    requires ImportResult(localPath, parameters, Some(info), startTime, endTime, nameOf, firstId).Ok?
    requires ModelAssetType in parameters.selectedOutputTypes
    requires parameters.generateLods == Some(true)
    requires parameters.lodLevels.Some? && parameters.lodLevels.value > 0
    ensures var items := ImportResult(localPath, parameters, Some(info), startTime, endTime, nameOf, firstId).value;
      var v := parameters.lodLevels.value as int;
      var n := if v < Int32Max then v else 0;
      var first := |items| - 1 - n;
      && 0 <= first
      && items[|items| - 1].asset.Model?
      && forall k :: first <= k < |items| - 1 ==>
           items[k].asset.ModelLod? && items[k].asset.lod.level == k - first + 1
  {
    var selected := parameters.selectedOutputTypes;
    var s := SectionsOf(localPath, selected, info, startTime, endTime, nameOf, firstId);
    var before := s.Before();
    ImportResultSplit(localPath, parameters, info, startTime, endTime, nameOf, firstId);
    var result := ImportResult(localPath, parameters, Some(info), startTime, endTime, nameOf, firstId).value;
    var lodLevels := RequestedLodLevels(parameters);
    var fileName := nameOf(localPath);
    var items := ModelItems(before, info, localPath, fileName, false, s.skeleton, lodLevels, s.modelId).value;
    ModelItemsFacts(before, info, localPath, fileName, false, s.skeleton, lodLevels, s.modelId);
    assert result == before + items;
    assert |before| == |result| - 1 - LevelCount(lodLevels);
    forall k | |before| <= k < |result| ensures result[k] == items[k - |before|] {
    }
  }
}
