/**
 * Scene bookkeeping (Scene.cpp): the ID registries for meshes, models and
 * materials, deserialisation of game objects, the per-frame mesh render
 * command list and Unload.
 *
 * Matrices and camera maths are floating point and stay abstract: a transform
 * is represented by its world matrix, which is carried, never computed.
 */
module SceneData {
  import opened Wrappers

  datatype Matrix = Matrix(entries: seq<real>)
  datatype Transform = Transform(world: Matrix)

  /** The GPU buffers of a mesh; their contents are the renderer's business. */
  datatype Mesh = Mesh(vertexBuffer: int, indexBuffer: int, numIndices: nat)

  datatype Model = Model(opaqueMeshIDs: seq<nat>, loaded: bool, modelName: string, modelPath: string)

  /** `Model()` as value-initialised: no meshes, not loaded, no name or path. */
  const DefaultModel := Model([], false, "", "")

  /** Material contents are not modelled; `Material()` is the default material. */
  datatype Material = DefaultMaterial

  datatype GameObject = GameObject(transformID: nat, modelID: nat)

  datatype MeshRenderCommand = MeshRenderCommand(meshID: nat, world: Matrix)

  /** One frame's scene data; the camera matrices are left out. */
  datatype SceneView = SceneView(meshRenderCommands: seq<MeshRenderCommand>)

  const EmptySceneView := SceneView([])

  function EmptySceneViews(n: nat): (r: seq<SceneView>)
    ensures |r| == n && forall k :: 0 <= k < n ==> r[k] == EmptySceneView
  {
    seq(n, _ => EmptySceneView)
  }

  datatype GameObjectRepresentation = GameObjectRepresentation(
    tf: Transform, modelName: string, modelFilePath: string, builtinMeshName: string)

  /** The parameters of a scene camera that the loader reads or writes. */
  datatype CameraParameters = CameraParameters(
    viewportWidth: int, viewportHeight: int, initializeController: bool, firstPerson: bool)

  /** A camera; `controller` is Some(firstPerson) once its controller was initialised. */
  datatype Camera = Camera(params: CameraParameters, controller: Option<bool>)

  datatype SceneRepresentation = SceneRepresentation(
    sceneName: string, objects: seq<GameObjectRepresentation>, cameras: seq<CameraParameters>, loadSuccess: int)

  const EmptySceneRepresentation := SceneRepresentation("", [], [], 0)

  datatype Light = Light(data: seq<real>)
  datatype BoundingBox = BoundingBox(low: seq<real>, high: seq<real>)

  datatype ModelLoadRequest = ModelLoadRequest(path: string, name: string)

  /** Exactly one of "built-in mesh" and "loaded from file" describes the object. */
  predicate OneModelSource(o: GameObjectRepresentation)
  {
    (o.builtinMeshName != []) != (o.modelFilePath != [])
  }

  /** The model a deserialised object ends up with, once CreateModel gave it a slot. */
  function ModelFor(o: GameObjectRepresentation, builtinMeshID: string -> nat): Model
  {
    if o.builtinMeshName != []
    then DefaultModel.(opaqueMeshIDs := [builtinMeshID(o.builtinMeshName)], loaded := true)
    else DefaultModel.(loaded := false, modelName := o.modelName, modelPath := o.modelFilePath)
  }

  /** The model-load requests queued for the file-backed objects, in order. */
  function FileRequests(objs: seq<GameObjectRepresentation>): seq<ModelLoadRequest>
  {
    if objs == [] then []
    else
      var o := objs[|objs| - 1];
      FileRequests(objs[..|objs| - 1])
        + (if o.builtinMeshName != [] then [] else [ModelLoadRequest(o.modelFilePath, o.modelName)])
  }

  lemma FileRequestsOne(o: GameObjectRepresentation)
    ensures FileRequests([o]) == if o.builtinMeshName != [] then [] else [ModelLoadRequest(o.modelFilePath, o.modelName)]
  {
    assert [o][..0] == [];
  }

  // ---------------------------------------------------------------------------
  // The mesh render command list built by PostUpdate
  // ---------------------------------------------------------------------------

  /** Every object's transform and model exist (`at()` would throw otherwise). */
  predicate ObjectsResolve(objs: seq<GameObject>, transforms: seq<Transform>, models: map<nat, Model>)
  {
    forall k :: 0 <= k < |objs| ==> objs[k].transformID < |transforms| && objs[k].modelID in models
  }

  /** One command per opaque mesh of one object, all with that object's world matrix. */
  function ObjectCommands(ids: seq<nat>, world: Matrix): (r: seq<MeshRenderCommand>)
    ensures |r| == |ids|
    ensures forall j :: 0 <= j < |ids| ==> r[j] == MeshRenderCommand(ids[j], world)
  {
    seq(|ids|, j requires 0 <= j < |ids| => MeshRenderCommand(ids[j], world))
  }

  function MeshIDsOf(o: GameObject, models: map<nat, Model>): seq<nat>
    requires o.modelID in models
  {
    models[o.modelID].opaqueMeshIDs
  }

  /** The commands for all objects: object order, then mesh order. */
  function Commands(objs: seq<GameObject>, transforms: seq<Transform>, models: map<nat, Model>): seq<MeshRenderCommand>
    requires ObjectsResolve(objs, transforms, models)
  {
    if objs == [] then []
    else
      var o := objs[|objs| - 1];
      Commands(objs[..|objs| - 1], transforms, models)
        + ObjectCommands(MeshIDsOf(o, models), transforms[o.transformID].world)
  }

  /** The number of opaque meshes over all objects. */
  function MeshCount(objs: seq<GameObject>, models: map<nat, Model>): nat
    requires forall k :: 0 <= k < |objs| ==> objs[k].modelID in models
  {
    if objs == [] then 0
    else MeshCount(objs[..|objs| - 1], models) + |MeshIDsOf(objs[|objs| - 1], models)|
  }

  lemma {:induction false} CommandsLength(objs: seq<GameObject>, transforms: seq<Transform>, models: map<nat, Model>)
    requires ObjectsResolve(objs, transforms, models)
    ensures |Commands(objs, transforms, models)| == MeshCount(objs, models)
  {
    if objs != [] {
      CommandsLength(objs[..|objs| - 1], transforms, models);
    }
  }

  /** The offsets of the objects' blocks grow with the object index. */
  lemma {:induction false} MeshCountPrefix(objs: seq<GameObject>, models: map<nat, Model>, i: nat)
    requires forall k :: 0 <= k < |objs| ==> objs[k].modelID in models
    requires i < |objs|
    ensures MeshCount(objs[..i], models) + |MeshIDsOf(objs[i], models)| <= MeshCount(objs, models)
    decreases |objs|
  {
    var n := |objs|;
    assert objs[..i + 1][..i] == objs[..i];
    if i + 1 < n {
      assert objs[..n - 1][..i] == objs[..i];
      MeshCountPrefix(objs[..n - 1], models, i);
    } else {
      assert objs[..n - 1] == objs[..i];
    }
  }

  /**
   * Mesh j of object i sits at offset MeshCount(objects before i) + j and
   * carries object i's world matrix.
   */
  lemma {:induction false} CommandAt(objs: seq<GameObject>, transforms: seq<Transform>, models: map<nat, Model>, i: nat, j: nat)
    requires ObjectsResolve(objs, transforms, models)
    requires i < |objs| && j < |MeshIDsOf(objs[i], models)|
    ensures MeshCount(objs[..i], models) + j < |Commands(objs, transforms, models)|
    ensures Commands(objs, transforms, models)[MeshCount(objs[..i], models) + j]
         == MeshRenderCommand(MeshIDsOf(objs[i], models)[j], transforms[objs[i].transformID].world)
    decreases |objs|
  {
    var n := |objs|;
    var init := objs[..n - 1];
    CommandsLength(objs, transforms, models);
    MeshCountPrefix(objs, models, i);
    CommandsLength(init, transforms, models);
    if i == n - 1 {
      assert init == objs[..i];
    } else {
      assert init[..i] == objs[..i];
      assert init[i] == objs[i];
      CommandAt(init, transforms, models, i, j);
    }
  }

  // ---------------------------------------------------------------------------
  // What StartLoading creates
  // ---------------------------------------------------------------------------

  function TransformsOf(objs: seq<GameObjectRepresentation>): (r: seq<Transform>)
    ensures |r| == |objs| && forall k :: 0 <= k < |objs| ==> r[k] == objs[k].tf
  {
    seq(|objs|, k requires 0 <= k < |objs| => objs[k].tf)
  }

  /** The k-th new object refers to the k-th new transform and the k-th new model. */
  function NewGameObjects(firstTransform: nat, firstModel: nat, n: nat): (r: seq<GameObject>)
    ensures |r| == n && forall k :: 0 <= k < n ==> r[k] == GameObject(firstTransform + k, firstModel + k)
  {
    seq(n, k requires 0 <= k < n => GameObject(firstTransform + k, firstModel + k))
  }

  /**
   * `after` keeps every model of `before`, holds ModelFor(objs[k]) under
   * firstModel + k, and nothing else.
   */
  ghost predicate NewModels(before: map<nat, Model>, after: map<nat, Model>, firstModel: nat,
                            objs: seq<GameObjectRepresentation>, builtinMeshID: string -> nat)
  {
    && (forall id :: id in before ==> id in after && after[id] == before[id])
    && (forall k :: 0 <= k < |objs| ==> HoldsModel(after, firstModel + k, objs[k], builtinMeshID))
    && (forall id :: id in after ==> id in before || firstModel <= id < firstModel + |objs|)
  }

  predicate HoldsModel(models: map<nat, Model>, id: nat, o: GameObjectRepresentation, builtinMeshID: string -> nat)
  {
    id in models && models[id] == ModelFor(o, builtinMeshID)
  }

  /** The part of a scene (and of the shared model counter and loader) that deserialisation changes. */
  datatype LoadState = LoadState(
    transforms: seq<Transform>, objects: seq<GameObject>, models: map<nat, Model>,
    lastModelID: nat, requests: seq<ModelLoadRequest>)

  /** Deserialising one object: a new transform, a new model, a new object, maybe a queued load. */
  function DeserializeStep(st: LoadState, o: GameObjectRepresentation, builtinMeshID: string -> nat): LoadState
  {
    LoadState(
      st.transforms + [o.tf],
      st.objects + [GameObject(|st.transforms|, st.lastModelID)],
      st.models[st.lastModelID := ModelFor(o, builtinMeshID)],
      st.lastModelID + 1,
      st.requests + FileRequests([o]))
  }

  /** Deserialising the objects in order. */
  function DeserializeAll(st: LoadState, objs: seq<GameObjectRepresentation>, builtinMeshID: string -> nat): LoadState
  {
    if objs == [] then st
    else DeserializeStep(DeserializeAll(st, objs[..|objs| - 1], builtinMeshID), objs[|objs| - 1], builtinMeshID)
  }

  /** n transforms appended in order, n objects pointing at them and at n fresh model IDs. */
  lemma {:induction false} DeserializeAllObjects(st: LoadState, objs: seq<GameObjectRepresentation>, builtinMeshID: string -> nat)
    ensures var r := DeserializeAll(st, objs, builtinMeshID);
      && r.transforms == st.transforms + TransformsOf(objs)
      && r.objects == st.objects + NewGameObjects(|st.transforms|, st.lastModelID, |objs|)
      && r.lastModelID == st.lastModelID + |objs|
  {
    if objs != [] {
      var n := |objs|;
      var init := objs[..n - 1];
      DeserializeAllObjects(st, init, builtinMeshID);
      assert TransformsOf(objs) == TransformsOf(init) + [objs[n - 1].tf];
      assert NewGameObjects(|st.transforms|, st.lastModelID, n)
          == NewGameObjects(|st.transforms|, st.lastModelID, n - 1) + [GameObject(|st.transforms| + n - 1, st.lastModelID + n - 1)];
    }
  }

  /** One more deserialised object extends NewModels by its model. */
  lemma NewModelsStep(m0: map<nat, Model>, m1: map<nat, Model>, m2: map<nat, Model>, firstModel: nat,
                      objs: seq<GameObjectRepresentation>, i: nat, builtinMeshID: string -> nat)
    requires i < |objs|
    requires forall id :: id in m0 ==> id < firstModel
    requires NewModels(m0, m1, firstModel, objs[..i], builtinMeshID)
    requires m2 == m1[firstModel + i := ModelFor(objs[i], builtinMeshID)]
    ensures NewModels(m0, m2, firstModel, objs[..i + 1], builtinMeshID)
  {
    var pre, post := objs[..i], objs[..i + 1];
    forall id | id in m0
      ensures id in m2 && m2[id] == m0[id]
    {
      assert id != firstModel + i;
    }
    forall id | id in m2
      ensures id in m0 || firstModel <= id < firstModel + |post|
    {
      if id != firstModel + i {
        assert id in m1;
      }
    }
    forall k | 0 <= k < |post|
      ensures HoldsModel(m2, firstModel + k, post[k], builtinMeshID)
    {
      if k < i {
        assert post[k] == pre[k];
        assert HoldsModel(m1, firstModel + k, pre[k], builtinMeshID);
      } else {
        assert post[k] == objs[i];
      }
    }
  }

  /** The old models are kept and model firstModel + k is ModelFor(objs[k]). */
  lemma {:induction false} DeserializeAllModels(st: LoadState, objs: seq<GameObjectRepresentation>, builtinMeshID: string -> nat)
    requires forall id :: id in st.models ==> id < st.lastModelID
    ensures NewModels(st.models, DeserializeAll(st, objs, builtinMeshID).models, st.lastModelID, objs, builtinMeshID)
  {
    if objs != [] {
      var n := |objs|;
      var init := objs[..n - 1];
      DeserializeAllModels(st, init, builtinMeshID);
      DeserializeAllObjects(st, init, builtinMeshID);
      var prev := DeserializeAll(st, init, builtinMeshID).models;
      var r := DeserializeAll(st, objs, builtinMeshID).models;
      NewModelsStep(st.models, prev, r, st.lastModelID, objs, n - 1, builtinMeshID);
      assert objs[..n] == objs;
    }
  }

  /** One load request per file-backed object, in order. */
  lemma {:induction false} DeserializeAllRequests(st: LoadState, objs: seq<GameObjectRepresentation>, builtinMeshID: string -> nat)
    ensures DeserializeAll(st, objs, builtinMeshID).requests == st.requests + FileRequests(objs)
  {
    if objs != [] {
      var n := |objs|;
      DeserializeAllRequests(st, objs[..n - 1], builtinMeshID);
      FileRequestsOne(objs[n - 1]);
    }
  }

  /**
   * What deserialising n objects amounts to: n transforms appended in order, n
   * objects pointing at them and at n fresh model IDs, the old models kept,
   * the new models as ModelFor says, and one load request per file-backed object.
   */
  lemma DeserializeAllResult(st: LoadState, objs: seq<GameObjectRepresentation>, builtinMeshID: string -> nat)
    requires forall id :: id in st.models ==> id < st.lastModelID
    ensures var r := DeserializeAll(st, objs, builtinMeshID);
      && r.transforms == st.transforms + TransformsOf(objs)
      && r.objects == st.objects + NewGameObjects(|st.transforms|, st.lastModelID, |objs|)
      && r.lastModelID == st.lastModelID + |objs|
      && NewModels(st.models, r.models, st.lastModelID, objs, builtinMeshID)
      && r.requests == st.requests + FileRequests(objs)
  {
    DeserializeAllObjects(st, objs, builtinMeshID);
    DeserializeAllModels(st, objs, builtinMeshID);
    DeserializeAllRequests(st, objs, builtinMeshID);
  }

  function WithViewport(cams: seq<CameraParameters>, width: int, height: int): (r: seq<CameraParameters>)
    ensures |r| == |cams|
    ensures forall k :: 0 <= k < |cams| ==> r[k] == cams[k].(viewportWidth := width, viewportHeight := height)
  {
    seq(|cams|, k requires 0 <= k < |cams| => cams[k].(viewportWidth := width, viewportHeight := height))
  }

  /** A camera gets a controller exactly when its parameters ask for one. */
  function CameraFor(p: CameraParameters): Camera
  {
    Camera(p, if p.initializeController then Some(p.firstPerson) else None)
  }

  function CamerasFor(params: seq<CameraParameters>): (r: seq<Camera>)
    ensures |r| == |params| && forall k :: 0 <= k < |params| ==> r[k] == CameraFor(params[k])
  {
    seq(|params|, k requires 0 <= k < |params| => CameraFor(params[k]))
  }

  // ---------------------------------------------------------------------------
  // The process-wide ID counters and the asset loader's model queue
  // ---------------------------------------------------------------------------

  /** The static "last used" ID counters of Scene.cpp, shared by every scene. */
  class IdCounters {
    var lastMeshID: nat
    var lastModelID: nat
    var lastMaterialID: nat

    constructor ()
      ensures lastMeshID == 0 && lastModelID == 0 && lastMaterialID == 0
    {
      lastMeshID, lastModelID, lastMaterialID := 0, 0, 0;
    }
  }

  /** The asset loader, seen as a sink: it records what was queued and how often loading was started. */
  class ModelLoadQueue {
    var requests: seq<ModelLoadRequest>
    var loadStarts: nat

    constructor ()
      ensures requests == [] && loadStarts == 0
    {
      requests, loadStarts := [], 0;
    }

    method QueueModelLoad(path: string, name: string)
      modifies this`requests
      ensures requests == old(requests) + [ModelLoadRequest(path, name)]
    {
      requests := requests + [ModelLoadRequest(path, name)];
    }

    method StartLoadingModels()
      modifies this`loadStarts
      ensures loadStarts == old(loadStarts) + 1
    {
      loadStarts := loadStarts + 1;
    }
  }

  // ---------------------------------------------------------------------------
  // Scene
  // ---------------------------------------------------------------------------

  class Scene {
    const counters: IdCounters
    const assetLoader: ModelLoadQueue

    var meshes: map<nat, Mesh>
    var models: map<nat, Model>
    var materials: map<nat, Material>
    var loadedMaterials: map<string, nat>

    var frameSceneViews: seq<SceneView>
    var transforms: seq<Transform>
    var objects: seq<GameObject>
    var cameras: seq<Camera>

    var directionalLight: Option<Light>
    var lightsStatic: seq<Light>
    var lightsDynamic: seq<Light>
    var sceneBoundingBox: Option<BoundingBox>
    var meshBoundingBoxes: seq<BoundingBox>
    var gameObjectBoundingBoxes: seq<BoundingBox>

    var selectedCamera: int
    var activeEnvironmentMapPreset: int
    var sceneRepresentation: SceneRepresentation
    var environmentMapUnloads: nat

    /**
     * Registered IDs are below their counter (so a new ID never overwrites),
     * every loaded material name maps to a registered material, distinct names
     * map to distinct IDs, and every object's transform and model exist.
     */
    ghost predicate Valid()
      reads this`meshes, this`models, this`materials, this`loadedMaterials, this`objects, this`transforms, counters
    {
      RegistriesValid() && ObjectsResolve(objects, transforms, models)
    }

    ghost predicate RegistriesValid()
      reads this`meshes, this`models, this`materials, this`loadedMaterials, counters
    {
      && (forall id :: id in meshes ==> id < counters.lastMeshID)
      && (forall id :: id in models ==> id < counters.lastModelID)
      && (forall id :: id in materials ==> id < counters.lastMaterialID)
      && (forall n :: n in loadedMaterials ==> loadedMaterials[n] in materials)
      && (forall n1, n2 :: n1 in loadedMaterials && n2 in loadedMaterials && n1 != n2
            ==> loadedMaterials[n1] != loadedMaterials[n2])
    }

    /** The state that StartLoading's deserialisation works on. */
    ghost function Snapshot(): LoadState
      reads this`transforms, this`objects, this`models, counters`lastModelID, assetLoader`requests
    {
      LoadState(transforms, objects, models, counters.lastModelID, assetLoader.requests)
    }

    /** Scene::Scene: one frame scene view per frame buffer, first camera, first environment map. */
    constructor (counters: IdCounters, assetLoader: ModelLoadQueue, numFrameBuffers: nat)
      ensures Valid()
      ensures this.counters == counters && this.assetLoader == assetLoader
      ensures |frameSceneViews| == numFrameBuffers
      ensures forall k :: 0 <= k < numFrameBuffers ==> frameSceneViews[k] == EmptySceneView
      ensures meshes == map[] && models == map[] && materials == map[] && loadedMaterials == map[]
      ensures transforms == [] && objects == [] && cameras == []
      ensures selectedCamera == 0 && activeEnvironmentMapPreset == 0
    {
      this.counters := counters;
      this.assetLoader := assetLoader;
      meshes, models, materials, loadedMaterials := map[], map[], map[], map[];
      frameSceneViews := EmptySceneViews(numFrameBuffers);
      transforms, objects, cameras := [], [], [];
      directionalLight, lightsStatic, lightsDynamic := None, [], [];
      sceneBoundingBox, meshBoundingBoxes, gameObjectBoundingBoxes := None, [], [];
      selectedCamera, activeEnvironmentMapPreset := 0, 0;
      sceneRepresentation := EmptySceneRepresentation;
      environmentMapUnloads := 0;
    }

    /** Scene::AddMesh: the mesh is stored under the next mesh ID. */
    method AddMesh(mesh: Mesh) returns (id: nat)
      requires Valid()
      modifies this`meshes, counters`lastMeshID
      ensures Valid()
      ensures id == old(counters.lastMeshID) && counters.lastMeshID == id + 1
      ensures id !in old(meshes) && meshes == old(meshes)[id := mesh]
    {
      id := counters.lastMeshID;
      counters.lastMeshID := counters.lastMeshID + 1;
      meshes := meshes[id := mesh];
    }

    /** Scene::CreateModel: a default model is stored under the next model ID. */
    method CreateModel() returns (id: nat)
      requires Valid()
      modifies this`models, counters`lastModelID
      ensures Valid()
      ensures id == old(counters.lastModelID) && counters.lastModelID == id + 1
      ensures id !in old(models) && models == old(models)[id := DefaultModel]
    {
      id := counters.lastModelID;
      counters.lastModelID := counters.lastModelID + 1;
      models := models[id := DefaultModel];
    }

    /** Scene::CreateMaterial: materials are deduplicated by their unique name. */
    method CreateMaterial(uniqueMaterialName: string) returns (id: nat)
      requires Valid()
      modifies this`materials, this`loadedMaterials, counters`lastMaterialID
      ensures Valid()
      ensures uniqueMaterialName in old(loadedMaterials) ==>
        && id == old(loadedMaterials[uniqueMaterialName])
        && materials == old(materials) && loadedMaterials == old(loadedMaterials)
        && counters.lastMaterialID == old(counters.lastMaterialID)
      ensures uniqueMaterialName !in old(loadedMaterials) ==>
        && id == old(counters.lastMaterialID) && counters.lastMaterialID == id + 1
        && id !in old(materials)
        && materials == old(materials)[id := DefaultMaterial]
        && loadedMaterials == old(loadedMaterials)[uniqueMaterialName := id]
      ensures uniqueMaterialName in loadedMaterials && loadedMaterials[uniqueMaterialName] == id
    {
      if uniqueMaterialName in loadedMaterials {
        return loadedMaterials[uniqueMaterialName];
      }
      id := counters.lastMaterialID;
      counters.lastMaterialID := counters.lastMaterialID + 1;
      materials := materials[id := DefaultMaterial];
      loadedMaterials := loadedMaterials[uniqueMaterialName := id];
    }

    /**
     * Scene::PostUpdate, for the mesh render commands: the slot's list is
     * replaced by one command per (object, opaque mesh), object order first.
     */
    method PostUpdate(frameDataIndex: int)
      requires Valid()
      requires 0 <= frameDataIndex < |frameSceneViews|
      modifies this`frameSceneViews
      ensures Valid()
      ensures |frameSceneViews| == old(|frameSceneViews|)
      ensures frameSceneViews == old(frameSceneViews)[frameDataIndex := SceneView(Commands(objects, transforms, models))]
    {
      frameSceneViews := frameSceneViews[frameDataIndex := EmptySceneView];
      var i := 0;
      while i < |objects|
        invariant 0 <= i <= |objects|
        invariant |frameSceneViews| == old(|frameSceneViews|)
        invariant frameSceneViews == old(frameSceneViews)[frameDataIndex := frameSceneViews[frameDataIndex]]
        invariant frameSceneViews[frameDataIndex].meshRenderCommands == Commands(objects[..i], transforms, models)
      {
        var obj := objects[i];
        var matWorldTransform := transforms[obj.transformID].world;
        var ids := models[obj.modelID].opaqueMeshIDs;
        ghost var before := frameSceneViews[frameDataIndex].meshRenderCommands;
        var j := 0;
        while j < |ids|
          invariant 0 <= j <= |ids|
          invariant |frameSceneViews| == old(|frameSceneViews|)
          invariant frameSceneViews == old(frameSceneViews)[frameDataIndex := frameSceneViews[frameDataIndex]]
          invariant frameSceneViews[frameDataIndex].meshRenderCommands == before + ObjectCommands(ids[..j], matWorldTransform)
        {
          var cmd := MeshRenderCommand(ids[j], matWorldTransform);
          var view := frameSceneViews[frameDataIndex];
          frameSceneViews := frameSceneViews[frameDataIndex := view.(meshRenderCommands := view.meshRenderCommands + [cmd])];
          j := j + 1;
        }
        assert ids[..j] == ids;
        assert objects[..i + 1][..i] == objects[..i];
        i := i + 1;
      }
      assert objects[..i] == objects;
    }

    /** The body of StartLoading's per-object deserialisation. */
    method DeserializeGameObject(objRep: GameObjectRepresentation, builtinMeshID: string -> nat)
      requires Valid()
      requires OneModelSource(objRep)
      modifies this`transforms, this`objects, this`models, counters`lastModelID, assetLoader`requests
      ensures Valid()
      ensures Snapshot() == DeserializeStep(old(Snapshot()), objRep, builtinMeshID)
    {
      transforms := transforms + [objRep.tf];
      var tID := |transforms| - 1;

      var bModelIsBuiltinMesh := objRep.builtinMeshName != [];
      var mID := CreateModel();
      var model := models[mID];
      assert model == DefaultModel;
      if bModelIsBuiltinMesh {
        var meshID := builtinMeshID(objRep.builtinMeshName);
        assert model.opaqueMeshIDs + [meshID] == [meshID];
        model := model.(opaqueMeshIDs := model.opaqueMeshIDs + [meshID], loaded := true);
        models := models[mID := model];
      } else {
        model := model.(loaded := false, modelName := objRep.modelName, modelPath := objRep.modelFilePath);
        models := models[mID := model];
        assetLoader.QueueModelLoad(model.modelPath, model.modelName);
      }
      FileRequestsOne(objRep);

      objects := objects + [GameObject(tID, mID)];
    }

    /** Deserialises the objects one by one, in order. */
    method DeserializeGameObjects(objs: seq<GameObjectRepresentation>, builtinMeshID: string -> nat)
      requires Valid()
      requires forall k :: 0 <= k < |objs| ==> OneModelSource(objs[k])
      modifies this`transforms, this`objects, this`models, counters`lastModelID, assetLoader`requests
      ensures Valid()
      ensures Snapshot() == DeserializeAll(old(Snapshot()), objs, builtinMeshID)
    {
      var i := 0;
      while i < |objs|
        invariant 0 <= i <= |objs|
        invariant Valid()
        invariant Snapshot() == DeserializeAll(old(Snapshot()), objs[..i], builtinMeshID)
      {
        DeserializeGameObject(objs[i], builtinMeshID);
        assert objs[..i + 1][..i] == objs[..i];
        i := i + 1;
      }
      assert objs[..i] == objs;
    }

    /**
     * Creates one camera per parameter set, with the window's viewport written
     * into the parameters, then initialises the controllers that are asked for.
     */
    method LoadCameras(sceneCameras: seq<CameraParameters>, windowWidth: int, windowHeight: int)
      returns (params: seq<CameraParameters>)
      requires cameras == []
      modifies this`cameras
      ensures params == WithViewport(sceneCameras, windowWidth, windowHeight)
      ensures cameras == CamerasFor(params)
    {
      params := sceneCameras;
      var c := 0;
      while c < |params|
        invariant 0 <= c <= |params| == |sceneCameras|
        invariant |cameras| == c
        invariant forall k :: 0 <= k < c ==>
          params[k] == sceneCameras[k].(viewportWidth := windowWidth, viewportHeight := windowHeight)
          && cameras[k] == Camera(params[k], None)
        invariant forall k :: c <= k < |params| ==> params[k] == sceneCameras[k]
      {
        params := params[c := params[c].(viewportWidth := windowWidth, viewportHeight := windowHeight)];
        cameras := cameras + [Camera(params[c], None)];
        c := c + 1;
      }

      var k := 0;
      while k < |cameras|
        invariant 0 <= k <= |cameras| == |params|
        invariant forall m :: 0 <= m < |cameras| ==> cameras[m].params == params[m]
        invariant forall m :: 0 <= m < k ==> cameras[m] == CameraFor(params[m])
        invariant forall m :: k <= m < |cameras| ==> cameras[m].controller == None
      {
        if params[k].initializeController {
          cameras := cameras[k := cameras[k].(controller := Some(params[k].firstPerson))];
        }
        k := k + 1;
      }
    }

    /**
     * Scene::StartLoading without the scene-specific LoadScene hook: objects,
     * then the model loads are started, then cameras and their controllers.
     * The camera viewports take the window's size.
     */
    method StartLoading(scene: SceneRepresentation, builtinMeshID: string -> nat, windowWidth: int, windowHeight: int)
      requires Valid()
      requires forall k :: 0 <= k < |scene.objects| ==> OneModelSource(scene.objects[k])
      requires cameras == []
      modifies this`transforms, this`objects, this`models, this`cameras, this`sceneRepresentation,
               counters`lastModelID, assetLoader`requests, assetLoader`loadStarts
      ensures Valid()
      ensures Snapshot() == DeserializeAll(old(Snapshot()), scene.objects, builtinMeshID)
      ensures assetLoader.loadStarts == old(assetLoader.loadStarts) + 1
      ensures meshes == old(meshes) && materials == old(materials) && loadedMaterials == old(loadedMaterials)
      ensures cameras == CamerasFor(WithViewport(scene.cameras, windowWidth, windowHeight))
      ensures sceneRepresentation == scene.(cameras := WithViewport(scene.cameras, windowWidth, windowHeight))
      ensures frameSceneViews == old(frameSceneViews)
    {
      DeserializeGameObjects(scene.objects, builtinMeshID);
      assetLoader.StartLoadingModels();
      var params := LoadCameras(scene.cameras, windowWidth, windowHeight);
      sceneRepresentation := scene.(cameras := params);
    }

    /**
     * Scene::Unload (without the scene-specific UnloadScene hook): everything
     * the level created is dropped, the frame scene views are reset but keep
     * their number; the mesh, model and material registries and the ID
     * counters are outside the frame, so they are kept.
     */
    method Unload()
      requires Valid()
      modifies this`sceneRepresentation, this`frameSceneViews, this`transforms, this`objects, this`cameras,
               this`directionalLight, this`lightsStatic, this`lightsDynamic,
               this`sceneBoundingBox, this`meshBoundingBoxes, this`gameObjectBoundingBoxes,
               this`selectedCamera, this`activeEnvironmentMapPreset, this`environmentMapUnloads
      ensures Valid()
      ensures sceneRepresentation == EmptySceneRepresentation
      ensures |frameSceneViews| == old(|frameSceneViews|)
      ensures forall k :: 0 <= k < |frameSceneViews| ==> frameSceneViews[k] == EmptySceneView
      ensures transforms == [] && objects == [] && cameras == []
      ensures directionalLight == None && lightsStatic == [] && lightsDynamic == []
      ensures sceneBoundingBox == None && meshBoundingBoxes == [] && gameObjectBoundingBoxes == []
      ensures selectedCamera == 0 && activeEnvironmentMapPreset == -1
      ensures environmentMapUnloads == old(environmentMapUnloads) + 1
    {
      ResetLevelState();
      UnloadObjects();
    }

    /**
     * Everything Unload resets apart from the objects: the representation, the
     * frame scene views, lights, bounding boxes, the camera selection and the
     * environment map.
     */
    method ResetLevelState()
      modifies this`sceneRepresentation, this`frameSceneViews,
               this`directionalLight, this`lightsStatic, this`lightsDynamic,
               this`sceneBoundingBox, this`meshBoundingBoxes, this`gameObjectBoundingBoxes,
               this`selectedCamera, this`activeEnvironmentMapPreset, this`environmentMapUnloads
      ensures sceneRepresentation == EmptySceneRepresentation
      ensures |frameSceneViews| == old(|frameSceneViews|)
      ensures forall k :: 0 <= k < |frameSceneViews| ==> frameSceneViews[k] == EmptySceneView
      ensures directionalLight == None && lightsStatic == [] && lightsDynamic == []
      ensures sceneBoundingBox == None && meshBoundingBoxes == [] && gameObjectBoundingBoxes == []
      ensures selectedCamera == 0 && activeEnvironmentMapPreset == -1
      ensures environmentMapUnloads == old(environmentMapUnloads) + 1
    {
      sceneRepresentation := EmptySceneRepresentation;
      var sz := |frameSceneViews|;
      frameSceneViews := [];
      frameSceneViews := EmptySceneViews(sz);
      directionalLight, lightsStatic, lightsDynamic := None, [], [];
      sceneBoundingBox, meshBoundingBoxes, gameObjectBoundingBoxes := None, [], [];
      selectedCamera, activeEnvironmentMapPreset := 0, -1;
      environmentMapUnloads := environmentMapUnloads + 1;
    }

    method UnloadObjects()
      requires Valid()
      modifies this`transforms, this`objects, this`cameras
      ensures Valid()
      ensures transforms == [] && objects == [] && cameras == []
    {
      transforms, objects, cameras := [], [], [];
    }
  }

  /** Two different names registered by CreateMaterial never share an ID. */
  lemma DistinctNamesDistinctIDs(s: Scene, n1: string, n2: string)
    requires s.Valid()
    requires n1 in s.loadedMaterials && n2 in s.loadedMaterials && n1 != n2
    ensures s.loadedMaterials[n1] != s.loadedMaterials[n2]
  {
  }
}
