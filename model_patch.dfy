/** `ModelPatch` (src/resource/Model.cpp): the meshes of one patch of a
    model (one per level of detail), its material, and the table of
    pipelines it builds lazily, one per pass, level of detail and
    tessellation flag. */
module ModelPatches {
  import opened Common
  import opened PipelineRules

  /** A pipeline built for the patch, identified by the initializer it was
      created from. */
  datatype Pipeline = Pipeline(init: PipelineInitializer)

  /** One entry of `indicesOffsetArray` / `indicesCountArray`. */
  datatype SubDrawcall = SubDrawcall(offset: nat, indicesCount: nat)

  /** `min(lod, count - 1)`: the level of detail actually used when `lod`
      is asked of something that has `count` levels. */
  function ClampLod(lod: nat, count: nat): (r: nat)
    requires count >= 1
    ensures r < count && r <= lod
    ensures r == lod || r == count - 1
  {
    if lod < count - 1 then lod else count - 1
  }

  function TessIndex(tessellation: bool): (i: nat)
    ensures i < 2
  {
    if tessellation then 1 else 0
  }

  /** The key whose pipeline lives in slot `[p][l][t]` of the table. */
  function SlotKey(p: nat, l: nat, t: nat): (k: RenderingKey)
    requires p < PassCount && t < 2
    ensures PassIndex(k.pass) == p && k.lod == l && TessIndex(k.tessellation) == t
  {
    RenderingKey(if p == 0 then MsFs else Sm, l, t == 1)
  }

  //
  // The outcome of `ModelPatch::create`
  //

  /** Mesh `i` is kept by `create`: it loaded and, unless it is the first,
      it is compatible with mesh `i - 1`. */
  predicate MeshAccepted(loads: seq<Loaded<Mesh>>, compatible: (Mesh, Mesh) -> bool, i: nat)
    requires i < |loads|
  {
    loads[i].Loaded?
    && (i == 0 || (loads[i - 1].Loaded? && compatible(loads[i].value, loads[i - 1].value)))
  }

  /** The index of the first mesh from `from` on that `create` does not
      keep, or the number of meshes if it keeps them all. */
  function FirstRejected(loads: seq<Loaded<Mesh>>, compatible: (Mesh, Mesh) -> bool, from: nat): (k: nat)
    requires from <= |loads|
    ensures from <= k <= |loads|
    ensures forall j :: from <= j < k ==> MeshAccepted(loads, compatible, j)
    ensures k < |loads| ==> !MeshAccepted(loads, compatible, k)
    decreases |loads| - from
  {
    if from == |loads| || !MeshAccepted(loads, compatible, from) then from
    else FirstRejected(loads, compatible, from + 1)
  }

  /** The first rejected mesh is the only index with every earlier mesh
      kept and itself rejected (or past the end). */
  lemma FirstRejectedUnique(loads: seq<Loaded<Mesh>>, compatible: (Mesh, Mesh) -> bool, k: nat)
    requires k <= |loads|
    requires forall j :: 0 <= j < k ==> MeshAccepted(loads, compatible, j)
    requires k < |loads| ==> !MeshAccepted(loads, compatible, k)
    ensures FirstRejected(loads, compatible, 0) == k
  {
  }

  /** The error `create` returns and the mesh count it leaves. */
  function CreateResult(loads: seq<Loaded<Mesh>>, mtlLoad: Loaded<Material>, compatible: (Mesh, Mesh) -> bool): (r: (Error, nat))
  {
    var k := FirstRejected(loads, compatible, 0);
    if k < |loads| then
      (if loads[k].LoadFailed? then Failed(loads[k].code) else Failed(UserData), k)
    else if mtlLoad.LoadFailed? then (Failed(mtlLoad.code), k)
    else (NoError, k)
  }

  /** `create` succeeds exactly when every mesh loads, each is compatible
      with the one before, and the material loads; then it counts every
      mesh. */
  lemma CreateSucceedsIff(loads: seq<Loaded<Mesh>>, mtlLoad: Loaded<Material>, compatible: (Mesh, Mesh) -> bool)
    ensures CreateResult(loads, mtlLoad, compatible).0 == NoError
        <==> (forall i :: 0 <= i < |loads| ==> MeshAccepted(loads, compatible, i)) && mtlLoad.Loaded?
    ensures CreateResult(loads, mtlLoad, compatible).0 == NoError ==> CreateResult(loads, mtlLoad, compatible).1 == |loads|
  {
    var k := FirstRejected(loads, compatible, 0);
    if k < |loads| {
      assert !MeshAccepted(loads, compatible, k);
    }
  }

  /** When every mesh loads, `create` reports `USER_DATA` at the first mesh
      that is not compatible with its predecessor, having counted the
      meshes before it. */
  lemma CreateRejectsIncompatible(loads: seq<Loaded<Mesh>>, mtlLoad: Loaded<Material>, compatible: (Mesh, Mesh) -> bool, i: nat)
    requires forall j :: 0 <= j < |loads| ==> loads[j].Loaded?
    requires 0 < i < |loads| && !compatible(loads[i].value, loads[i - 1].value)
    requires forall j :: 0 < j < i ==> compatible(loads[j].value, loads[j - 1].value)
    ensures CreateResult(loads, mtlLoad, compatible) == (Failed(UserData), i)
  {
    assert !MeshAccepted(loads, compatible, i);
    assert forall j :: 0 <= j < i ==> MeshAccepted(loads, compatible, j);
    FirstRejectedUnique(loads, compatible, i);
  }

  /** A mesh-table slot after loading `load` into it. */
  function MeshSlot(load: Loaded<Mesh>): (slot: Option<Mesh>)
    ensures slot.Some? <==> load.Loaded?
    ensures slot.Some? ==> slot.value == load.value
  {
    match load
    case Loaded(m) => Some(m)
    case LoadFailed(_) => None
  }

  /** The slots `create` writes: the kept meshes, plus an incompatible
      mesh that was loaded before the check rejected it. */
  function MeshesStored(loads: seq<Loaded<Mesh>>, compatible: (Mesh, Mesh) -> bool): (n: nat)
    ensures n <= |loads|
    ensures forall j :: 0 <= j < n ==> loads[j].Loaded?
  {
    var k := FirstRejected(loads, compatible, 0);
    assert forall j :: 0 <= j < k ==> MeshAccepted(loads, compatible, j) && loads[j].Loaded?;
    if k < |loads| && loads[k].Loaded? then k + 1 else k
  }

  class ModelPatch {
    /** `m_meshes`: one slot per level of detail. */
    const meshes: array<Option<Mesh>>
    /** `m_meshCount`. */
    var meshCount: nat
    /** `m_mtl`. */
    var mtl: Option<Material>
    /** `m_pplines[pass][lod][tessellation]`. */
    const pplines: array3<Option<Pipeline>>
    /** Every key a pipeline was built for, in order of construction. */
    ghost var built: seq<RenderingKey>

    ghost predicate Valid()
      reads this, pplines
    {
      && meshes.Length == MaxLods
      && pplines.Length0 == PassCount && pplines.Length1 == MaxLods && pplines.Length2 == 2
      && meshCount <= MaxLods
      && MemoCoherent()
    }

    /** The table holds a pipeline exactly in the slots of the keys built so
        far, and no key was built twice. */
    ghost predicate MemoCoherent()
      reads this, pplines
      requires pplines.Length0 == PassCount && pplines.Length1 == MaxLods && pplines.Length2 == 2
    {
      && (forall p, l, t :: 0 <= p < PassCount && 0 <= l < MaxLods && 0 <= t < 2 ==>
            (pplines[p, l, t].Some? <==> SlotKey(p, l, t) in built))
      && (forall k :: k in built ==> k.lod < MaxLods)
      && (forall i, j :: 0 <= i < j < |built| ==> built[i] != built[j])
    }

    /** The patch after a successful `create`. */
    ghost predicate Ready()
      reads this, meshes, pplines
    {
      && Valid()
      && 1 <= meshCount
      && (forall i :: 0 <= i < meshCount ==> meshes[i].Some?)
      && mtl.Some?
    }

    /** The table entry for `key`. */
    ghost function Lookup(key: RenderingKey): Option<Pipeline>
      reads this, pplines
      requires Valid() && key.lod < MaxLods
    {
      pplines[PassIndex(key.pass), key.lod, TessIndex(key.tessellation)]
    }

    constructor ()
      ensures Valid() && fresh(meshes) && fresh(pplines)
      ensures meshCount == 0 && mtl == None && built == []
      ensures forall i :: 0 <= i < MaxLods ==> meshes[i] == None
      ensures forall p, l, t :: 0 <= p < PassCount && 0 <= l < MaxLods && 0 <= t < 2 ==> pplines[p, l, t] == None
    {
      meshes := new Option<Mesh>[MaxLods](_ => None);
      pplines := new Option<Pipeline>[PassCount, MaxLods, 2]((_, _, _) => None);
      meshCount := 0;
      mtl := None;
      built := [];
    }

    /** `ModelPatch::getLodCount`. */
    function LodCount(): (n: nat)
      reads this
      requires mtl.Some?
      ensures n >= meshCount && n >= mtl.value.lodCount
      ensures n == meshCount || n == mtl.value.lodCount
    {
      if meshCount < mtl.value.lodCount then mtl.value.lodCount else meshCount
    }

    /** `ModelPatch::create`: loads the meshes in order, stopping at the
        first that fails to load or is not compatible with the one before,
        then loads the material. The mesh and material loaders' answers are
        given. */
    method Create(meshLoads: seq<Loaded<Mesh>>, mtlLoad: Loaded<Material>, compatible: (Mesh, Mesh) -> bool)
      returns (err: Error)
      requires Valid()
      requires 0 < |meshLoads| <= MaxLods
      modifies this, meshes
      ensures Valid() && built == old(built)
      ensures (err, meshCount) == CreateResult(meshLoads, mtlLoad, compatible)
      ensures forall i :: 0 <= i < MaxLods ==>
        meshes[i] == if i < MeshesStored(meshLoads, compatible) then MeshSlot(meshLoads[i]) else old(meshes[i])
      ensures mtl == if err == NoError then Some(mtlLoad.value) else old(mtl)
      ensures err == NoError ==> Ready()
    {
      meshCount := 0;
      var i := 0;
      while i < |meshLoads|
        invariant i <= |meshLoads|
        invariant meshCount == i && mtl == old(mtl) && built == old(built)
        invariant forall j :: 0 <= j < i ==> MeshAccepted(meshLoads, compatible, j)
        invariant forall j :: 0 <= j < MaxLods ==>
          meshes[j] == if j < i then MeshSlot(meshLoads[j]) else old(meshes[j])
      {
        match meshLoads[i]
        case LoadFailed(code) =>
          FirstRejectedUnique(meshLoads, compatible, i);
          return Failed(code);
        case Loaded(m) =>
          meshes[i] := Some(m);
        if i > 0 {
          assert MeshAccepted(meshLoads, compatible, i - 1);
        }
        if i > 0 && !compatible(meshes[i].value, meshes[i - 1].value) {
          FirstRejectedUnique(meshLoads, compatible, i);
          return Failed(UserData);
        }
        meshCount := meshCount + 1;
        i := i + 1;
      }
      FirstRejectedUnique(meshLoads, compatible, i);
      match mtlLoad
      case LoadFailed(code) =>
        err := Failed(code);
      case Loaded(m) =>
        mtl := Some(m);
        err := NoError;
    }

    /** `ModelPatch::getPipeline`: the pipeline for `key`, built on the
        first request and returned from the table on every later one. */
    method GetPipeline(key: RenderingKey) returns (ppline: Pipeline)
      requires Ready()
      requires key.lod < mtl.value.lodCount
      requires key.tessellation ==> mtl.value.tessellationEnabled
      requires key.pass == Sm ==> mtl.value.shadowEnabled
      modifies pplines, this`built
      ensures Ready()
      ensures Lookup(key) == Some(ppline)
      ensures old(Lookup(key)).Some? ==> ppline == old(Lookup(key)).value && built == old(built)
      ensures old(Lookup(key)).None? ==>
        && ppline == Pipeline(PipelineInitializerFor(key, meshes[0].value, mtl.value))
        && built == old(built) + [key]
      ensures forall p, l, t ::
        (0 <= p < PassCount && 0 <= l < MaxLods && 0 <= t < 2
         && (p, l, t) != (PassIndex(key.pass), key.lod, TessIndex(key.tessellation))) ==>
          pplines[p, l, t] == old(pplines[p, l, t])
    {
      var p, l, t := PassIndex(key.pass), key.lod, TessIndex(key.tessellation);
      assert SlotKey(p, l, t) == key;
      if pplines[p, l, t].None? {
        pplines[p, l, t] := Some(Pipeline(PipelineInitializerFor(key, meshes[0].value, mtl.value)));
        built := built + [key];
      }
      ppline := pplines[p, l, t].value;
    }

    /** `ModelPatch::getRenderingDataSub`: the buffers of the mesh of the
        asked level of detail (clamped to the meshes there are), the
        pipeline for the key with its level of detail clamped to the
        material's, and the draw calls. With sub-mesh indices on a mesh
        that has sub-meshes the code reaches an unfinished branch and writes
        no draw call (`None`). */
    method GetRenderingDataSub(key: RenderingKey, subMeshIndices: seq<u8>)
      returns (vertBuff: nat, indexBuff: nat, ppline: Pipeline, drawcalls: Option<seq<SubDrawcall>>)
      requires Ready()
      requires key.tessellation ==> mtl.value.tessellationEnabled
      requires key.pass == Sm ==> mtl.value.shadowEnabled
      modifies pplines, this`built
      ensures Ready()
      ensures var mesh := meshes[ClampLod(key.lod, meshCount)].value;
        && vertBuff == mesh.vertexBuffer
        && indexBuff == mesh.indexBuffer
        && drawcalls == if |subMeshIndices| == 0 || mesh.subMeshesCount == 0
                        then Some([SubDrawcall(0, mesh.indicesCount)])
                        else None
      ensures var mtlKey := key.(lod := ClampLod(key.lod, mtl.value.lodCount));
        && Lookup(mtlKey) == Some(ppline)
        && (old(Lookup(mtlKey)).Some? ==> ppline == old(Lookup(mtlKey)).value && built == old(built))
        && (old(Lookup(mtlKey)).None? ==>
              && ppline == Pipeline(PipelineInitializerFor(mtlKey, meshes[0].value, mtl.value))
              && built == old(built) + [mtlKey])
        && (forall p, l, t ::
              (0 <= p < PassCount && 0 <= l < MaxLods && 0 <= t < 2
               && (p, l, t) != (PassIndex(mtlKey.pass), mtlKey.lod, TessIndex(mtlKey.tessellation))) ==>
                pplines[p, l, t] == old(pplines[p, l, t]))
    {
      var meshLod := ClampLod(key.lod, meshCount);
      var mesh := meshes[meshLod].value;
      vertBuff, indexBuff := mesh.vertexBuffer, mesh.indexBuffer;
      var mtlKey := key.(lod := ClampLod(key.lod, mtl.value.lodCount));
      ppline := GetPipeline(mtlKey);
      if |subMeshIndices| == 0 || mesh.subMeshesCount == 0 {
        drawcalls := Some([SubDrawcall(0, mesh.indicesCount)]);
      } else {
        drawcalls := None;
      }
    }
  }

  /** Asking twice for the same key builds one pipeline and returns it both
      times. */
  method GetPipelineTwice(patch: ModelPatch, key: RenderingKey) returns (first: Pipeline, second: Pipeline)
    requires patch.Ready()
    requires key.lod < patch.mtl.value.lodCount
    requires key.tessellation ==> patch.mtl.value.tessellationEnabled
    requires key.pass == Sm ==> patch.mtl.value.shadowEnabled
    modifies patch.pplines, patch`built
    ensures first == second
    ensures |patch.built| <= |old(patch.built)| + 1
    ensures key in patch.built
  {
    first := patch.GetPipeline(key);
    second := patch.GetPipeline(key);
  }
}
