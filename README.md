# Binding caches, lazy pipelines and deferred creation in the AnKi engine

This project models four small stateful parts of the AnKi 3D engine's
graphics layer in Dafny, and proves what each promises.

- **`ModelPatch`** (src/resource/Model.cpp). A patch of a model has one
  mesh per level of detail (LOD) and one material. `create` loads the
  meshes in order and rejects a mesh that is not compatible with the one
  before it. `getRenderingDataSub` clamps the requested LOD to what the
  meshes and the material have. `getPipeline` builds a pipeline for a
  (pass, LOD, tessellation) key only the first time that key is asked
  for, and stores it in a fixed table `m_pplines[pass][lod][tess]`.
  `computePipelineInitializer` is the rule table behind each pipeline: the
  vertex layout, the depth/stencil state and the colour attachments for
  each pass. `Model::load` is modelled only for how it counts patches and
  the meshes of each patch.
- **`Vao`** (include/anki/gl/Vao.h). A vertex array object, plus a
  per-thread record of which one is bound (`Vao::current`). Binding the
  bound VAO again, or unbinding a VAO that is not bound, makes no GL call.
- **`LensFlareComponent`** (src/scene/LensFlareComponent.cpp). A ring of
  occlusion queries, each with the frame at which it was last handed out
  for testing. A query's result may be read only when it was tested exactly
  two frames earlier. Frame numbers are 32-bit unsigned and wrap around.
- **Deferred sampler creation** (src/gr/gl/Sampler.cpp). `Sampler::create`
  records one `CreateSamplerCommand` on a new command buffer and flushes
  it. The thread that owns the GL context runs the command later: it
  builds the GL sampler from the initializer copied at recording time,
  then moves the object from `TO_BE_CREATED` to `CREATED`.

Files:

- `common.dfy`: shared types. Error codes, load outcomes, `U8`/`U32`, and
  subtraction and addition modulo 2^32.
- `pipeline_rules.dfy`: the pipeline rule table.
- `model_patch.dfy`: the `ModelPatch` class.
- `model_load.dfy`: patch and mesh counting in `Model::load`.
- `vao.dfy`, `lens_flare.dfy`, `sampler.dfy`: the other three components.

GL calls, resource loading and the frame clock are not run. They appear as
inputs, or as a ghost log of the calls made:

- A mesh, material or texture load is an input `Loaded(value)` or
  `LoadFailed(code)`.
- `Mesh::isCompatible` is an input relation.
- The name `glGenVertexArrays` returns is an input (never 0).
- The answer of each occlusion-query creation is an input.
- The global frame timestamp is an input.

The `Vao` tracker keeps a ghost log of the GL calls. It is proved
*coherent*: the VAO it believes is bound is the one the call log has
bound. `Bind`, `Unbind` and `Destroy` keep it coherent. `Create` keeps it
coherent only when the VAO is not the current one. Binding a VAO before it
is created records it as current under name 0. Once it is created, the
tracker believes its new name is bound while GL has 0 bound, and the next
`bind` makes no call (`BindBeforeCreate`). `destroy` does not reset
`glId`, so a destroyed VAO still reports itself as created.

## Model

| member | source | states |
|---|---|---|
| `Common.SubU32` | src/scene/LensFlareComponent.cpp:48 | `now - 2` on `U32` wraps: the result plus 2 is `now` modulo 2^32 |
| `PipelineRules.ComputePipelineInitializer` | src/resource/Model.cpp:148-227 | without bone weights, one 24-byte binding holding four packed attributes (position, normal, tangent, UV). The shadow pass uses the shadow depth format with polygon offset and no colour attachment. Depth writes are off exactly for forward shading outside the shadow pass. Forward shading gets one alpha-blended attachment. The deferred path gets the three material-stage targets in order |
| `PipelineRules.PackedOffsets` | src/resource/Model.cpp:161-180 | in a packed vertex layout the attribute offsets strictly increase and every attribute ends within the stride |
| `PipelineRules.PipelineInitializerFor` | src/resource/Model.cpp:122-138 | a built pipeline keeps the computed state. Vertex and fragment shaders are always set. Both tessellation shaders are set iff the key asks for tessellation. Each shader is the material's shader for that key and stage |
| `ModelPatches.ClampLod` | src/resource/Model.cpp:40-48 | the LOD used is below the count, never above the request, and equals the request when the request is in range: `min(lod, count - 1)` |
| `ModelPatches.ModelPatch.LodCount` | src/resource/Model.cpp:65-68 | the patch's LOD count is at least the mesh count and at least the material's LOD count, and equals one of them |
| `ModelPatches.FirstRejected` | src/resource/Model.cpp:80-92 | `create` stops at the first mesh that fails to load or is incompatible with its predecessor, and every mesh before that one is kept |
| `ModelPatches.CreateSucceedsIff` | src/resource/Model.cpp:76-97 | `create` returns no error iff every mesh loads, each is compatible with the one before, and the material loads. Then the mesh count equals the number of mesh names |
| `ModelPatches.CreateRejectsIncompatible` | src/resource/Model.cpp:84-89 | when all meshes load, `create` returns `USER_DATA` at the first mesh incompatible with its predecessor and counts only the meshes before it |
| `ModelPatches.ModelPatch.Create` | src/resource/Model.cpp:71-98 | the returned error and `m_meshCount` are those of `CreateResult`. The mesh slots written are the kept meshes plus a loaded but rejected one. The material is stored only on success, and then the patch is ready |
| `ModelPatches.ModelPatch.GetPipeline` | src/resource/Model.cpp:101-145 | requires the LOD below the material's LOD count, tessellation enabled when asked for, and shadows enabled for the shadow pass. An existing entry is returned with nothing built. A missing one is built from the key and stored. No other slot changes. The table always holds entries exactly for the keys built, each built once |
| `ModelPatches.GetPipelineTwice` | src/resource/Model.cpp:116-144 | two requests with the same key return the same pipeline and build at most one |
| `ModelPatches.ModelPatch.GetRenderingDataSub` | src/resource/Model.cpp:29-62 | buffers come from the mesh at the clamped LOD. The pipeline is the table entry for the key with the LOD clamped to the material. With no sub-mesh indices, or a mesh without sub-meshes, there is exactly one draw call: offset 0, count the mesh's index count. On a table miss the pipeline built is the one `getPipeline` builds for the clamped key. No other slot of the table changes |
| `ModelLoading.PatchMeshCount` | src/resource/Model.cpp:293-318 | each patch has between one and three meshes: one, plus one for each optional `<mesh1>` and `<mesh2>` |
| `ModelLoading.PatchMeshNamesAsWritten` | src/resource/Model.cpp:293-331 | the names handed to `create` as written: as many as `meshesCount`, from fixed slots 0, 1 and 2 |
| `ModelLoading.AsWrittenDropsMesh2` | src/resource/Model.cpp:300-331 | for every patch with `<mesh2>` but no `<mesh1>`, the names handed to `create` are `[mesh, <unset>]`, which differ from the present names whenever `<mesh2>` is not empty: `<mesh2>` is never loaded |
| `ModelLoading.AsWrittenDropsMesh2Example` | src/resource/Model.cpp:300-331 | the patch `<mesh>lod0.mesh</mesh><mesh2>lod2.mesh</mesh2>` hands `["lod0.mesh", <unset>]` to `create`, without `lod2.mesh` |
| `ModelLoading.PatchMeshNames` | src/resource/Model.cpp:293-318 | corrected names: `<mesh>` first, then `<mesh1>` and `<mesh2>` when present, `meshesCount` of them with no gap |
| `ModelLoading.PatchMeshNamesAgree` | src/resource/Model.cpp:293-331 | every corrected name comes from a present mesh element. The code as written agrees with the corrected names except when `<mesh2>` appears without `<mesh1>` |
| `ModelLoading.LoadPatchMeshNames` | src/resource/Model.cpp:264-338 | loading succeeds iff there is at least one patch and every patch has `<material>` and `<mesh>`. A missing one yields `USER_DATA`. On success there is one mesh list per patch, each of one to three names. Each list is the corrected `PatchMeshNames`. It equals the code's own list for every patch except one with `<mesh2>` but no `<mesh1>` |
| `VertexArrays.Vao.constructor` | include/anki/gl/Vao.h:24-27 | a new VAO has name 0 and is not created |
| `VertexArrays.Vao.IsCreated` | include/anki/gl/Vao.h:131-134 | a VAO counts as created exactly once `create` has run on it: a ghost flag set only by `Create` is proved to agree with the name being non-zero |
| `VertexArrays.Vao.GetGlId` | include/anki/gl/Vao.h:35-39 | only a created VAO has its name read, and that name is never 0 |
| `VertexArrays.Vao.Create` | include/anki/gl/Vao.h:42-48 | requires not created. Stores the generated name, after which the VAO counts as created, and logs one generate call. Leaves the binding alone |
| `VertexArrays.Vao.Bind` | include/anki/gl/Vao.h:107-115 | makes this VAO current. Logs one bind of its name iff it was not already current. Keeps the tracker coherent |
| `VertexArrays.Vao.Unbind` | include/anki/gl/Vao.h:117-125 | when current: logs a bind of 0 and clears `current`. Otherwise: no call and `current` unchanged |
| `VertexArrays.Vao.Destroy` | include/anki/gl/Vao.h:50-56 | requires created. Unbinds first, then logs the delete, so afterwards this VAO is not current |
| `VertexArrays.BindTwice` | include/anki/gl/Vao.h:108-115 | binding twice in a row logs at most one GL bind, and none when the VAO was already current |
| `VertexArrays.BindBeforeCreate` | include/anki/gl/Vao.h:42-115 | binding an uncreated VAO logs a bind of 0 and makes it current. After `create`, a second `bind` logs nothing. GL then has 0 bound while the VAO has a non-zero name, so the tracker is no longer coherent |
| `VertexArrays.DeviceBindingAfterOther` | include/anki/gl/Vao.h:42-56 | generating or deleting a name does not change which VAO GL has bound |
| `LensFlare.TestStep` | src/scene/LensFlareComponent.cpp:30-39 | handing out a query to test moves the cursor one slot on, wrapping to 0. Only the new cursor's slot is stamped, with the current frame. Every other stamp is unchanged |
| `LensFlare.LensFlareComponent.GetOcclusionQueryToTest` | src/scene/LensFlareComponent.cpp:30-39 | the ring advances as `TestStep` says and the query at the new cursor is returned |
| `LensFlare.CheckSlot` | src/scene/LensFlareComponent.cpp:42-57 | the slot after the cursor may be read iff its stamp is not `MAX_U32` and plus 2 (mod 2^32) is the current frame |
| `LensFlare.LensFlareComponent.GetOcclusionQueryToCheck` | src/scene/LensFlareComponent.cpp:42-57 | changes nothing. `queryInvalid` holds iff `CheckSlot` finds no readable slot. When invalid the caller's query is returned untouched, otherwise the query of that slot |
| `LensFlare.ReadableTwoFramesLater` | src/scene/LensFlareComponent.cpp:33-56 | with three queries and one test per frame, the query tested at frame t is the one readable at frame t + 2, for every t except `MAX_U32` |
| `LensFlare.TestedAtSentinelNotReadable` | src/scene/LensFlareComponent.cpp:33-51 | a query tested at frame `MAX_U32` is stamped with the sentinel, so it is not readable two frames later |
| `LensFlare.NothingReadableUnstamped` | src/scene/LensFlareComponent.cpp:47-51 | while every stamp is the `MAX_U32` sentinel, no query is readable at any frame |
| `LensFlare.LensFlareComponent.constructor` | src/scene/LensFlareComponent.cpp:47 | the initial state from the component's header, which is not part of this model (see "## Left out"). The sentinel test at this line assumes that state: cursor at 0, no query created, and every stamp the `MAX_U32` sentinel that means "never tested" |
| `LensFlare.CreateError` | src/scene/LensFlareComponent.cpp:13-27 | `create` returns no error iff the texture and every query were created. A texture failure is returned as is |
| `LensFlare.QueriesAttempted` | src/scene/LensFlareComponent.cpp:19-24 | no query is created when the texture load fails, and never more queries than the ring has |
| `LensFlare.LensFlareComponent.Create` | src/scene/LensFlareComponent.cpp:13-27 | returns the first error, or none. Queries are created in order up to and including the first failure, and none after it |
| `Samplers.Execute` | src/gr/gl/Sampler.cpp:33-46 | requires the prior state `TO_BE_CREATED`. Builds the payload from the captured initializer, then sets `CREATED`, in that order. Always returns no error |
| `Samplers.Sampler.Create` | src/gr/gl/Sampler.cpp:49-58 | installs a fresh implementation object waiting for creation. Flushes exactly one buffer, whose commands are exactly `[CreateSamplerCommand(this, init)]` |
| `Samplers.CommandBuffer.PushBack` | src/gr/gl/Sampler.cpp:55-56 | appends one command to a buffer that is still recording |
| `Samplers.CommandBuffer.Flush` | src/gr/gl/Sampler.cpp:57 | hands the recorded commands, in order, to the queue, and ends recording |
| `Samplers.CreateThenRun` | src/gr/gl/Sampler.cpp:25-58 | after creating and running the flushed command, the sampler is `CREATED` with a payload built from the initializer given at creation. Its state history is `TO_BE_CREATED`, `CREATED`, which steps forward |
| `Samplers.CreationStepsForward` | src/gr/gl/Sampler.cpp:33-46 | running the creation command on an object whose forward-only history stands at `TO_BE_CREATED` adds exactly `CREATED` to it and keeps it forward-only |
| `Samplers.SamplerImpl.CreatePayload` | src/gr/gl/Sampler.cpp:37 | builds the GL sampler from the given initializer and leaves the lifecycle state alone |
| `Samplers.SamplerImpl.SetStateAtomically` | src/gr/gl/Sampler.cpp:39-40 | stores the new state, returns the one it replaced, leaves the payload alone |
| `Samplers.ForwardOnlyFollowsLifecycle` | src/gr/gl/Sampler.cpp:39-43 | a state history that steps forward one state at a time follows NEW, TO_BE_CREATED, CREATED, TO_BE_DESTROYED, DESTROYED from its first state on. No state is skipped or revisited |

## Left out

- XML parsing in `Model::load` is left out. The document is a sequence of
  `<modelPatch>` elements, each reduced to which of its children are
  present. A missing child is taken to yield `USER_DATA`. The XML layer
  that reports it is not part of this model.
- `Model::load` also creates each patch, can fail to allocate one, can fail
  to read an element's text, and can fail to step to the next sibling.
  None of these is modelled here: patch creation is modelled by
  `ModelPatch.Create` on its own, and the other steps are taken to succeed.
- The bounding-shape compounding in `Model::load` is left out: it is
  floating-point geometry.
- `Model::~Model` is left out: it only frees memory.
- The two unfinished branches are modelled as a release build runs them.
  With bone weights the vertex state keeps its defaults. With sub-mesh
  indices on a mesh that has sub-meshes, no draw call is written (`None`).
  A debug build stops at an assertion in both.
- `PipelinePtr::create` records a creation command. Here a built pipeline
  is only its initializer.
- Constants and defaults from headers that are not part of this model
  are taken as follows:
  - `MAX_LODS` is 3;
  - the passes are `MS_FS` and `SM`;
  - a default colour attachment blends `ONE`/`ZERO`;
  - depth writes are enabled by default;
  - a default colour state has no attachment, which is what the `SM` pass
    gets;
  - the default polygon offset is zero, which is the `MS_FS` pass's.
- Pixel formats and the polygon-offset values (7.0 and 5.0) are opaque
  tags.
- `Vao` is modelled without a few things. `ANKI_CHECK_GL_ERROR` is not
  modelled. `getCurrentVertexArrayBinding` is left out because nothing
  calls it. `attachArrayBufferVbo`, `attachElementArrayBufferVbo` and
  `~Vao` are declared in the header but defined elsewhere.
- GL's rule that deleting the bound vertex array resets the binding to 0
  is not modelled. `destroy` always unbinds its own VAO first.
- `Vao::current` is thread-local. It is modelled as one tracker object
  passed to each call.
- The ring size of `LensFlareComponent` and the initial `MAX_U32` stamps
  come from its header. That header is not part of this model: the
  constructor takes the size and stamps every slot `MAX_U32`. The
  two-frame lemma is stated for a ring of three.
- The lens-flare texture is not modelled; only its load error is.
- Threads and atomics are left out. Flushing appends to a sequential queue.
  The thread that dequeues buffers and runs them in order is not part of
  this model; running a command is a direct call.
- The `GlObject` constructor is not part of this model. A new
  `SamplerImpl` is taken to start in `TO_BE_CREATED`.
- `ModelLoading.LoadPatchMeshNames` models the corrected program. It gives
  each patch the gap-free `PatchMeshNames`, not the code's list, which
  differs for a patch with `<mesh2>` but no `<mesh1>` (see Findings). The
  code's list is `PatchMeshNamesAsWritten`. The two are proved equal for
  every other patch.
- Allocation failure of the command buffer or of the implementation
  object is not modelled.
- The GL sampler built from the initializer is represented by that
  initializer.

## Findings

| source | as written | input that shows it | evidently intended | confidence | as-written member | corrected member |
|---|---|---|---|---|---|---|
| src/resource/Model.cpp:293-331 | The mesh count adds one for each of `<mesh1>` and `<mesh2>` separately. The names sit in fixed slots 1 and 2, and the first `meshesCount` slots go to `create`. | a `<modelPatch>` with `<mesh>` and `<mesh2>` but no `<mesh1>`: `create` gets `[mesh, <unset>]` and `<mesh2>` is dropped | hand `create` the present mesh names with no gap | medium, not executed | `ModelLoading.AsWrittenDropsMesh2` | `ModelLoading.PatchMeshNames` |
