/** The rule table of `ModelPatch::computePipelineInitializer` and the shader
    assignment of `ModelPatch::getPipeline` (src/resource/Model.cpp): which
    vertex layout, depth/stencil state, colour attachments and shaders a
    pipeline of a model patch gets for a rendering key. Pixel formats and
    the polygon-offset constants are opaque tags here. */
module PipelineRules {

  /** The render passes a model patch is drawn in: material stage (or
      forward shading) and shadow mapping. */
  datatype Pass = MsFs | Sm

  const PassCount: nat := 2

  /** Levels of detail a model patch and a material can have. */
  const MaxLods: nat := 3

  function PassIndex(p: Pass): (i: nat)
    ensures i < PassCount
  {
    match p
    case MsFs => 0
    case Sm => 1
  }

  /** The key a renderer asks a model patch for. */
  datatype RenderingKey = RenderingKey(pass: Pass, lod: nat, tessellation: bool)

  /** What the model needs to know of a mesh. */
  datatype Mesh = Mesh(
    vertexBuffer: nat,
    indexBuffer: nat,
    indicesCount: nat,
    subMeshesCount: nat,
    hasBoneWeights: bool)

  type LodCount = n: nat | 1 <= n <= MaxLods witness 1

  /** What the model needs to know of a material. */
  datatype Material = Material(
    lodCount: LodCount,
    tessellationEnabled: bool,
    shadowEnabled: bool,
    forwardShading: bool)

  //
  // Vertex state
  //

  datatype VertexFormat = R32G32B32Float | R10G10B10A2Snorm | R16G16Float

  /** Bytes one attribute of the format occupies. */
  function FormatSize(f: VertexFormat): (n: nat)
    ensures n > 0
  {
    match f
    case R32G32B32Float => 12
    case R10G10B10A2Snorm => 4
    case R16G16Float => 4
  }

  const Vec3Size: nat := 12
  const U32Size: nat := 4
  const HVec2Size: nat := 4

  datatype VertexAttribute = VertexAttribute(format: VertexFormat, offset: nat)

  /** `VertexStateInfo`: one stride per binding and the attributes, all of
      which read binding 0. */
  datatype VertexStateInfo = VertexStateInfo(strides: seq<nat>, attributes: seq<VertexAttribute>)

  const DefaultVertexState := VertexStateInfo([], [])

  /** A single binding whose attributes sit back to back, starting at
      offset 0 and filling the stride exactly. */
  ghost predicate Packed(v: VertexStateInfo)
  {
    var a := v.attributes;
    && |v.strides| == 1
    && |a| > 0
    && a[0].offset == 0
    && (forall i :: 0 <= i < |a| - 1 ==> a[i].offset + FormatSize(a[i].format) == a[i + 1].offset)
    && a[|a| - 1].offset + FormatSize(a[|a| - 1].format) == v.strides[0]
  }

  /** In a packed layout the offsets increase strictly and no attribute
      reaches past the stride. */
  lemma {:induction false} PackedOffsets(v: VertexStateInfo)
    requires Packed(v)
    ensures forall i, j :: 0 <= i < j < |v.attributes| ==> v.attributes[i].offset < v.attributes[j].offset
    ensures forall i :: 0 <= i < |v.attributes| ==>
      v.attributes[i].offset + FormatSize(v.attributes[i].format) <= v.strides[0]
  {
    var a := v.attributes;
    var n := |a|;
    forall i, j | 0 <= i < j < n ensures a[i].offset < a[j].offset {
      OffsetsGrow(v, i, j);
    }
    forall i | 0 <= i < n ensures a[i].offset + FormatSize(a[i].format) <= v.strides[0] {
      if i < n - 1 {
        OffsetsGrow(v, i + 1, n - 1);
      }
    }
  }

  lemma {:induction false} OffsetsGrow(v: VertexStateInfo, i: nat, j: nat)
    requires Packed(v)
    requires i <= j < |v.attributes|
    ensures v.attributes[i].offset + (if i < j then FormatSize(v.attributes[i].format) else 0)
      <= v.attributes[j].offset
    decreases j - i
  {
    if i < j {
      OffsetsGrow(v, i + 1, j);
    }
  }

  //
  // Depth/stencil state
  //

  /** Opaque tags for `Sm::DEPTH_RT_PIXEL_FORMAT` and `Ms::DEPTH_RT_PIXEL_FORMAT`. */
  datatype DepthFormat = SmDepthRtFormat | MsDepthRtFormat

  /** The shadow pass's polygon offset (factor 7, units 5) or none. */
  datatype PolygonOffset = NoPolygonOffset | ShadowPolygonOffset

  datatype DepthStencilStateInfo = DepthStencilStateInfo(
    format: DepthFormat,
    depthWriteEnabled: bool,
    polygonOffset: PolygonOffset)

  //
  // Colour state
  //

  /** Opaque tags for `Is::RT_PIXEL_FORMAT` and `Ms::RT_PIXEL_FORMATS[i]`. */
  datatype ColorFormat = IsRtFormat | MsRtFormat(index: nat)

  datatype BlendMethod = One | Zero | SrcAlpha | OneMinusSrcAlpha

  datatype ColorAttachment = ColorAttachment(format: ColorFormat, srcBlend: BlendMethod, dstBlend: BlendMethod)

  /** `ColorStateInfo`; the attachment count is the length of the sequence. */
  datatype ColorStateInfo = ColorStateInfo(attachments: seq<ColorAttachment>)

  /** `Ms::ATTACHMENT_COUNT`. */
  const MsAttachmentCount: nat := 3

  //
  // Shaders
  //

  datatype ShaderType = Vertex | TessellationControl | TessellationEvaluation | Fragment

  /** The shader the material hands out for a key and a stage
      (`Material::getShader(key, type)`). */
  datatype ShaderRef = ShaderRef(key: RenderingKey, stage: ShaderType)

  /** `PipelineInitializer`: the shader slots that are set form the map. */
  datatype PipelineInitializer = PipelineInitializer(
    vertex: VertexStateInfo,
    depthStencil: DepthStencilStateInfo,
    color: ColorStateInfo,
    shaders: map<ShaderType, ShaderRef>)

  /** True when the initializer blends one colour attachment by source
      alpha, as forward-shaded geometry does. */
  ghost predicate AlphaBlended(c: ColorStateInfo)
  {
    |c.attachments| == 1
    && c.attachments[0] == ColorAttachment(IsRtFormat, SrcAlpha, OneMinusSrcAlpha)
  }

  /** True when the colour state writes the material stage's three render
      targets, in order, without blending. */
  ghost predicate WritesGBuffer(c: ColorStateInfo)
  {
    |c.attachments| == MsAttachmentCount
    && forall i :: 0 <= i < |c.attachments| ==> c.attachments[i] == ColorAttachment(MsRtFormat(i), One, Zero)
  }

  /** `ModelPatch::computePipelineInitializer`: the state of a pipeline for
      `key`, given the patch's first mesh and its material. The shaders are
      left unset. A mesh with bone weights reaches an unfinished branch that
      leaves the vertex state at its defaults. */
  function ComputePipelineInitializer(key: RenderingKey, firstMesh: Mesh, mtl: Material): (r: PipelineInitializer)
    ensures r.shaders == map[]
    // Vertex layout: position, normal, tangent, texture coordinates,
    // packed into one 24-byte binding.
    ensures !firstMesh.hasBoneWeights ==>
      && Packed(r.vertex)
      && r.vertex.strides == [24]
      && |r.vertex.attributes| == 4
      && r.vertex.attributes[0].format == R32G32B32Float
      && r.vertex.attributes[1].format == R10G10B10A2Snorm
      && r.vertex.attributes[2].format == R10G10B10A2Snorm
      && r.vertex.attributes[3].format == R16G16Float
    ensures firstMesh.hasBoneWeights ==> r.vertex == DefaultVertexState
    // Depth: the shadow pass renders into the shadow map's format with a
    // polygon offset; every other pass uses the material stage's format.
    ensures r.depthStencil.format == (if key.pass == Sm then SmDepthRtFormat else MsDepthRtFormat)
    ensures r.depthStencil.polygonOffset == ShadowPolygonOffset <==> key.pass == Sm
    // Only forward-shaded geometry outside the shadow pass leaves depth unwritten.
    ensures !r.depthStencil.depthWriteEnabled <==> key.pass != Sm && mtl.forwardShading
    // Colour: none for shadows, one alpha-blended target for forward
    // shading, the three material-stage targets otherwise.
    ensures key.pass == Sm ==> r.color.attachments == []
    ensures key.pass != Sm && mtl.forwardShading ==> AlphaBlended(r.color)
    ensures key.pass != Sm && !mtl.forwardShading ==> WritesGBuffer(r.color)
  {
    var vertex :=
      if firstMesh.hasBoneWeights then DefaultVertexState
      else VertexStateInfo(
        [Vec3Size + 2 * U32Size + HVec2Size],
        [ VertexAttribute(R32G32B32Float, 0),
          VertexAttribute(R10G10B10A2Snorm, Vec3Size),
          VertexAttribute(R10G10B10A2Snorm, Vec3Size + U32Size),
          VertexAttribute(R16G16Float, Vec3Size + 2 * U32Size) ]);
    var depth :=
      if key.pass == Sm then DepthStencilStateInfo(SmDepthRtFormat, true, ShadowPolygonOffset)
      else if mtl.forwardShading then DepthStencilStateInfo(MsDepthRtFormat, false, NoPolygonOffset)
      else DepthStencilStateInfo(MsDepthRtFormat, true, NoPolygonOffset);
    var color :=
      if key.pass == Sm then ColorStateInfo([])
      else if mtl.forwardShading then ColorStateInfo([ColorAttachment(IsRtFormat, SrcAlpha, OneMinusSrcAlpha)])
      else ColorStateInfo([ColorAttachment(MsRtFormat(0), One, Zero),
                           ColorAttachment(MsRtFormat(1), One, Zero),
                           ColorAttachment(MsRtFormat(2), One, Zero)]);
    PipelineInitializer(vertex, depth, color, map[])
  }

  /** The initializer `getPipeline` builds for `key`: the computed state
      plus the material's shaders for the stages the key uses. */
  function PipelineInitializerFor(key: RenderingKey, firstMesh: Mesh, mtl: Material): (r: PipelineInitializer)
    ensures r.vertex == ComputePipelineInitializer(key, firstMesh, mtl).vertex
    ensures r.depthStencil == ComputePipelineInitializer(key, firstMesh, mtl).depthStencil
    ensures r.color == ComputePipelineInitializer(key, firstMesh, mtl).color
    ensures Vertex in r.shaders && Fragment in r.shaders
    ensures TessellationControl in r.shaders <==> key.tessellation
    ensures TessellationEvaluation in r.shaders <==> key.tessellation
    ensures forall st :: st in r.shaders ==> r.shaders[st] == ShaderRef(key, st)
  {
    var init := ComputePipelineInitializer(key, firstMesh, mtl);
    var shaders := map[Vertex := ShaderRef(key, Vertex)];
    var shaders :=
      if key.tessellation then
        shaders[TessellationControl := ShaderRef(key, TessellationControl)]
               [TessellationEvaluation := ShaderRef(key, TessellationEvaluation)]
      else shaders;
    init.(shaders := shaders[Fragment := ShaderRef(key, Fragment)])
  }
}
