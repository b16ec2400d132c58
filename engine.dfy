/** The collaborators of the bridge, reduced to what the bridge observes of them:
    the game engine's asset handles, texture assets and asset events, its render
    context (kept as a log of the GPU calls made on it), the render-pass commands,
    and the immediate-mode UI library (its draw lists as input, the calls made on
    it as a log). */
module Engine {

  datatype Option<+T> = None | Some(value: T)

  /** Rust's `u16` and `u32`. */
  type U16 = x: int | 0 <= x < 0x1_0000
  type U32 = x: int | 0 <= x < 0x1_0000_0000

  /** An asset handle. Strong and weak handles to the same asset compare equal,
      so only the asset id is modelled. */
  datatype Handle = Handle(id: nat)

  /** Ids handed out by the render resource context (textures, samplers, buffers). */
  type GpuId = nat

  datatype Point = Point(x: real, y: real)
  datatype Rect = Rect(x: real, y: real, w: real, h: real)

  /** One IMGUI vertex: position, texture coordinates and colour. */
  datatype Vertex = Vertex(pos: (real, real, real), uv: (real, real), color: (real, real, real, real))

  /** One batch of triangles produced by the IMGUI: indices refer to this list's own
      vertices; `texture` is the user texture id, absent for the font atlas. */
  datatype DrawList = DrawList(
    vertices: seq<Vertex>,
    indices: seq<U16>,
    texture: Option<U32>,
    clippingZone: Option<Rect>)

  datatype TextureFormat = Rgba8Unorm | OtherFormat(code: nat)
  datatype TextureDimension = D1 | D2 | D3
  datatype Extent3d = Extent3d(width: nat, height: nat, depth: nat)
  datatype SamplerDescriptor = SamplerDescriptor(code: nat)

  /** What the GPU texture is created from; compared to detect incompatible edits. */
  datatype TextureDescriptor = TextureDescriptor(size: Extent3d, dimension: TextureDimension, format: TextureFormat)

  /** A loaded texture asset: its pixels and the sampler it asks for. */
  datatype TextureAsset = TextureAsset(
    size: Extent3d,
    dimension: TextureDimension,
    format: TextureFormat,
    data: seq<bv8>,
    sampler: SamplerDescriptor)

  /** The engine's `From<&Texture> for TextureDescriptor`, restricted to the fields
      it copies from the asset. */
  function DescriptorOf(t: TextureAsset): TextureDescriptor
  {
    TextureDescriptor(t.size, t.dimension, t.format)
  }

  datatype AssetEvent = Created(handle: Handle) | Modified(handle: Handle) | Removed(handle: Handle)

  /** One resource bound into a bind group. */
  datatype ResourceBinding = TextureBinding(texture: GpuId) | SamplerBinding(sampler: GpuId) | UniformBinding(buffer: GpuId)

  /** A built bind group: its (slot, resource) pairs. Its id is derived from these,
      so the value stands for the id. */
  datatype BindGroup = BindGroup(bindings: seq<(nat, ResourceBinding)>)

  datatype BindingDescriptor = BindingDescriptor(name: string, index: nat)
  datatype BindGroupDescriptor = BindGroupDescriptor(index: nat, bindings: seq<BindingDescriptor>, id: nat)
  datatype PipelineLayout = PipelineLayout(bindGroups: seq<BindGroupDescriptor>)
  datatype PipelineHandle = PipelineHandle(id: nat)

  datatype TextureAttachment = Input(name: string) | Id(texture: GpuId)
  datatype LoadOp = Load | ClearDepth(depth: real) | ClearColor(r: real, g: real, b: real, a: real)
  datatype ColorAttachment = ColorAttachment(attachment: TextureAttachment, resolveTarget: Option<TextureAttachment>, load: LoadOp, store: bool)
  datatype DepthAttachment = DepthAttachment(attachment: TextureAttachment, depthLoad: LoadOp, depthStore: bool)
  datatype PassDescriptor = PassDescriptor(colorAttachments: seq<ColorAttachment>, depthStencil: Option<DepthAttachment>, sampleCount: nat)

  /** The scissor rectangle, reduced to "the command's clip zone" or "the whole
      physical window"; the scaling by the window's scale factor is not modelled. */
  datatype Scissor = ClipZone(zone: Rect) | FullWindow

  /** The commands recorded into a render pass. */
  datatype PassCommand =
    | SetPipeline(pipeline: PipelineHandle)
    | SetVertexBuffer(slot: nat, buffer: GpuId, offset: nat)
    | SetIndexBuffer(buffer: GpuId, offset: nat)
    | SetBindGroup(index: nat, descriptorId: nat, group: BindGroup)
    | SetScissor(scissor: Scissor)
    | DrawIndexed(start: nat, end: nat, baseVertex: int, instanceStart: nat, instanceEnd: nat)

  datatype BufferUsage = CopySrc | VertexUsage | IndexUsage

  /** What a buffer is filled with; the vertex buffer's byte layout (three floats of
      position, two of texture coordinates, four of colour per vertex) and the
      index buffer's `u16` encoding are abstracted to the values they encode. */
  datatype BufferContents = PixelData(bytes: seq<bv8>) | VertexData(vertices: seq<Vertex>) | IndexData(indices: seq<int>)

  /** The calls the bridge makes on the render context / render resource context. */
  datatype GpuCall =
    | CreateTexture(texture: GpuId, descriptor: TextureDescriptor)
    | CreateSampler(sampler: GpuId, samplerDescriptor: SamplerDescriptor)
    | RemoveTexture(texture: GpuId)
    | RemoveSampler(sampler: GpuId)
    | CreateBindGroup(descriptorId: nat, group: BindGroup)
    | CreateBuffer(buffer: GpuId, usage: BufferUsage, contents: BufferContents)
    | RemoveBuffer(buffer: GpuId)
    | CopyBufferToTexture(buffer: GpuId, texture: GpuId, size: Extent3d)
    | BeginPass(passDescriptor: PassDescriptor, commands: seq<PassCommand>)

  /** The render context: every call made on it is appended to `log`; resources it
      creates get ids from a counter, so each id is new. */
  class RenderContext {
    var log: seq<GpuCall>
    var nextId: nat

    constructor ()
      ensures log == [] && nextId == 0
    {
      log := [];
      nextId := 0;
    }

    method NewTexture(descriptor: TextureDescriptor) returns (id: GpuId)
      modifies this
      ensures id == old(nextId) && nextId == id + 1
      ensures log == old(log) + [CreateTexture(id, descriptor)]
    {
      id := nextId;
      nextId := nextId + 1;
      log := log + [CreateTexture(id, descriptor)];
    }

    method NewSampler(sampler: SamplerDescriptor) returns (id: GpuId)
      modifies this
      ensures id == old(nextId) && nextId == id + 1
      ensures log == old(log) + [CreateSampler(id, sampler)]
    {
      id := nextId;
      nextId := nextId + 1;
      log := log + [CreateSampler(id, sampler)];
    }

    method NewBuffer(usage: BufferUsage, contents: BufferContents) returns (id: GpuId)
      modifies this
      ensures id == old(nextId) && nextId == id + 1
      ensures log == old(log) + [CreateBuffer(id, usage, contents)]
    {
      id := nextId;
      nextId := nextId + 1;
      log := log + [CreateBuffer(id, usage, contents)];
    }

    /** A call that creates no new resource id. */
    method Record(call: GpuCall)
      requires !call.CreateTexture? && !call.CreateSampler? && !call.CreateBuffer?
      modifies this
      ensures nextId == old(nextId)
      ensures log == old(log) + [call]
    {
      log := log + [call];
    }
  }

  /** Engine key codes the bridge reads (`Back` and `Return` are the engine's names
      for Backspace and Enter); every other key is `OtherKey`. */
  datatype Key =
    | LShift | RShift | LControl | RControl
    | Up | Down | Right | Left | Home | End | Delete | Back | Return | Tab
    | Z | Y | C | X | V | A
    | OtherKey(code: nat)

  /** IMGUI key codes. */
  datatype UiKey =
    | UiUp | UiDown | UiRight | UiLeft | UiHome | UiEnd | UiDelete | UiBackspace | UiEnter | UiTab
    | UiZ | UiY | UiC | UiX | UiV | UiA

  datatype MouseButton = LeftButton | RightButton | MiddleButton | OtherButton(code: nat)

  /** The calls the bridge makes on the IMGUI instance. */
  datatype UiCall =
    | MouseMove(position: Point)
    | MouseDown(position: Point)
    | MouseUp(position: Point)
    | CharEvent(ch: char, shift: bool, ctrl: bool)
    | KeyDown(key: UiKey, shift: bool, ctrl: bool)
    | NewFrame(deltaSeconds: real)
    | Window(windowId: nat, position: Point, size: Point, labelText: string, titlebar: bool, movable: bool, closeButton: bool)
}
