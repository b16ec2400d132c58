/** The render node `MegaUiNode`: the input slots it declares, the pass descriptor it
    binds each frame, its lazily initialised pipeline state, its realised textures and
    its vertex and index buffers, and the per-frame update that reconciles textures,
    assembles the buffers and records the render pass. Each method is proved to
    perform a step specified by a function of modules Frame, Reconcile or Textures. */
module Node {
  import opened Engine
  import opened Lib
  import opened Frame
  import opened Reconcile
  import opened Textures

  /** The engine's `Msaa::color_attachment_descriptor`: the multisampled attachment
      gets a resolve target only when more than one sample is taken. */
  function MsaaColorAttachment(samples: nat, attachment: TextureAttachment, resolveTarget: TextureAttachment,
                               load: LoadOp, store: bool): ColorAttachment
  {
    ColorAttachment(attachment, if samples > 1 then Some(resolveTarget) else None, load, store)
  }

  /** The node's one colour attachment: loaded (the UI is drawn over the main pass)
      and stored. */
  function NodeColorAttachments(samples: nat): seq<ColorAttachment>
  {
    [MsaaColorAttachment(samples, Input(ColorAttachmentSlot), Input(ColorResolveTargetSlot), Load, true)]
  }

  /** The depth attachment: cleared to 1.0 and stored; no stencil operations. */
  function NodeDepthAttachment(): DepthAttachment
  {
    DepthAttachment(Input(DepthSlot), ClearDepth(1.0), true)
  }

  /** The input slots declared for the colour attachments, in order: each
      attachment's slot, then its resolve target's, when they are graph inputs. */
  function AttachmentInputs(atts: seq<ColorAttachment>): seq<string>
  {
    if atts == [] then []
    else
      var a := atts[|atts| - 1];
      AttachmentInputs(atts[..|atts| - 1])
        + (if a.attachment.Input? then [a.attachment.name] else [])
        + (if a.resolveTarget.Some? && a.resolveTarget.value.Input? then [a.resolveTarget.value.name] else [])
  }

  /** All input slots of the node: the colour ones, then the depth slot. */
  function NodeInputs(samples: nat): seq<string>
  {
    AttachmentInputs(NodeColorAttachments(samples)) + [DepthSlot]
  }

  /** `index` is the input slot of `attachment` exactly when that attachment is a
      graph input, and the slot carries the attachment's name. */
  predicate NamesSlot(index: Option<nat>, attachment: Option<TextureAttachment>, inputs: seq<string>)
  {
    && (index.Some? <==> attachment.Some? && attachment.value.Input?)
    && (index.Some? ==> index.value < |inputs| && inputs[index.value] == attachment.value.name)
  }

  /** The node's input slots are exactly the slots the plugin wires: with
      multisampling the colour attachment, the resolve target and depth, otherwise
      the colour attachment and depth; every one of them is fed by an edge, and
      every slot edge the plugin adds ends at one of them. */
  lemma NodeInputsFedByPlugin(samples: nat)
    ensures NodeInputs(samples) == if samples > 1 then [ColorAttachmentSlot, ColorResolveTargetSlot, DepthSlot]
                                                  else [ColorAttachmentSlot, DepthSlot]
    ensures forall i :: 0 <= i < |NodeInputs(samples)| ==> SlotSource(PluginGraphEdges(samples), NodeInputs(samples)[i]).Some?
    ensures forall e :: e in PluginGraphEdges(samples) && e.SlotEdge? ==> e.to == MegaUiPass && e.inputSlot in NodeInputs(samples)
  {
    MsaaSlotWiring(samples);
    assert NodeColorAttachments(samples)[..0] == [];
  }

  /** The texture bound to input slot `index` this frame. */
  predicate SlotProvided(index: Option<nat>, slots: seq<Option<GpuId>>)
  {
    index.Some? ==> index.value < |slots| && slots[index.value].Some?
  }

  /** A colour attachment once the frame's inputs are bound: its texture and
      resolve target replaced by the slot textures when they are graph inputs, and
      its load operation set to the clear colour when it is one of the
      default-clear attachments and a clear colour is configured. */
  function AttachedColor(a: ColorAttachment, k: nat, colorIndex: Option<nat>, resolveIndex: Option<nat>,
                         defaults: seq<nat>, clearColor: Option<(real, real, real, real)>, slots: seq<Option<GpuId>>): ColorAttachment
    requires SlotProvided(colorIndex, slots) && SlotProvided(resolveIndex, slots)
  {
    ColorAttachment(
      if colorIndex.Some? then Id(slots[colorIndex.value].value) else a.attachment,
      if resolveIndex.Some? then Some(Id(slots[resolveIndex.value].value)) else a.resolveTarget,
      if k in defaults && clearColor.Some? then ClearColor(clearColor.value.0, clearColor.value.1, clearColor.value.2, clearColor.value.3) else a.load,
      a.store)
  }

  /** The calls `update_buffers` makes: release the previous buffers, then create
      the vertex buffer (id `id`) and the index buffer (id `id + 1`). */
  function BufferCalls(oldVertex: Option<GpuId>, oldIndex: Option<GpuId>, id: GpuId, vertices: seq<Vertex>, indices: seq<int>): seq<GpuCall>
  {
    (if oldVertex.Some? then [RemoveBuffer(oldVertex.value)] else [])
    + (if oldIndex.Some? then [RemoveBuffer(oldIndex.value)] else [])
    + [CreateBuffer(id, VertexUsage, VertexData(vertices)), CreateBuffer(id + 1, IndexUsage, IndexData(indices))]
  }

  /** The per-frame assembly loop of `update`: the vertex stream, the index stream
      rebased by the running `u16` offset, and one draw command per list with its
      texture resolved against the registry. */
  method AssembleBuffers(lists: seq<DrawList>, registry: map<U32, Handle>, font: Handle)
    returns (vertices: seq<Vertex>, indices: seq<U16>, cmds: seq<DrawCommand>)
    requires IndicesFit(lists)
    ensures vertices == VertexStream(lists)
    ensures indices == IndexStream(lists)
    ensures cmds == Commands(lists, registry, font)
  {
    vertices := [];
    indices := [];
    cmds := [];
    var indexOffset: U16 := 0;
    for k := 0 to |lists|
      invariant vertices == VertexStream(lists[..k])
      invariant indices == IndexStream(lists[..k])
      invariant cmds == Commands(lists[..k], registry, font)
      invariant indexOffset == TotalVertices(lists[..k])
    {
      var list := lists[k];
      PrefixStep(lists, k);
      CommandsStep(lists, registry, font, k);
      AssemblyBounds(lists, k);
      var textureHandle: Option<Handle>;
      if list.texture.Some? {
        textureHandle := if list.texture.value in registry then Some(registry[list.texture.value]) else None;
      } else {
        textureHandle := Some(font);
      }
      for v := 0 to |list.vertices|
        invariant vertices == VertexStream(lists[..k]) + list.vertices[..v]
      {
        vertices := vertices + [list.vertices[v]];
      }
      assert list.vertices[..|list.vertices|] == list.vertices;
      var withOffset: seq<U16> := seq(|list.indices|, j requires 0 <= j < |list.indices| => list.indices[j] + indexOffset);
      assert withOffset == Rebase(list.indices, indexOffset);
      indices := indices + withOffset;
      indexOffset := indexOffset + |list.vertices|;
      cmds := cmds + [DrawCommand(|list.indices|, textureHandle, list.clippingZone)];
    }
    assert lists[..|lists|] == lists;
  }

  /** `copy_texture`: stage the asset's pixels in a copy-source buffer, copy them
      into the resource's texture over its cached extent, and free the buffer. */
  method CopyTexture(rc: RenderContext, resource: TextureResource, asset: TextureAsset)
    modifies rc
    ensures rc.log == old(rc.log) + CopyCalls(old(rc.nextId), resource, asset)
    ensures rc.nextId == old(rc.nextId) + 1
  {
    var buffer := rc.NewBuffer(CopySrc, PixelData(asset.data));
    rc.Record(CopyBufferToTexture(buffer, resource.texture, resource.descriptor.size));
    rc.Record(RemoveBuffer(buffer));
  }

  class MegaUiNode {
    var passDescriptor: PassDescriptor
    var pipelineDescriptor: Option<PipelineHandle>
    var inputs: seq<string>
    var colorAttachmentInputIndices: seq<Option<nat>>
    var colorResolveTargetIndices: seq<Option<nat>>
    var depthStencilAttachmentInputIndex: Option<nat>
    var defaultClearColorInputs: seq<nat>

    var transformBindGroupDescriptor: Option<BindGroupDescriptor>
    var transformBindGroup: Option<BindGroup>

    const fontTexture: Handle
    var textureBindGroupDescriptor: Option<BindGroupDescriptor>
    var textureResources: map<Handle, TextureResource>

    var vertexBuffer: Option<GpuId>
    var indexBuffer: Option<GpuId>

    /** Every realised texture's bind group holds its own texture and sampler. */
    predicate ResourcesBound()
      reads this`textureResources
    {
      Bound(textureResources)
    }

    /** The slot tables match the pass's attachments, the depth attachment exists
        when it has a slot, and the bind-group layouts are known once the pipeline is. */
    predicate Shaped()
      reads this`passDescriptor, this`colorAttachmentInputIndices, this`colorResolveTargetIndices,
            this`depthStencilAttachmentInputIndex, this`pipelineDescriptor,
            this`transformBindGroupDescriptor, this`textureBindGroupDescriptor
    {
      && |colorAttachmentInputIndices| == |passDescriptor.colorAttachments|
      && |colorResolveTargetIndices| == |passDescriptor.colorAttachments|
      && (depthStencilAttachmentInputIndex.Some? ==> passDescriptor.depthStencil.Some?)
      && (pipelineDescriptor.Some? ==> transformBindGroupDescriptor.Some? && textureBindGroupDescriptor.Some?)
    }

    /** The node's invariant: it is shaped and its realised textures are bound
        consistently. */
    predicate Valid()
      reads this
    {
      Shaped() && ResourcesBound()
    }

    /** Before the first frame binds textures: every slot index names the input slot
        of the attachment it belongs to. */
    predicate SlotsNamed()
      reads this
    {
      && |colorAttachmentInputIndices| == |passDescriptor.colorAttachments|
      && |colorResolveTargetIndices| == |passDescriptor.colorAttachments|
      && (forall k :: 0 <= k < |passDescriptor.colorAttachments| ==>
            NamesSlot(colorAttachmentInputIndices[k], Some(passDescriptor.colorAttachments[k].attachment), inputs))
      && (forall k :: 0 <= k < |passDescriptor.colorAttachments| ==>
            NamesSlot(colorResolveTargetIndices[k], passDescriptor.colorAttachments[k].resolveTarget, inputs))
      && passDescriptor.depthStencil.Some?
      && NamesSlot(depthStencilAttachmentInputIndex, Some(passDescriptor.depthStencil.value.attachment), inputs)
    }

    /** Every input slot the frame reads carries a texture. */
    predicate SlotsProvided(slots: seq<Option<GpuId>>)
      reads this
    {
      && SlotProvided(depthStencilAttachmentInputIndex, slots)
      && (forall k :: 0 <= k < |colorAttachmentInputIndices| ==> SlotProvided(colorAttachmentInputIndices[k], slots))
      && (forall k :: 0 <= k < |colorResolveTargetIndices| ==> SlotProvided(colorResolveTargetIndices[k], slots))
    }

    /** `MegaUiNode::new`: the pass descriptor for the MSAA sample count, one input
        slot per graph-input attachment in attachment order, and no pipeline,
        bind groups, textures or buffers yet. */
    constructor (samples: nat, fontTexture: Handle)
      ensures passDescriptor == PassDescriptor(NodeColorAttachments(samples), Some(NodeDepthAttachment()), samples)
      ensures inputs == NodeInputs(samples)
      ensures SlotsNamed() && Valid()
      ensures pipelineDescriptor.None? && transformBindGroupDescriptor.None? && transformBindGroup.None?
      ensures textureBindGroupDescriptor.None? && textureResources == map[]
      ensures defaultClearColorInputs == [] && vertexBuffer.None? && indexBuffer.None?
      ensures this.fontTexture == fontTexture
    {
      var colorAttachments := NodeColorAttachments(samples);
      var depthAttachment := NodeDepthAttachment();
      var ins: seq<string> := [];
      var colorIndices: seq<Option<nat>> := [];
      var resolveIndices: seq<Option<nat>> := [];
      for i := 0 to |colorAttachments|
        invariant ins == AttachmentInputs(colorAttachments[..i])
        invariant |colorIndices| == i && |resolveIndices| == i
        invariant forall k :: 0 <= k < i ==> NamesSlot(colorIndices[k], Some(colorAttachments[k].attachment), ins)
        invariant forall k :: 0 <= k < i ==> NamesSlot(resolveIndices[k], colorAttachments[k].resolveTarget, ins)
      {
        var a := colorAttachments[i];
        assert colorAttachments[..i + 1][..i] == colorAttachments[..i];
        if a.attachment.Input? {
          colorIndices := colorIndices + [Some(|ins|)];
          ins := ins + [a.attachment.name];
        } else {
          colorIndices := colorIndices + [None];
        }
        if a.resolveTarget.Some? && a.resolveTarget.value.Input? {
          resolveIndices := resolveIndices + [Some(|ins|)];
          ins := ins + [a.resolveTarget.value.name];
        } else {
          resolveIndices := resolveIndices + [None];
        }
      }
      assert colorAttachments[..|colorAttachments|] == colorAttachments;
      var depthIndex: Option<nat> := None;
      if depthAttachment.attachment.Input? {
        depthIndex := Some(|ins|);
        ins := ins + [depthAttachment.attachment.name];
      }
      passDescriptor := PassDescriptor(colorAttachments, Some(depthAttachment), samples);
      pipelineDescriptor := None;
      defaultClearColorInputs := [];
      inputs := ins;
      depthStencilAttachmentInputIndex := depthIndex;
      colorAttachmentInputIndices := colorIndices;
      transformBindGroupDescriptor := None;
      transformBindGroup := None;
      this.fontTexture := fontTexture;
      textureBindGroupDescriptor := None;
      textureResources := map[];
      vertexBuffer := None;
      indexBuffer := None;
      colorResolveTargetIndices := resolveIndices;
    }

    /** `process_attachments`: bind this frame's slot textures into the pass
        descriptor (depth attachment, colour attachments, resolve targets). */
    method ProcessAttachments(slots: seq<Option<GpuId>>, clearColor: Option<(real, real, real, real)>)
      requires Valid() && SlotsProvided(slots)
      modifies this`passDescriptor
      ensures Valid()
      ensures passDescriptor.sampleCount == old(passDescriptor.sampleCount)
      ensures passDescriptor.depthStencil ==
        if depthStencilAttachmentInputIndex.Some?
        then Some(old(passDescriptor.depthStencil.value).(attachment := Id(slots[depthStencilAttachmentInputIndex.value].value)))
        else old(passDescriptor.depthStencil)
      ensures |passDescriptor.colorAttachments| == |old(passDescriptor.colorAttachments)|
      ensures forall k :: 0 <= k < |passDescriptor.colorAttachments| ==>
        passDescriptor.colorAttachments[k] == AttachedColor(old(passDescriptor.colorAttachments[k]), k,
          colorAttachmentInputIndices[k], colorResolveTargetIndices[k], defaultClearColorInputs, clearColor, slots)
    {
      if depthStencilAttachmentInputIndex.Some? {
        var depth := passDescriptor.depthStencil.value;
        passDescriptor := passDescriptor.(depthStencil := Some(depth.(attachment := Id(slots[depthStencilAttachmentInputIndex.value].value))));
      }
      for i := 0 to |passDescriptor.colorAttachments|
        invariant |passDescriptor.colorAttachments| == |old(passDescriptor.colorAttachments)|
        invariant passDescriptor.sampleCount == old(passDescriptor.sampleCount)
        invariant passDescriptor.depthStencil ==
          if depthStencilAttachmentInputIndex.Some?
          then Some(old(passDescriptor.depthStencil.value).(attachment := Id(slots[depthStencilAttachmentInputIndex.value].value)))
          else old(passDescriptor.depthStencil)
        invariant forall k :: 0 <= k < i ==>
          passDescriptor.colorAttachments[k] == AttachedColor(old(passDescriptor.colorAttachments[k]), k,
            colorAttachmentInputIndices[k], colorResolveTargetIndices[k], defaultClearColorInputs, clearColor, slots)
        invariant forall k :: i <= k < |passDescriptor.colorAttachments| ==>
          passDescriptor.colorAttachments[k] == old(passDescriptor.colorAttachments[k])
      {
        var a := passDescriptor.colorAttachments[i];
        if i in defaultClearColorInputs && clearColor.Some? {
          var c := clearColor.value;
          a := a.(load := ClearColor(c.0, c.1, c.2, c.3));
        }
        if colorAttachmentInputIndices[i].Some? {
          a := a.(attachment := Id(slots[colorAttachmentInputIndices[i].value].value));
        }
        if colorResolveTargetIndices[i].Some? {
          a := a.(resolveTarget := Some(Id(slots[colorResolveTargetIndices[i].value].value)));
        }
        passDescriptor := passDescriptor.(colorAttachments := passDescriptor.colorAttachments[i := a]);
      }
    }

    /** `init_pipeline`: on the first frame only, record the compiled pipeline and
        the layouts of the bind groups that declare the transform and the texture
        bindings; later frames change nothing. */
    method InitPipeline(compiled: PipelineHandle, layout: PipelineLayout)
      requires Valid()
      requires pipelineDescriptor.None? ==>
        && FindBindGroupByBindingName(layout.bindGroups, MegaUiTransformBindingName).Some?
        && FindBindGroupByBindingName(layout.bindGroups, MegaUiTextureBindingName).Some?
      modifies this`pipelineDescriptor, this`transformBindGroupDescriptor, this`textureBindGroupDescriptor
      ensures Valid()
      ensures old(pipelineDescriptor).Some? ==>
        && pipelineDescriptor == old(pipelineDescriptor)
        && transformBindGroupDescriptor == old(transformBindGroupDescriptor)
        && textureBindGroupDescriptor == old(textureBindGroupDescriptor)
      ensures old(pipelineDescriptor).None? ==>
        && pipelineDescriptor == Some(compiled)
        && transformBindGroupDescriptor == FindBindGroupByBindingName(layout.bindGroups, MegaUiTransformBindingName)
        && textureBindGroupDescriptor == FindBindGroupByBindingName(layout.bindGroups, MegaUiTextureBindingName)
    {
      if pipelineDescriptor.Some? {
        return;
      }
      var transformGroup := FindBindGroupByBindingName(layout.bindGroups, MegaUiTransformBindingName);
      var textureGroup := FindBindGroupByBindingName(layout.bindGroups, MegaUiTextureBindingName);
      pipelineDescriptor := Some(compiled);
      transformBindGroupDescriptor := Some(transformGroup.value);
      textureBindGroupDescriptor := Some(textureGroup.value);
    }

    /** `init_transform_bind_group`: build the transform bind group (the transform
        uniform at slot 0) the first time, and create it on the GPU every frame. */
    method InitTransformBindGroup(rc: RenderContext, transformBinding: ResourceBinding)
      requires Valid() && transformBindGroupDescriptor.Some?
      modifies this`transformBindGroup, rc
      ensures Valid()
      ensures transformBindGroup == if old(transformBindGroup).None? then Some(BindGroup([(0, transformBinding)])) else old(transformBindGroup)
      ensures rc.log == old(rc.log) + [CreateBindGroup(transformBindGroupDescriptor.value.id, transformBindGroup.value)]
      ensures rc.nextId == old(rc.nextId)
    {
      if transformBindGroup.None? {
        transformBindGroup := Some(BindGroup([(0, transformBinding)]));
      }
      rc.Record(CreateBindGroup(transformBindGroupDescriptor.value.id, transformBindGroup.value));
    }

    /** `remove_texture`. */
    method RemoveTexture(rc: RenderContext, h: Handle)
      modifies this`textureResources, rc
      ensures GpuState(textureResources, rc.log, rc.nextId) == RemoveStep(old(GpuState(textureResources, rc.log, rc.nextId)), h)
    {
      if h !in textureResources {
        return;
      }
      var resource := textureResources[h];
      textureResources := textureResources - {h};
      rc.Record(GpuCall.RemoveTexture(resource.texture));
      rc.Record(RemoveSampler(resource.sampler));
    }

    /** `update_texture`. */
    method UpdateTexture(rc: RenderContext, asset: TextureAsset, h: Handle)
      modifies this`textureResources, rc
      ensures GpuState(textureResources, rc.log, rc.nextId) == UpdateStep(old(GpuState(textureResources, rc.log, rc.nextId)), h, asset)
    {
      if h !in textureResources {
        return;
      }
      var resource := textureResources[h];
      if DescriptorOf(asset) != resource.descriptor {
        RemoveTexture(rc, h);
        return;
      }
      CopyTexture(rc, resource, asset);
    }

    /** `create_texture`. */
    method CreateTexture(rc: RenderContext, assets: map<Handle, TextureAsset>, h: Handle)
      requires textureBindGroupDescriptor.Some?
      modifies this`textureResources, rc
      ensures GpuState(textureResources, rc.log, rc.nextId)
           == CreateStep(old(GpuState(textureResources, rc.log, rc.nextId)), h, assets, textureBindGroupDescriptor.value.id)
    {
      var layoutId := textureBindGroupDescriptor.value.id;
      if h in textureResources {
        rc.Record(CreateBindGroup(layoutId, textureResources[h].bindGroup));
        return;
      }
      if h !in assets {
        return;
      }
      var asset := assets[h];
      var descriptor := DescriptorOf(asset);
      var texture := rc.NewTexture(descriptor);
      var sampler := rc.NewSampler(asset.sampler);
      var bindGroup := BindGroup([(0, TextureBinding(texture)), (1, SamplerBinding(sampler))]);
      rc.Record(CreateBindGroup(layoutId, bindGroup));
      var resource := TextureResource(descriptor, texture, sampler, bindGroup);
      CopyTexture(rc, resource, asset);
      textureResources := textureResources[h := resource];
    }

    /** `process_asset_events`: apply the frame's texture events in order, then the
        queued updates in hash-map order. */
    method ProcessAssetEvents(rc: RenderContext, ctx: MegaUiContext, events: seq<AssetEvent>, assets: map<Handle, TextureAsset>)
      modifies this`textureResources, rc, ctx`textures
      ensures var s0 := EventState(old(ctx.textures), old(textureResources), {});
        var s := ApplyEvents(s0, events, assets);
        && ctx.textures == s.registry
        && textureResources == DropStale(s.resources, s.changed, assets)
        && exists order :: Enumerates(order, s.changed) && (forall i :: 0 <= i < |order| ==> order[i] in assets)
             && GpuState(textureResources, rc.log, rc.nextId)
                == UpdateAll(GpuState(s.resources, old(rc.log) + EventCalls(s0, events, assets), old(rc.nextId)), order, assets)
    {
      ghost var s0 := EventState(ctx.textures, textureResources, {});
      ghost var log0 := rc.log;
      var changed: set<Handle> := {};
      for i := 0 to |events|
        invariant EventState(ctx.textures, textureResources, changed) == ApplyEvents(s0, events[..i], assets)
        invariant rc.log == log0 + EventCalls(s0, events[..i], assets)
        invariant rc.nextId == old(rc.nextId)
      {
        var ev := events[i];
        var h := ev.handle;
        assert events[..i + 1][..i] == events[..i];
        if h in textureResources {
          match ev {
            case Created(_) =>
            case Modified(_) =>
              if h in assets {
                changed := changed + {h};
              }
            case Removed(_) =>
              ctx.RemoveTexture(h);
              RemoveTexture(rc, h);
              changed := changed - {h};
          }
        }
      }
      assert events[..|events|] == events;
      ApplyEventsShrinks(s0, events, assets);
      ghost var s := ApplyEvents(s0, events, assets);
      ghost var g1 := GpuState(textureResources, rc.log, rc.nextId);
      var remaining := changed;
      ghost var order: seq<Handle> := [];
      while remaining != {}
        invariant remaining <= changed
        invariant ctx.textures == s.registry
        invariant Enumerates(order, changed - remaining)
        invariant forall i :: 0 <= i < |order| ==> order[i] in assets && order[i] !in remaining
        invariant GpuState(textureResources, rc.log, rc.nextId) == UpdateAll(g1, order, assets)
        decreases remaining
      {
        var h :| h in remaining;
        EnumeratesExtend(order, changed, remaining, h);
        UpdateTexture(rc, assets[h], h);
        assert (order + [h])[..|order|] == order;
        order := order + [h];
        remaining := remaining - {h};
      }
      assert changed - remaining == changed;
      UpdateAllIsDropStale(g1, order, changed, assets);
    }

    /** `remove_unused_textures`: collect, in hash-map order, the realised textures
        that are neither the font atlas nor registered, then remove them. */
    method RemoveUnusedTextures(rc: RenderContext, ctx: MegaUiContext)
      modifies this`textureResources, rc
      ensures textureResources == KeepUsed(old(textureResources), ctx.textures, ctx.fontTexture)
      ensures exists order :: (Enumerates(order, set h | h in old(textureResources) && h !in ctx.textures.Values && h != ctx.fontTexture)
        && GpuState(textureResources, rc.log, rc.nextId) == RemoveAll(old(GpuState(textureResources, rc.log, rc.nextId)), order))
    {
      var textureHandles := ctx.textures.Values;
      var toRemove: seq<Handle> := [];
      var remaining := textureResources.Keys;
      while remaining != {}
        invariant remaining <= textureResources.Keys
        invariant Enumerates(toRemove, set h | h in textureResources && h !in remaining && h !in textureHandles && h != ctx.fontTexture)
        invariant forall i :: 0 <= i < |toRemove| ==> toRemove[i] !in remaining
        decreases remaining
      {
        var h :| h in remaining;
        if h !in textureHandles && ctx.fontTexture != h {
          toRemove := toRemove + [h];
        }
        remaining := remaining - {h};
      }
      ghost var g0 := GpuState(textureResources, rc.log, rc.nextId);
      for i := 0 to |toRemove|
        invariant GpuState(textureResources, rc.log, rc.nextId) == RemoveAll(g0, toRemove[..i])
      {
        RemoveTexture(rc, toRemove[i]);
        assert toRemove[..i + 1][..i] == toRemove[..i];
      }
      assert toRemove[..|toRemove|] == toRemove;
      RemoveUnusedIsKeepUsed(g0, toRemove, ctx.textures, ctx.fontTexture);
    }

    /** `init_textures`: create the font atlas, then every registered texture in
        hash-map order. */
    method InitTextures(rc: RenderContext, ctx: MegaUiContext, assets: map<Handle, TextureAsset>)
      requires textureBindGroupDescriptor.Some?
      modifies this`textureResources, rc
      ensures InitializedFrom(old(textureResources), textureResources, Wanted(ctx.textures, fontTexture), assets)
      ensures InitSequence(old(GpuState(textureResources, rc.log, rc.nextId)), GpuState(textureResources, rc.log, rc.nextId),
                           ctx.textures, fontTexture, assets, textureBindGroupDescriptor.value.id)
    {
      ghost var g0 := GpuState(textureResources, rc.log, rc.nextId);
      var layoutId := textureBindGroupDescriptor.value.id;
      CreateTexture(rc, assets, fontTexture);
      assert [fontTexture][..0] == [];
      var remaining := ctx.textures.Keys;
      ghost var ids: seq<U32> := [];
      while remaining != {}
        invariant remaining <= ctx.textures.Keys
        invariant Enumerates(ids, ctx.textures.Keys - remaining)
        invariant forall i :: 0 <= i < |ids| ==> ids[i] in ctx.textures && ids[i] !in remaining
        invariant GpuState(textureResources, rc.log, rc.nextId) == CreateAll(g0, [fontTexture] + HandlesOf(ids, ctx.textures), assets, layoutId)
        decreases remaining
      {
        var id :| id in remaining;
        EnumeratesExtend(ids, ctx.textures.Keys, remaining, id);
        CreateTexture(rc, assets, ctx.textures[id]);
        ghost var before := [fontTexture] + HandlesOf(ids, ctx.textures);
        assert (ids + [id])[..|ids|] == ids;
        assert [fontTexture] + HandlesOf(ids + [id], ctx.textures) == before + [ctx.textures[id]];
        assert (before + [ctx.textures[id]])[..|before|] == before;
        ids := ids + [id];
        remaining := remaining - {id};
      }
      assert ctx.textures.Keys - remaining == ctx.textures.Keys;
      assert InitSequence(g0, GpuState(textureResources, rc.log, rc.nextId), ctx.textures, fontTexture, assets, layoutId);
      InitSequenceInitializes(g0, GpuState(textureResources, rc.log, rc.nextId), ctx.textures, fontTexture, assets, layoutId);
    }

    /** `update_buffers`. */
    method UpdateBuffers(rc: RenderContext, vertices: seq<Vertex>, indices: seq<U16>)
      modifies this`vertexBuffer, this`indexBuffer, rc
      ensures rc.log == old(rc.log) + BufferCalls(old(vertexBuffer), old(indexBuffer), old(rc.nextId), vertices, indices)
      ensures vertexBuffer == Some(old(rc.nextId)) && indexBuffer == Some(old(rc.nextId) + 1)
      ensures rc.nextId == old(rc.nextId) + 2
    {
      if vertexBuffer.Some? {
        var buffer := vertexBuffer.value;
        vertexBuffer := None;
        rc.Record(RemoveBuffer(buffer));
      }
      if indexBuffer.Some? {
        var buffer := indexBuffer.value;
        indexBuffer := None;
        rc.Record(RemoveBuffer(buffer));
      }
      var v := rc.NewBuffer(VertexUsage, VertexData(vertices));
      vertexBuffer := Some(v);
      var i := rc.NewBuffer(IndexUsage, IndexData(indices));
      indexBuffer := Some(i);
    }

    /** The pass a frame records for the draw lists `rendered` when the realised
        textures are visited in `order`. */
    ghost function FramePass(order: seq<Handle>, rendered: seq<DrawList>, registry: map<U32, Handle>, font: Handle): seq<PassCommand>
      requires pipelineDescriptor.Some? && vertexBuffer.Some? && indexBuffer.Some?
      requires transformBindGroupDescriptor.Some? && transformBindGroup.Some? && textureBindGroupDescriptor.Some?
      requires forall i :: 0 <= i < |order| ==> order[i] in textureResources
      reads this
    {
      PassPrelude(pipelineDescriptor.value, vertexBuffer.value, indexBuffer.value,
                  transformBindGroupDescriptor.value.id, transformBindGroup.value)
      + TouchAll(order, textureResources, textureBindGroupDescriptor.value.id)
      + DrawPass(Commands(rendered, registry, font), textureResources, textureBindGroupDescriptor.value.id)
    }

    /** The keep-alive part of the pass: every realised texture's bind group at
        slot 1, in hash-map order. */
    method RecordTouches(layoutId: nat) returns (touches: seq<PassCommand>, ghost order: seq<Handle>)
      ensures Enumerates(order, textureResources.Keys) && (forall i :: 0 <= i < |order| ==> order[i] in textureResources)
      ensures touches == TouchAll(order, textureResources, layoutId)
    {
      touches := [];
      var remaining := textureResources.Keys;
      order := [];
      while remaining != {}
        invariant remaining <= textureResources.Keys
        invariant Enumerates(order, textureResources.Keys - remaining)
        invariant forall i :: 0 <= i < |order| ==> order[i] in textureResources && order[i] !in remaining
        invariant touches == TouchAll(order, textureResources, layoutId)
        decreases remaining
      {
        var h :| h in remaining;
        EnumeratesExtend(order, textureResources.Keys, remaining, h);
        touches := touches + [SetBindGroup(1, layoutId, textureResources[h].bindGroup)];
        assert TouchAll(order + [h], textureResources, layoutId) == TouchAll(order, textureResources, layoutId) + [SetBindGroup(1, layoutId, textureResources[h].bindGroup)];
        order := order + [h];
        remaining := remaining - {h};
      }
      assert textureResources.Keys - remaining == textureResources.Keys;
    }

    /** The per-command part of the pass: the draw commands walked with a running
        offset, each drawn when its texture is realised. */
    method RecordDraws(cmds: seq<DrawCommand>, layoutId: nat) returns (draws: seq<PassCommand>)
      ensures draws == DrawPass(cmds, textureResources, layoutId)
    {
      draws := [];
      var vertexOffset: nat := 0;
      for i := 0 to |cmds|
        invariant vertexOffset == IndexCount(cmds[..i])
        invariant draws == DrawPass(cmds[..i], textureResources, layoutId)
      {
        var c := cmds[i];
        assert cmds[..i + 1][..i] == cmds[..i];
        if c.textureHandle.Some? && c.textureHandle.value in textureResources {
          var resource := textureResources[c.textureHandle.value];
          draws := draws + [SetBindGroup(1, layoutId, resource.bindGroup)];
          if c.clippingZone.Some? {
            draws := draws + [SetScissor(ClipZone(c.clippingZone.value))];
          } else {
            draws := draws + [SetScissor(FullWindow)];
          }
          draws := draws + [DrawIndexed(vertexOffset, vertexOffset + c.verticesCount, 0, 0, 1)];
        }
        vertexOffset := vertexOffset + c.verticesCount;
      }
      assert cmds[..|cmds|] == cmds;
    }

    /** The commands of the render pass: the prelude, the keep-alive binding of
        every realised texture in hash-map order, then the draw commands walked
        with a running offset. */
    method RecordPass(cmds: seq<DrawCommand>) returns (pass: seq<PassCommand>, ghost order: seq<Handle>)
      requires pipelineDescriptor.Some? && vertexBuffer.Some? && indexBuffer.Some?
      requires transformBindGroupDescriptor.Some? && transformBindGroup.Some? && textureBindGroupDescriptor.Some?
      ensures Enumerates(order, textureResources.Keys) && (forall i :: 0 <= i < |order| ==> order[i] in textureResources)
      ensures pass == PassPrelude(pipelineDescriptor.value, vertexBuffer.value, indexBuffer.value,
                                  transformBindGroupDescriptor.value.id, transformBindGroup.value)
                      + TouchAll(order, textureResources, textureBindGroupDescriptor.value.id)
                      + DrawPass(cmds, textureResources, textureBindGroupDescriptor.value.id)
    {
      var layoutId := textureBindGroupDescriptor.value.id;
      pass := [SetPipeline(pipelineDescriptor.value)];
      pass := pass + [SetVertexBuffer(0, vertexBuffer.value, 0)];
      pass := pass + [SetIndexBuffer(indexBuffer.value, 0)];
      pass := pass + [SetBindGroup(0, transformBindGroupDescriptor.value.id, transformBindGroup.value)];
      ghost var prelude := pass;
      assert prelude == PassPrelude(pipelineDescriptor.value, vertexBuffer.value, indexBuffer.value,
                                    transformBindGroupDescriptor.value.id, transformBindGroup.value);
      var touches;
      touches, order := RecordTouches(layoutId);
      var draws := RecordDraws(cmds, layoutId);
      pass := pass + touches + draws;
    }

    /** The first texture steps of `update`: asset events and queued updates, then
        garbage collection. */
    method CollectTextures(rc: RenderContext, ctx: MegaUiContext, events: seq<AssetEvent>, assets: map<Handle, TextureAsset>)
      requires Valid()
      modifies this`textureResources, rc, ctx`textures
      ensures Valid()
      ensures var s := ApplyEvents(EventState(old(ctx.textures), old(textureResources), {}), events, assets);
        && ctx.textures == s.registry
        && textureResources == KeepUsed(DropStale(s.resources, s.changed, assets), s.registry, ctx.fontTexture)
    {
      ghost var s0 := EventState(ctx.textures, textureResources, {});
      ghost var s := ApplyEvents(s0, events, assets);
      ApplyEventsShrinks(s0, events, assets);
      ProcessAssetEvents(rc, ctx, events, assets);
      RemoveUnusedTextures(rc, ctx);
      assert Bound(textureResources) by {
        forall h | h in textureResources
          ensures textureResources[h] == old(textureResources)[h]
        {
        }
      }
    }

    /** The texture part of `update`: asset events and queued updates, garbage
        collection, then creation. The realised textures are then exactly those of
        the reconciliation of module Reconcile. */
    method ReconcileTextures(rc: RenderContext, ctx: MegaUiContext, events: seq<AssetEvent>, assets: map<Handle, TextureAsset>)
      requires Valid() && textureBindGroupDescriptor.Some?
      modifies this`textureResources, rc, ctx`textures
      ensures Valid()
      ensures var s := ApplyEvents(EventState(old(ctx.textures), old(textureResources), {}), events, assets);
        && ctx.textures == s.registry
        && InitializedFrom(KeepUsed(DropStale(s.resources, s.changed, assets), s.registry, ctx.fontTexture),
                           textureResources, Wanted(s.registry, fontTexture), assets)
    {
      CollectTextures(rc, ctx, events, assets);
      ghost var kept := textureResources;
      InitTextures(rc, ctx, assets);
      InitializedStaysBound(kept, textureResources, Wanted(ctx.textures, fontTexture), assets);
    }

    /** The upload part of `update`: let the IMGUI render its draw lists, take them
        out of the context, then assemble and upload the vertex and index buffers. */
    method UploadFrame(rc: RenderContext, ctx: MegaUiContext, rendered: seq<DrawList>)
      returns (uiDrawLists: seq<DrawList>, cmds: seq<DrawCommand>)
      requires IndicesFit(rendered)
      modifies this`vertexBuffer, this`indexBuffer, rc, ctx`drawLists
      ensures uiDrawLists == rendered && ctx.drawLists == []
      ensures cmds == Commands(rendered, ctx.textures, ctx.fontTexture)
      ensures vertexBuffer == Some(old(rc.nextId)) && indexBuffer == Some(old(rc.nextId) + 1)
      ensures rc.nextId == old(rc.nextId) + 2
      ensures rc.log == old(rc.log) + BufferCalls(old(vertexBuffer), old(indexBuffer), old(rc.nextId), VertexStream(rendered), IndexStream(rendered))
    {
      ctx.RenderDrawLists(rendered);
      uiDrawLists := ctx.drawLists;
      ctx.drawLists := [];
      var vertices, indices;
      vertices, indices, cmds := AssembleBuffers(uiDrawLists, ctx.textures, ctx.fontTexture);
      UpdateBuffers(rc, vertices, indices);
    }

    /** The drawing part of `update`: upload the frame's buffers, record the pass,
        put the draw lists back and start the IMGUI's next frame. */
    method DrawFrame(rc: RenderContext, ctx: MegaUiContext, rendered: seq<DrawList>, deltaSeconds: real)
      requires Valid() && pipelineDescriptor.Some? && transformBindGroup.Some?
      requires IndicesFit(rendered)
      modifies this`vertexBuffer, this`indexBuffer, rc, ctx`drawLists, ctx`uiCalls
      ensures Valid()
      ensures ctx.drawLists == rendered
      ensures ctx.uiCalls == old(ctx.uiCalls) + [NewFrame(deltaSeconds)]
      ensures vertexBuffer == Some(old(rc.nextId)) && indexBuffer == Some(old(rc.nextId) + 1)
      ensures rc.nextId == old(rc.nextId) + 2
      ensures exists order :: (Enumerates(order, textureResources.Keys) && (forall i :: 0 <= i < |order| ==> order[i] in textureResources)
        && rc.log == old(rc.log)
             + BufferCalls(old(vertexBuffer), old(indexBuffer), old(rc.nextId), VertexStream(rendered), IndexStream(rendered))
             + [BeginPass(passDescriptor, FramePass(order, rendered, ctx.textures, ctx.fontTexture))])
    {
      var uiDrawLists, cmds := UploadFrame(rc, ctx, rendered);
      ghost var logBefore := rc.log;
      var pass, order := RecordPass(cmds);
      assert pass == FramePass(order, rendered, ctx.textures, ctx.fontTexture);
      rc.Record(BeginPass(passDescriptor, pass));
      ctx.drawLists := uiDrawLists;
      ctx.uiCalls := ctx.uiCalls + [NewFrame(deltaSeconds)];
      assert rc.log == logBefore + [BeginPass(passDescriptor, FramePass(order, rendered, ctx.textures, ctx.fontTexture))];
    }

    /** The set-up part of `update`: bind the slot textures, initialise the pipeline
        on the first frame, and create the transform bind group. */
    method Prepare(rc: RenderContext, slots: seq<Option<GpuId>>, clearColor: Option<(real, real, real, real)>,
                   compiled: PipelineHandle, layout: PipelineLayout, transformBinding: ResourceBinding)
      requires Valid() && SlotsProvided(slots)
      requires pipelineDescriptor.None? ==>
        && FindBindGroupByBindingName(layout.bindGroups, MegaUiTransformBindingName).Some?
        && FindBindGroupByBindingName(layout.bindGroups, MegaUiTextureBindingName).Some?
      modifies this`passDescriptor, this`pipelineDescriptor, this`transformBindGroupDescriptor,
               this`textureBindGroupDescriptor, this`transformBindGroup, rc
      ensures Valid() && pipelineDescriptor.Some? && textureBindGroupDescriptor.Some? && transformBindGroup.Some?
      ensures passDescriptor.sampleCount == old(passDescriptor.sampleCount)
      ensures passDescriptor.depthStencil ==
        if depthStencilAttachmentInputIndex.Some?
        then Some(old(passDescriptor.depthStencil.value).(attachment := Id(slots[depthStencilAttachmentInputIndex.value].value)))
        else old(passDescriptor.depthStencil)
      ensures |passDescriptor.colorAttachments| == |old(passDescriptor.colorAttachments)|
      ensures forall k :: 0 <= k < |passDescriptor.colorAttachments| ==>
        passDescriptor.colorAttachments[k] == AttachedColor(old(passDescriptor.colorAttachments[k]), k,
          colorAttachmentInputIndices[k], colorResolveTargetIndices[k], defaultClearColorInputs, clearColor, slots)
      ensures old(pipelineDescriptor).Some? ==> pipelineDescriptor == old(pipelineDescriptor)
      ensures old(pipelineDescriptor).None? ==> pipelineDescriptor == Some(compiled)
      ensures old(pipelineDescriptor).Some? ==>
        && transformBindGroupDescriptor == old(transformBindGroupDescriptor)
        && textureBindGroupDescriptor == old(textureBindGroupDescriptor)
      ensures old(pipelineDescriptor).None? ==>
        && transformBindGroupDescriptor == FindBindGroupByBindingName(layout.bindGroups, MegaUiTransformBindingName)
        && textureBindGroupDescriptor == FindBindGroupByBindingName(layout.bindGroups, MegaUiTextureBindingName)
      ensures transformBindGroup == if old(transformBindGroup).None? then Some(BindGroup([(0, transformBinding)])) else old(transformBindGroup)
      ensures rc.log == old(rc.log) + [CreateBindGroup(transformBindGroupDescriptor.value.id, transformBindGroup.value)]
      ensures rc.nextId == old(rc.nextId)
    {
      ProcessAttachments(slots, clearColor);
      InitPipeline(compiled, layout);
      InitTransformBindGroup(rc, transformBinding);
    }

    /** The per-frame work of `update` once the pipeline exists: reconcile the
        textures, then draw. */
    method Render(rc: RenderContext, ctx: MegaUiContext, events: seq<AssetEvent>, assets: map<Handle, TextureAsset>,
                  rendered: seq<DrawList>, deltaSeconds: real)
      requires Valid() && pipelineDescriptor.Some? && transformBindGroup.Some?
      requires IndicesFit(rendered)
      modifies this`textureResources, this`vertexBuffer, this`indexBuffer, rc, ctx`textures, ctx`drawLists, ctx`uiCalls
      ensures Valid()
      ensures var s := ApplyEvents(EventState(old(ctx.textures), old(textureResources), {}), events, assets);
        && ctx.textures == s.registry
        && InitializedFrom(KeepUsed(DropStale(s.resources, s.changed, assets), s.registry, ctx.fontTexture),
                           textureResources, Wanted(s.registry, fontTexture), assets)
      ensures ctx.drawLists == rendered && ctx.uiCalls == old(ctx.uiCalls) + [NewFrame(deltaSeconds)]
      ensures vertexBuffer.Some? && indexBuffer.Some? && indexBuffer.value == vertexBuffer.value + 1
      ensures exists prefix, order :: (Enumerates(order, textureResources.Keys) && (forall i :: 0 <= i < |order| ==> order[i] in textureResources)
        && rc.log == prefix
             + BufferCalls(old(vertexBuffer), old(indexBuffer), vertexBuffer.value, VertexStream(rendered), IndexStream(rendered))
             + [BeginPass(passDescriptor, FramePass(order, rendered, ctx.textures, ctx.fontTexture))])
    {
      ReconcileTextures(rc, ctx, events, assets);
      ghost var prefix := rc.log;
      DrawFrame(rc, ctx, rendered, deltaSeconds);
    }

    /** `update`, the node's per-frame entry point, with the engine resources it
        reads passed in: the slot textures, the configured clear colour, the
        compiled pipeline and its layout, the transform uniform binding, the
        frame's texture events, the loaded texture assets, the draw lists the IMGUI
        renders and the frame delta. */
    method Update(rc: RenderContext, ctx: MegaUiContext, slots: seq<Option<GpuId>>, clearColor: Option<(real, real, real, real)>,
                  compiled: PipelineHandle, layout: PipelineLayout, transformBinding: ResourceBinding,
                  events: seq<AssetEvent>, assets: map<Handle, TextureAsset>, rendered: seq<DrawList>, deltaSeconds: real)
      requires Valid() && SlotsProvided(slots)
      requires pipelineDescriptor.None? ==>
        && FindBindGroupByBindingName(layout.bindGroups, MegaUiTransformBindingName).Some?
        && FindBindGroupByBindingName(layout.bindGroups, MegaUiTextureBindingName).Some?
      requires IndicesFit(rendered)
      modifies this`passDescriptor, this`pipelineDescriptor, this`transformBindGroupDescriptor,
               this`textureBindGroupDescriptor, this`transformBindGroup, this`textureResources,
               this`vertexBuffer, this`indexBuffer, rc, ctx`textures, ctx`drawLists, ctx`uiCalls
      ensures Valid()
      ensures passDescriptor.sampleCount == old(passDescriptor.sampleCount)
      ensures passDescriptor.depthStencil ==
        if depthStencilAttachmentInputIndex.Some?
        then Some(old(passDescriptor.depthStencil.value).(attachment := Id(slots[depthStencilAttachmentInputIndex.value].value)))
        else old(passDescriptor.depthStencil)
      ensures |passDescriptor.colorAttachments| == |old(passDescriptor.colorAttachments)|
      ensures forall k :: 0 <= k < |passDescriptor.colorAttachments| ==>
        passDescriptor.colorAttachments[k] == AttachedColor(old(passDescriptor.colorAttachments[k]), k,
          colorAttachmentInputIndices[k], colorResolveTargetIndices[k], defaultClearColorInputs, clearColor, slots)
      ensures old(pipelineDescriptor).Some? ==> pipelineDescriptor == old(pipelineDescriptor)
      ensures old(pipelineDescriptor).None? ==> pipelineDescriptor == Some(compiled)
      ensures old(pipelineDescriptor).Some? ==>
        && transformBindGroupDescriptor == old(transformBindGroupDescriptor)
        && textureBindGroupDescriptor == old(textureBindGroupDescriptor)
      ensures old(pipelineDescriptor).None? ==>
        && transformBindGroupDescriptor == FindBindGroupByBindingName(layout.bindGroups, MegaUiTransformBindingName)
        && textureBindGroupDescriptor == FindBindGroupByBindingName(layout.bindGroups, MegaUiTextureBindingName)
      ensures transformBindGroup == if old(transformBindGroup).None? then Some(BindGroup([(0, transformBinding)])) else old(transformBindGroup)
      ensures var s := ApplyEvents(EventState(old(ctx.textures), old(textureResources), {}), events, assets);
        && ctx.textures == s.registry
        && InitializedFrom(KeepUsed(DropStale(s.resources, s.changed, assets), s.registry, ctx.fontTexture),
                           textureResources, Wanted(s.registry, fontTexture), assets)
      ensures ctx.drawLists == rendered && ctx.uiCalls == old(ctx.uiCalls) + [NewFrame(deltaSeconds)]
      ensures vertexBuffer.Some? && indexBuffer.Some? && indexBuffer.value == vertexBuffer.value + 1
      ensures exists prefix, order :: (Enumerates(order, textureResources.Keys) && (forall i :: 0 <= i < |order| ==> order[i] in textureResources)
        && rc.log == prefix
             + BufferCalls(old(vertexBuffer), old(indexBuffer), vertexBuffer.value, VertexStream(rendered), IndexStream(rendered))
             + [BeginPass(passDescriptor, FramePass(order, rendered, ctx.textures, ctx.fontTexture))])
    {
      Prepare(rc, slots, clearColor, compiled, layout, transformBinding);
      Render(rc, ctx, events, assets, rendered, deltaSeconds);
    }
  }
}
