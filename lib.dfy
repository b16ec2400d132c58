/** The context store and the plugin's pure parts: the user texture registry,
    window parameter defaults, the bind-group search and the render-graph wiring. */
module Lib {
  import opened Engine

  const MegaUiTransformBindingName: string := "MegaUiTransform"
  const MegaUiTextureBindingName: string := "MegaUiTexture_texture"

  /** The input slot names of the megaui pass node. */
  const ColorAttachmentSlot: string := "color_attachment"
  const ColorResolveTargetSlot: string := "color_resolve_target"
  const DepthSlot: string := "depth"

  /** The per-process context: the font atlas handle, the user registry from
      texture ids to handles, the draw lists of the current frame, the cached
      pointer position and the calls made so far on the IMGUI instance
      (everything else about the IMGUI is outside the model). */
  class MegaUiContext {
    const fontTexture: Handle
    var drawLists: seq<DrawList>
    var textures: map<U32, Handle>
    var mousePosition: Point
    var uiCalls: seq<UiCall>

    /** A fresh context: no registered textures, no draw lists, pointer at (0, 0). */
    constructor (fontTexture: Handle)
      ensures this.fontTexture == fontTexture
      ensures textures == map[] && drawLists == []
      ensures mousePosition == Point(0.0, 0.0)
      ensures uiCalls == []
    {
      this.fontTexture := fontTexture;
      drawLists := [];
      textures := map[];
      mousePosition := Point(0.0, 0.0);
      uiCalls := [];
    }

    /** Opens an IMGUI window; absent parameters take the defaults of
        EffectiveParams. The body closure runs inside the IMGUI and is not modelled. */
    method DrawWindow(id: nat, position: Point, size: Point, params: Option<WindowParams>)
      modifies this`uiCalls
      ensures var p := EffectiveParams(params);
        uiCalls == old(uiCalls) + [Window(id, position, size, p.labelText, p.titlebar, p.movable, p.closeButton)]
    {
      var p := EffectiveParams(params);
      uiCalls := uiCalls + [Window(id, position, size, p.labelText, p.titlebar, p.movable, p.closeButton)];
    }

    /** Registers (or replaces) the handle for `id`. */
    method SetMegaUiTexture(id: U32, texture: Handle)
      modifies this`textures
      ensures id in textures && textures[id] == texture
      ensures forall other :: other != id ==> (other in textures <==> other in old(textures))
      ensures forall other :: other != id && other in textures ==> textures[other] == old(textures)[other]
    {
      textures := textures[id := texture];
    }

    /** Forgets the handle for `id`; does nothing when `id` is not registered. */
    method RemoveMegaUiTexture(id: U32)
      modifies this`textures
      ensures id !in textures
      ensures forall other :: other != id ==> (other in textures <==> other in old(textures))
      ensures forall other :: other in textures ==> textures[other] == old(textures)[other]
      ensures id !in old(textures) ==> textures == old(textures)
    {
      textures := textures - {id};
    }

    /** Called when the asset behind `texture` is removed: drops every id that
        refers to it. */
    method RemoveTexture(texture: Handle)
      modifies this`textures
      ensures textures == WithoutHandle(old(textures), texture)
    {
      textures := WithoutHandle(textures, texture);
    }

    /** Discards the previous frame's draw lists, then lets the IMGUI append the ones
        it renders now (`rendered`). */
    method RenderDrawLists(rendered: seq<DrawList>)
      modifies this`drawLists
      ensures drawLists == rendered
    {
      drawLists := [];
      drawLists := drawLists + rendered;
    }
  }

  /** The registry with every entry that refers to `texture` filtered out. */
  function WithoutHandle(registry: map<U32, Handle>, texture: Handle): (r: map<U32, Handle>)
    ensures texture !in r.Values
    ensures forall id :: id in r <==> id in registry && registry[id] != texture
    ensures forall id :: id in r ==> r[id] == registry[id]
  {
    map id | id in registry && registry[id] != texture :: registry[id]
  }

  /** Filtering twice by the same handle is filtering once. */
  lemma WithoutHandleIdempotent(registry: map<U32, Handle>, texture: Handle)
    ensures WithoutHandle(WithoutHandle(registry, texture), texture) == WithoutHandle(registry, texture)
  {
  }

  /** The primary window's size in physical pixels and its scale factor, as the
      input system last saw it (the default is all zeros). */
  datatype WindowSize = WindowSize(width: real, height: real, scaleFactor: real)

  datatype WindowParams = WindowParams(labelText: string, movable: bool, closeButton: bool, titlebar: bool)

  /** `WindowParams::default`. */
  function DefaultWindowParams(): (r: WindowParams)
    ensures r.labelText == "" && r.movable && !r.closeButton && r.titlebar
  {
    WindowParams("", true, false, true)
  }

  /** The flags `draw_window` passes to the IMGUI window: each one taken from the
      given parameters, or its own default when none are given. */
  function EffectiveParams(params: Option<WindowParams>): (r: WindowParams)
    ensures params.Some? ==> r == params.value
  {
    WindowParams(
      if params.Some? then params.value.labelText else "",
      if params.Some? then params.value.movable else true,
      if params.Some? then params.value.closeButton else false,
      if params.Some? then params.value.titlebar else true)
  }

  /** Drawing a window without parameters behaves as with the default parameters. */
  lemma NoParamsMeansDefaults()
    ensures EffectiveParams(None) == DefaultWindowParams()
    ensures EffectiveParams(None) == EffectiveParams(Some(DefaultWindowParams()))
  {
  }

  /** Does the bind group declare a binding with this name? */
  predicate HasBinding(group: BindGroupDescriptor, name: string)
  {
    exists b :: b in group.bindings && b.name == name
  }

  /** The first bind group of the layout that declares a binding named `name`. */
  function FindBindGroupByBindingName(groups: seq<BindGroupDescriptor>, name: string): (r: Option<BindGroupDescriptor>)
    ensures r.None? <==> forall i :: 0 <= i < |groups| ==> !HasBinding(groups[i], name)
  {
    if |groups| == 0 then None
    else if HasBinding(groups[0], name) then Some(groups[0])
    else
      var r := FindBindGroupByBindingName(groups[1..], name);
      assert forall i :: 0 < i < |groups| ==> groups[i] == groups[1..][i - 1];
      r
  }

  /** A group found is the first of the layout that declares the binding. */
  lemma {:induction false} FoundGroupIsFirst(groups: seq<BindGroupDescriptor>, name: string)
    requires FindBindGroupByBindingName(groups, name).Some?
    ensures exists i :: 0 <= i < |groups| && groups[i] == FindBindGroupByBindingName(groups, name).value
                        && HasBinding(groups[i], name) && forall j :: 0 <= j < i ==> !HasBinding(groups[j], name)
  {
    if !HasBinding(groups[0], name) {
      FoundGroupIsFirst(groups[1..], name);
      var i :| 0 <= i < |groups[1..]| && groups[1..][i] == FindBindGroupByBindingName(groups[1..], name).value
               && HasBinding(groups[1..][i], name) && forall j :: 0 <= j < i ==> !HasBinding(groups[1..][j], name);
      assert groups[i + 1] == groups[1..][i];
      assert forall j :: 0 < j < i + 1 ==> groups[j] == groups[1..][j - 1];
    } else {
      assert groups[0] == FindBindGroupByBindingName(groups, name).value;
    }
  }

  /** Render-graph nodes the plugin connects to. */
  datatype GraphNode = MainPass | PrimarySwapChain | MainDepthTexture | MainSampledColorAttachment | MegaUiPass | MegaUiTransform

  /** A node edge orders two nodes; a slot edge feeds an output texture of one node
      into a named input slot of another. */
  datatype GraphEdge =
    | NodeEdge(before: GraphNode, after: GraphNode)
    | SlotEdge(from: GraphNode, to: GraphNode, inputSlot: string)

  /** The edges `MegaUiPlugin::build` adds, in the order it adds them, for an MSAA
      sample count of `samples`. */
  function PluginGraphEdges(samples: nat): seq<GraphEdge>
  {
    [NodeEdge(MainPass, MegaUiPass),
     SlotEdge(PrimarySwapChain, MegaUiPass, if samples > 1 then ColorResolveTargetSlot else ColorAttachmentSlot),
     SlotEdge(MainDepthTexture, MegaUiPass, DepthSlot)]
    + (if samples > 1 then [SlotEdge(MainSampledColorAttachment, MegaUiPass, ColorAttachmentSlot)] else [])
    + [NodeEdge(MegaUiTransform, MegaUiPass)]
  }

  /** The node feeding input `slot` of the megaui pass, if any (the first edge). */
  function SlotSource(edges: seq<GraphEdge>, slot: string): (r: Option<GraphNode>)
    ensures r.None? <==> forall i :: 0 <= i < |edges| ==> !(edges[i].SlotEdge? && edges[i].to == MegaUiPass && edges[i].inputSlot == slot)
  {
    if |edges| == 0 then None
    else if edges[0].SlotEdge? && edges[0].to == MegaUiPass && edges[0].inputSlot == slot then Some(edges[0].from)
    else
      var r := SlotSource(edges[1..], slot);
      assert forall i :: 0 < i < |edges| ==> edges[i] == edges[1..][i - 1];
      r
  }

  /** The MSAA wiring: with more than one sample the swap chain feeds the resolve
      target and the sampled attachment feeds the colour attachment; otherwise the
      swap chain feeds the colour attachment and no resolve target is wired. The
      depth texture is always wired, and the pass runs after the main pass and the
      transform node. */
  lemma MsaaSlotWiring(samples: nat)
    ensures samples > 1 ==> SlotSource(PluginGraphEdges(samples), ColorResolveTargetSlot) == Some(PrimarySwapChain)
    ensures samples > 1 ==> SlotSource(PluginGraphEdges(samples), ColorAttachmentSlot) == Some(MainSampledColorAttachment)
    ensures samples <= 1 ==> SlotSource(PluginGraphEdges(samples), ColorAttachmentSlot) == Some(PrimarySwapChain)
    ensures samples <= 1 ==> SlotSource(PluginGraphEdges(samples), ColorResolveTargetSlot) == None
    ensures SlotSource(PluginGraphEdges(samples), DepthSlot) == Some(MainDepthTexture)
    ensures NodeEdge(MainPass, MegaUiPass) in PluginGraphEdges(samples)
    ensures NodeEdge(MegaUiTransform, MegaUiPass) in PluginGraphEdges(samples)
  {
    var e := PluginGraphEdges(samples);
    assert ColorResolveTargetSlot != ColorAttachmentSlot && DepthSlot != ColorAttachmentSlot && DepthSlot != ColorResolveTargetSlot;
    assert e[0].NodeEdge?;
    if samples > 1 {
      assert e[1..][1..] == e[2..] && e[2..][1..] == e[3..];
      assert SlotSource(e[3..], ColorAttachmentSlot) == Some(MainSampledColorAttachment);
      assert SlotSource(e[2..], ColorAttachmentSlot) == Some(MainSampledColorAttachment);
      assert SlotSource(e[2..], DepthSlot) == Some(MainDepthTexture);
    } else {
      assert e[1..][1..] == e[2..];
      assert SlotSource(e[2..], DepthSlot) == Some(MainDepthTexture);
      assert SlotSource(e[3..], ColorResolveTargetSlot) == None;
    }
  }
}
