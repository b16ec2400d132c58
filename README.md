# bevy_megaui, modelled in Dafny

bevy_megaui connects the megaui immediate-mode UI library to the Bevy game
engine. This project models the three parts of it that do the work:

- the render-graph node (`src/megaui_node.rs`). Each frame it:
  - wires the pass attachments to the graph's input slots;
  - resolves the pipeline's bind groups once;
  - reconciles the GPU textures with the texture assets and the user's texture
    registry (asset events, garbage collection, creation of missing textures);
  - flattens megaui's draw lists into one vertex stream and one rebased index
    stream;
  - uploads both streams;
  - records the render pass.
- the plugin and context (`src/lib.rs`): the `MegaUiContext` object (texture
  registry, draw lists, mouse position, the UI it drives), window parameters, the
  bind-group lookup by binding name, and the render-graph edges the plugin adds.
- the input system (`src/input.rs`). It turns one frame of window, cursor,
  mouse-button, character and keyboard input into calls on the UI.

## Structure

Stateful objects are classes whose methods are proved against pure functions.

- `engine.dfy` (module `Engine`) holds the collaborators the core talks to:
  asset handles, texture assets, asset events, bind groups, pass commands, the calls
  made on the UI, and `RenderContext`. `RenderContext` is a class that records
  every GPU call in a log and numbers new GPU resources from a counter.
- `lib.dfy` (module `Lib`) contains:
  - class `MegaUiContext`;
  - `WindowParams` and its defaults;
  - `FindBindGroupByBindingName`;
  - the plugin's render-graph edges.
- `frame.dfy` (module `Frame`) specifies buffer assembly and pass recording as
  functions:
  - `VertexStream` and `IndexStream`;
  - `Commands`, one draw command per list;
  - `DrawPass`, `TouchAll` and `PassPrelude`.

  It also holds the lemmas about index rebasing and draw ranges.
- `reconcile.dfy` (module `Reconcile`) specifies texture reconciliation as
  functions over the user's registry, the realised textures and the loaded assets:
  - `ApplyEvents` applies the asset events;
  - `DropStale` drops textures whose descriptor changed;
  - `KeepUsed` keeps only the textures still in use;
  - `InitializedFrom` relates the textures before and after initialisation.
- `textures.dfy` (module `Textures`) specifies the node's texture operations as
  steps on a `GpuState` value. A `GpuState` is the realised textures, the GPU call
  log and the id counter. The file proves that these steps, in any map-iteration
  order, carry out the reconciliation of `Reconcile`.
- `node.dfy` (module `Node`) contains class `MegaUiNode`. Each method is proved
  to do exactly what the matching function or step above describes. `Update` is
  the node's whole frame.
- `input.dfy` (module `Input`) contains `ProcessInput`, proved to make exactly
  the calls described by `InputCalls`, and the lemmas about that sequence.

Iteration order of Rust's `HashMap` is unspecified. Loops over maps or sets
therefore choose each element nondeterministically. Their contracts hold for every
order: they say "there is an enumeration `order` of the keys such that ...".

## Model

| member | source | states |
|---|---|---|
| Lib.MegaUiContext.constructor | src/lib.rs:105-116 | the font handle is kept; the registry and the draw lists start empty; the mouse position starts at (0, 0); no UI call has been made yet |
| Lib.MegaUiContext.DrawWindow | src/lib.rs:120-136 | exactly one window call is appended. Its label, titlebar, movable and close-button flags come from the given parameters, or from the defaults when none are given |
| Lib.MegaUiContext.SetMegaUiTexture | src/lib.rs:145-148 | the id is bound to the handle; every other id keeps its binding or stays absent |
| Lib.MegaUiContext.RemoveMegaUiTexture | src/lib.rs:151-154 | the id is unbound; every other id keeps its binding; removing an absent id changes nothing |
| Lib.MegaUiContext.RemoveTexture | src/lib.rs:157-165 | the registry becomes the old registry without every entry bound to the handle |
| Lib.MegaUiContext.RenderDrawLists | src/lib.rs:210-213 | the context's draw lists are replaced by the lists the UI renders |
| Lib.WithoutHandle | src/lib.rs:157-165 | the handle is no longer bound; an id stays exactly when it was bound to another handle, and its binding is kept |
| Lib.DefaultWindowParams | src/lib.rs:181-190 | empty label, movable, no close button, with a titlebar |
| Lib.EffectiveParams | src/lib.rs:128-134 | given parameters are used as they are |
| Lib.NoParamsMeansDefaults | src/lib.rs:128-134 | passing no parameters is the same as passing the default parameters |
| Lib.FindBindGroupByBindingName | src/lib.rs:361-375 | there is no result exactly when no group has a binding with that name |
| Lib.FoundGroupIsFirst | src/lib.rs:361-375 | a found group is the first group in layout order that has a binding with that name |
| Lib.SlotSource | src/lib.rs:316-357 | a slot has no source exactly when no slot edge into the megaui pass targets it |
| Lib.MsaaSlotWiring | src/lib.rs:316-357 | with multisampling the swap chain feeds the resolve target and the sampled color attachment feeds the color attachment; without it the swap chain feeds the color attachment and there is no resolve-target edge. The depth texture feeds the depth slot, and the main pass and the transform node run before the megaui pass |
| Node.NodeInputsFedByPlugin | src/megaui_node.rs:65-139 | the node declares the inputs color attachment, color resolve target (multisampled only) and depth. Every declared input is fed by an edge the plugin adds (src/lib.rs:316-357), and every slot edge the plugin adds targets a declared input |
| Node.MegaUiNode.constructor | src/megaui_node.rs:65-139 | the pass descriptor is built from the node's color and depth attachments; the inputs are those of NodeInputs; every index names one of those inputs; nothing is compiled, bound or realised yet |
| Node.MegaUiNode.ProcessAttachments | src/megaui_node.rs:305-336 | each color attachment is rewired from its input slots (and its default clear color), as AttachedColor says; the depth attachment is rewired from its slot; the sample count is unchanged |
| Node.MegaUiNode.InitPipeline | src/megaui_node.rs:338-403 | on the first frame the pipeline is set and both bind-group descriptors are the groups found by binding name; on later frames nothing changes |
| Node.MegaUiNode.InitTransformBindGroup | src/megaui_node.rs:405-424 | the transform bind group is built once, from binding 0 being the transform uniform, and the bind group is created on the GPU every frame |
| Frame.Commands | src/megaui_node.rs:195-220 | one command per draw list: the count of the list's indices, its texture resolved through the registry (or the font atlas), and its clipping zone |
| Frame.ResolveTexture | src/megaui_node.rs:196-200 | a list without a texture id uses the font atlas; a list with one uses its registered handle, or no handle when the id is not registered |
| Frame.Rebase | src/megaui_node.rs:207-212 | every index is shifted by the offset; the length is kept |
| Frame.PrefixStep | src/megaui_node.rs:195-220 | one loop iteration appends the list's vertices to the vertex stream and its indices, rebased by the vertices before it, to the index stream |
| Frame.AssemblyBounds | src/megaui_node.rs:207-213 | under the u16 bound, the running offset and every rebased index fit in 16 bits |
| Frame.StreamsOfPrefix | src/megaui_node.rs:195-220 | the streams of the first k lists are prefixes of the streams of all lists |
| Frame.IndexStreamAt | src/megaui_node.rs:207-213 | index j of list k lands at position (indices before k) + j, shifted by the number of vertices before k |
| Frame.VertexStreamAt | src/megaui_node.rs:202-206 | vertex v of list k lands at position (vertices before k) + v |
| Frame.RebasedIndexAddressesSameVertex | src/megaui_node.rs:202-213 | for well-formed lists, every rebased index addresses, in the flat vertex stream, the vertex that the index addressed in its own list |
| Frame.WellFormedFits | src/megaui_node.rs:207-213 | well-formed lists with at most 65535 vertices in all meet the u16 bound |
| Frame.IndexCountOfCommands | src/megaui_node.rs:215-219 | the first k commands count exactly the indices of the first k lists |
| Frame.FinalOffsetIsIndexStreamLength | src/megaui_node.rs:249-293 | the draw offset after all commands equals the length of the index stream |
| Frame.DrawPassRanges | src/megaui_node.rs:249-293 | every draw command recorded binds a realised texture's group at index 1, sets a scissor, or draws an index range within the index stream; the recorded draw ranges are consecutive and in order |
| Frame.DrawPassContains | src/megaui_node.rs:249-293 | a command whose texture is realised is drawn as one block (bind, scissor, draw) at the offset of the commands before it |
| Frame.DrawPassLength | src/megaui_node.rs:249-293 | three pass commands per command whose texture is realised; commands without one record nothing |
| Frame.CommandDrawn | src/megaui_node.rs:287-292 | a drawable command's index range is drawn |
| Frame.IndexStreamSegment | src/megaui_node.rs:207-213 | the index stream's segment for list k is exactly list k's indices, rebased |
| Frame.ListDrawn | src/megaui_node.rs:249-293 | a list whose texture is realised is drawn over the range that starts after the indices of the lists before it and spans its own indices |
| Frame.DrawCoversItsList | src/megaui_node.rs:190-293 | the range drawn for a list whose texture is realised is exactly that list's indices, rebased, in the uploaded index stream |
| Frame.TouchAllBindsEveryResource | src/megaui_node.rs:238-247 | every realised texture's bind group is bound at index 1, and nothing else is recorded |
| Node.AssembleBuffers | src/megaui_node.rs:190-220 | the loop builds the vertex stream, the index stream and the draw commands of the specification functions |
| Node.CopyTexture | src/megaui_node.rs:597-625 | one staging buffer is created with the asset's pixels, and one buffer-to-texture copy into the resource's texture is recorded |
| Node.MegaUiNode.UpdateBuffers | src/megaui_node.rs:627-653 | the old vertex and index buffers are released, new ones are created from the streams, the node keeps their ids, and two ids are used |
| Reconcile.EventForUnrealisedHandleIgnored | src/megaui_node.rs:426-466 | an event for a handle without a realised texture changes nothing |
| Reconcile.RemovedPurgesBothMaps | src/megaui_node.rs:452-461 | a Removed event drops the handle from the realised textures, the registry and the update queue; everything else is kept |
| Reconcile.ModifiedThenRemovedCancelsUpdate | src/megaui_node.rs:442-461 | a Modified followed by a Removed of the same handle leaves no queued update and no texture |
| Reconcile.ApplyEventsShrinks | src/megaui_node.rs:426-466 | the event pass keeps the queue to realised and loaded handles; it only ever removes textures and registry entries, and never alters them |
| Reconcile.DropStale | src/megaui_node.rs:504-528 | a queued texture whose descriptor changed is dropped; every other texture is kept unchanged |
| Reconcile.KeepUsed | src/megaui_node.rs:468-489 | the textures kept are exactly the font atlas and the registered ones, each unchanged |
| Reconcile.Wanted | src/megaui_node.rs:491-502 | the handles wanted are the font atlas and every registered handle |
| Reconcile.InitializedStaysBound | src/megaui_node.rs:530-579 | initialisation keeps every texture's bind group made of its own texture and sampler |
| Reconcile.FrameConverges | src/megaui_node.rs:468-502 | after garbage collection and initialisation, every texture is wanted, the font atlas is realised once its asset is loaded, and so is every registered handle whose asset is loaded |
| Reconcile.DescriptorChangeRecreates | src/megaui_node.rs:504-579 | a texture whose descriptor changed is dropped and, when still wanted, re-created from the new descriptor in the same frame |
| Reconcile.LateLoadingTexture | src/megaui_node.rs:530-540 | a wanted texture whose asset is not loaded is skipped; it is created from the asset once the asset is loaded |
| Textures.NewResource | src/megaui_node.rs:530-579 | a new texture has its asset's descriptor and a bind group of its own texture and sampler, which are distinct |
| Textures.HandlesOf | src/megaui_node.rs:491-502 | the handles are the registry's handles for the ids, in order |
| Textures.RemoveAllRemoves | src/megaui_node.rs:581-595 | removing a sequence of handles drops exactly those textures; the log only grows and no id is used |
| Textures.RemoveUnusedIsKeepUsed | src/megaui_node.rs:468-489 | removing every unused texture, in any order, leaves exactly KeepUsed |
| Textures.UpdateStepDrops | src/megaui_node.rs:504-528 | one update step drops the texture exactly when its descriptor changed |
| Textures.UpdateAllIsDropStale | src/megaui_node.rs:462-465 | updating every queued handle, in any order, leaves exactly DropStale |
| Textures.CreateStepInitializes | src/megaui_node.rs:530-579 | one creation step extends the initialisation to one more wanted handle |
| Textures.CreateAllInitializes | src/megaui_node.rs:491-502 | creating textures for a sequence of handles initialises them all |
| Textures.CreateAllFreshIds | src/megaui_node.rs:530-579 | every texture and sampler created has a fresh id; the log only grows |
| Textures.HandlesCoverWanted | src/megaui_node.rs:491-502 | the font atlas followed by the registry's handles covers exactly the wanted handles |
| Textures.InitSequenceInitializes | src/megaui_node.rs:491-502 | the initialisation pass, in any order, leaves the textures InitializedFrom their previous state |
| Node.MegaUiNode.RemoveTexture | src/megaui_node.rs:581-595 | the new textures and log are RemoveStep of the old ones: the texture and sampler are released and the entry is dropped |
| Node.MegaUiNode.UpdateTexture | src/megaui_node.rs:504-528 | the new textures and log are UpdateStep: same descriptor means the pixels are copied, a changed one means the texture is removed |
| Node.MegaUiNode.CreateTexture | src/megaui_node.rs:530-579 | the new textures and log are CreateStep: a texture, sampler and bind group are created when the handle is not realised and its asset is loaded |
| Node.MegaUiNode.ProcessAssetEvents | src/megaui_node.rs:426-466 | the registry and textures are those of ApplyEvents followed by DropStale; the log is the event calls followed by the update steps over the queued handles, in some order |
| Node.MegaUiNode.RemoveUnusedTextures | src/megaui_node.rs:468-489 | the textures become KeepUsed, and the log is the removal of every unused texture, in some order |
| Node.MegaUiNode.InitTextures | src/megaui_node.rs:491-502 | the textures are InitializedFrom the old ones for the wanted handles, by a creation sequence over the font atlas and the registry |
| Node.MegaUiNode.RecordTouches | src/megaui_node.rs:238-247 | the recorded commands are TouchAll over an enumeration of the realised textures |
| Node.MegaUiNode.RecordDraws | src/megaui_node.rs:249-293 | the recorded commands are DrawPass of the draw commands |
| Node.MegaUiNode.RecordPass | src/megaui_node.rs:224-295 | the pass is the prelude (pipeline, buffers, transform group), then the bind of every texture, then the draws |
| Node.MegaUiNode.CollectTextures | src/megaui_node.rs:176-183 | after the events and garbage collection the registry is ApplyEvents' one and the textures are KeepUsed of DropStale |
| Node.MegaUiNode.ReconcileTextures | src/megaui_node.rs:176-183 | after all three texture steps the textures are InitializedFrom the garbage-collected ones |
| Node.MegaUiNode.UploadFrame | src/megaui_node.rs:185-222 | the lists rendered by the UI are taken out of the context, assembled into streams and commands, and uploaded |
| Node.MegaUiNode.DrawFrame | src/megaui_node.rs:185-300 | the buffer calls are followed by one pass as FramePass states; the draw lists are given back to the context, and the UI is told that a new frame began |
| Node.MegaUiNode.Prepare | src/megaui_node.rs:153-169 | the color and depth attachments are rewired as ProcessAttachments states and the sample count is kept; on the first frame the pipeline is the compiled one and both bind-group descriptors are the groups found by binding name, and on later frames all three are kept; the transform bind group is built once and created on the GPU |
| Node.MegaUiNode.Render | src/megaui_node.rs:176-300 | the reconciled textures, then the upload and the pass over them |
| Node.MegaUiNode.Update | src/megaui_node.rs:153-301 | the node's frame: the color and depth attachments are rewired and the sample count is kept; the pipeline and both bind-group descriptors are set from the layout on the first frame and kept afterwards; the textures are reconciled with the events and assets; the frame is uploaded and drawn in one pass; a new frame is started |
| Input.TableCallsAreHeldKeys | src/input.rs:58-105 | the key checks produce at most one call per table entry, and a key-down call exactly for each held key |
| Input.TableCallsInTableOrder | src/input.rs:58-105 | the key-down calls come out in table order |
| Input.KeyTableRanked | src/input.rs:58-105 | the key table lists the UI keys in a fixed increasing order |
| Input.KeyDownCallsExact | src/input.rs:58-105 | at most 16 key-down calls are made, exactly one for each held key of the table, in table order, with no repetition; Back maps to Backspace and Return to Enter |
| Input.CharCallsAppend | src/input.rs:52-56 | the character filter works event by event |
| Input.CharCallsExact | src/input.rs:52-56 | a character call is made exactly for each character typed in the primary window that is not a control character |
| Input.MouseCallsLeftOnly | src/input.rs:40-46 | only the left button matters; a press makes a mouse-down and a release a mouse-up, both at the same position, the down first |
| Input.InputCallsShareModifiers | src/input.rs:48-105 | every character and key-down call carries the same shift and ctrl, which are whether either shift key or either control key is held |
| Input.CursorOutsidePrimaryIgnored | src/input.rs:30-46 | a cursor move outside the primary window, or no move at all, changes nothing: no mouse-move call, and clicks at the cached position |
| Input.MoveCursor | src/input.rs:30-38 | a primary-window move updates the cached position and calls mouse-move with it |
| Input.PressMouse | src/input.rs:40-46 | the mouse calls are appended |
| Input.TypeChars | src/input.rs:52-56 | the character calls are appended |
| Input.KeyDownIfHeld | src/input.rs:58-60 | one key's check appends a key-down when it is held |
| Input.KeyDowns | src/input.rs:58-105 | the key-down calls are appended |
| Input.ProcessInput | src/input.rs:10-106 | the window size is refreshed from the primary window; the cached mouse position and the calls made on the UI are exactly those of NextMousePosition and InputCalls |

## Left out

- Floating-point arithmetic:
  - the cursor's division by the UI scale factor and its y-flip (`src/input.rs:32-34`)
    are a function parameter `toUiSpace` of `ProcessInput`;
  - the scissor rectangle's scaling and float-to-`u32` truncation
    (`src/megaui_node.rs:270-285`) are recorded as the clipping zone or `FullWindow`;
  - the staging buffer's row pitch and the texture's byte size are not modelled.
- Node.MegaUiNode.RecordDraws: the draw offset is a `u32` in the source, and each
  command's index count is cast from `usize` to `u32` (`src/megaui_node.rs:258`,
  `src/megaui_node.rs:288`). Both are `nat`s here, so the wrap-around and truncation
  past 2^32 indices in one frame are not modelled.
- Node.AssembleBuffers: `u16` index rebasing would overflow (panic or wrap) past
  65535 vertices. This is made the precondition `IndicesFit`, and
  `Frame.WellFormedFits` shows that well-formed lists with at most 65535 vertices
  meet it.
- The byte layout of the vertex and index buffers (position, uv and color floats,
  little-endian `u16`) is not modelled. The buffers hold vertices and indices as
  values.
- Pipeline construction, shaders, vertex attributes and pipeline compilation
  (`src/lib.rs:243-302`, `src/lib.rs:377` onward) are not modelled. The compiled
  pipeline and its layout are parameters of `Update`.
- The drawing done by megaui itself (`Ui::render`, widgets, the closure of
  `draw_window`) is not modelled. The UI is the log of calls made on it, and the
  rendered draw lists are a parameter.
- The transform node (`src/transform_node.rs`) and `examples/ui.rs` are not part
  of this model. The transform binding is a parameter of `Update`.
- Bevy's resources, thread-local storage and the `unwrap`s on them are left out.
  What the `unwrap`s assume is stated as preconditions: every input slot the node
  reads holds a texture (`SlotsProvided`), and the pipeline layout has both named
  bind groups on the first frame.
- Event readers, `Input<…>` and `Windows` are not modelled. Each frame's events,
  the last cursor move, the pressed keys, the buttons pressed and released this
  frame, and the primary window are parameters.
- Logging calls are not modelled.
- Node.MegaUiNode.constructor follows `src/megaui_node.rs:65-139`, which takes the
  sample count and the font handle. The call at `src/lib.rs:308-314` passes five
  arguments (pipeline, both bind groups, MSAA, font). That signature belongs to a
  version of the node that is not among the sources, so the pipeline and bind
  groups are set by `InitPipeline` as `src/megaui_node.rs:338-403` does.
- `MegaUiSettings` (the UI scale factor read at `src/input.rs:20`) is not defined
  in the sources. Its effect is inside `toUiSpace`.
- `WindowSize` in `src/lib.rs:192-197` has the fields width, height and scale
  factor, as the model's `Lib.WindowSize` does. `src/megaui_node.rs:283-284` reads
  `physical_width`/`physical_height`, and `src/input.rs:34` calls `height()`,
  neither of which the struct defines. The model follows `src/lib.rs`, and the
  input code writes the physical size into width and height.
- The second copy of `find_bind_group_by_binding_name` (`src/megaui_node.rs:656-670`)
  is the same as `src/lib.rs:361-375` and is modelled once, as
  `Lib.FindBindGroupByBindingName`.
- Bevy's `Msaa::color_attachment_descriptor` is not among the sources. The model
  assumes it gives a resolve target exactly when the sample count is above 1.
- Node.MegaUiNode.Update: states the GPU log only as some prefix followed by the
  buffer calls and the pass. The texture calls in that prefix are stated by the
  contracts of ProcessAssetEvents, RemoveUnusedTextures and InitTextures, which
  Update calls in that order.
