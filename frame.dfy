/** What the render node computes each frame from the IMGUI's draw lists, as pure
    functions: the flat vertex stream, the rebased index stream, one draw command
    per list, and the commands recorded into the render pass. The node's loops
    (module Node) are proved to compute exactly these. */
module Frame {
  import opened Engine

  /** One texture realised on the GPU: the descriptor it was created from, its GPU
      texture and sampler, and the bind group holding both. */
  datatype TextureResource = TextureResource(descriptor: TextureDescriptor, texture: GpuId, sampler: GpuId, bindGroup: BindGroup)

  /** The bind group built for a texture: slot 0 the texture, slot 1 the sampler. */
  function TextureBindGroup(texture: GpuId, sampler: GpuId): BindGroup
  {
    BindGroup([(0, TextureBinding(texture)), (1, SamplerBinding(sampler))])
  }

  /** Everything the pass needs about one draw list. */
  datatype DrawCommand = DrawCommand(verticesCount: nat, textureHandle: Option<Handle>, clippingZone: Option<Rect>)

  /** The texture a draw list is drawn with: the font atlas when the list names no
      texture, otherwise the registry's handle for its id, or nothing when the id is
      not registered. */
  function ResolveTexture(selector: Option<U32>, registry: map<U32, Handle>, font: Handle): (r: Option<Handle>)
    ensures selector.None? ==> r == Some(font)
    ensures selector.Some? ==> (r.Some? <==> selector.value in registry)
    ensures selector.Some? && r.Some? ==> r.value == registry[selector.value]
  {
    if selector.None? then Some(font)
    else if selector.value in registry then Some(registry[selector.value])
    else None
  }

  function TotalVertices(lists: seq<DrawList>): nat
  {
    if lists == [] then 0 else TotalVertices(lists[..|lists| - 1]) + |lists[|lists| - 1].vertices|
  }

  function TotalIndices(lists: seq<DrawList>): nat
  {
    if lists == [] then 0 else TotalIndices(lists[..|lists| - 1]) + |lists[|lists| - 1].indices|
  }

  /** All vertices of all lists, in order. */
  function VertexStream(lists: seq<DrawList>): (r: seq<Vertex>)
    ensures |r| == TotalVertices(lists)
  {
    if lists == [] then [] else VertexStream(lists[..|lists| - 1]) + lists[|lists| - 1].vertices
  }

  /** Each index shifted by `offset`. */
  function Rebase(indices: seq<U16>, offset: nat): (r: seq<int>)
    ensures |r| == |indices|
    ensures forall j :: 0 <= j < |indices| ==> r[j] == indices[j] + offset
  {
    seq(|indices|, j requires 0 <= j < |indices| => indices[j] + offset)
  }

  /** All indices of all lists, in order, each list's shifted by the number of
      vertices of the lists before it. */
  function IndexStream(lists: seq<DrawList>): (r: seq<int>)
    ensures |r| == TotalIndices(lists)
  {
    if lists == [] then []
    else IndexStream(lists[..|lists| - 1]) + Rebase(lists[|lists| - 1].indices, TotalVertices(lists[..|lists| - 1]))
  }

  /** The rebased indices and the running offset stay within `u16`. */
  predicate IndicesFit(lists: seq<DrawList>)
  {
    && TotalVertices(lists) <= 0xFFFF
    && forall k, j :: 0 <= k < |lists| && 0 <= j < |lists[k].indices| ==> lists[k].indices[j] + TotalVertices(lists[..k]) <= 0xFFFF
  }

  /** Every index of a list addresses one of that list's own vertices. */
  predicate WellFormed(lists: seq<DrawList>)
  {
    forall k, j :: 0 <= k < |lists| && 0 <= j < |lists[k].indices| ==> lists[k].indices[j] < |lists[k].vertices|
  }

  /** One draw command per draw list, in list order. */
  function Commands(lists: seq<DrawList>, registry: map<U32, Handle>, font: Handle): (r: seq<DrawCommand>)
    ensures |r| == |lists|
    ensures forall k :: 0 <= k < |lists| ==>
      && r[k].verticesCount == |lists[k].indices|
      && r[k].textureHandle == ResolveTexture(lists[k].texture, registry, font)
      && r[k].clippingZone == lists[k].clippingZone
  {
    if lists == [] then []
    else
      var last := lists[|lists| - 1];
      Commands(lists[..|lists| - 1], registry, font)
        + [DrawCommand(|last.indices|, ResolveTexture(last.texture, registry, font), last.clippingZone)]
  }

  /** How `lists[..k+1]` extends `lists[..k]`. */
  lemma PrefixStep(lists: seq<DrawList>, k: nat)
    requires k < |lists|
    ensures TotalVertices(lists[..k + 1]) == TotalVertices(lists[..k]) + |lists[k].vertices|
    ensures TotalIndices(lists[..k + 1]) == TotalIndices(lists[..k]) + |lists[k].indices|
    ensures VertexStream(lists[..k + 1]) == VertexStream(lists[..k]) + lists[k].vertices
    ensures IndexStream(lists[..k + 1]) == IndexStream(lists[..k]) + Rebase(lists[k].indices, TotalVertices(lists[..k]))
  {
    assert lists[..k + 1][..k] == lists[..k];
  }

  /** One more list extends the commands by that list's command. */
  lemma CommandsStep(lists: seq<DrawList>, registry: map<U32, Handle>, font: Handle, k: nat)
    requires k < |lists|
    ensures Commands(lists[..k + 1], registry, font)
         == Commands(lists[..k], registry, font) + [DrawCommand(|lists[k].indices|, ResolveTexture(lists[k].texture, registry, font), lists[k].clippingZone)]
  {
    assert lists[..k + 1][..k] == lists[..k];
  }

  /** What the assembly loop needs to extend its streams by list k: the fitting
      bounds for its rebased indices and its running offset. */
  lemma AssemblyBounds(lists: seq<DrawList>, k: nat)
    requires k < |lists| && IndicesFit(lists)
    ensures TotalVertices(lists[..k]) + |lists[k].vertices| <= 0xFFFF
    ensures forall j :: 0 <= j < |lists[k].indices| ==> lists[k].indices[j] + TotalVertices(lists[..k]) <= 0xFFFF
  {
    PrefixStep(lists, k);
    StreamsOfPrefix(lists, k + 1);
  }

  /** The streams of a prefix of the lists are prefixes of the whole streams. */
  lemma {:induction false} StreamsOfPrefix(lists: seq<DrawList>, k: nat)
    requires k <= |lists|
    ensures TotalVertices(lists[..k]) <= TotalVertices(lists)
    ensures TotalIndices(lists[..k]) <= TotalIndices(lists)
    ensures VertexStream(lists)[..TotalVertices(lists[..k])] == VertexStream(lists[..k])
    ensures IndexStream(lists)[..TotalIndices(lists[..k])] == IndexStream(lists[..k])
  {
    if k == |lists| {
      assert lists[..k] == lists;
    } else {
      var n := |lists|;
      var init := lists[..n - 1];
      StreamsOfPrefix(init, k);
      assert init[..k] == lists[..k];
      assert VertexStream(lists) == VertexStream(init) + lists[n - 1].vertices;
      assert IndexStream(lists) == IndexStream(init) + Rebase(lists[n - 1].indices, TotalVertices(init));
    }
  }

  /** Index j of list k lands at position TotalIndices(lists[..k]) + j of the index
      stream, shifted by the vertex count of lists 0..k-1. */
  lemma IndexStreamAt(lists: seq<DrawList>, k: nat, j: nat)
    requires k < |lists| && j < |lists[k].indices|
    ensures TotalIndices(lists[..k]) + j < |IndexStream(lists)|
    ensures IndexStream(lists)[TotalIndices(lists[..k]) + j] == lists[k].indices[j] + TotalVertices(lists[..k])
  {
    PrefixStep(lists, k);
    StreamsOfPrefix(lists, k + 1);
    var p := TotalIndices(lists[..k]) + j;
    assert IndexStream(lists)[p] == IndexStream(lists)[..TotalIndices(lists[..k + 1])][p];
  }

  /** Vertex v of list k lands at position TotalVertices(lists[..k]) + v of the
      vertex stream. */
  lemma VertexStreamAt(lists: seq<DrawList>, k: nat, v: nat)
    requires k < |lists| && v < |lists[k].vertices|
    ensures TotalVertices(lists[..k]) + v < |VertexStream(lists)|
    ensures VertexStream(lists)[TotalVertices(lists[..k]) + v] == lists[k].vertices[v]
  {
    PrefixStep(lists, k);
    StreamsOfPrefix(lists, k + 1);
    var p := TotalVertices(lists[..k]) + v;
    assert VertexStream(lists)[p] == VertexStream(lists)[..TotalVertices(lists[..k + 1])][p];
  }

  /** The point of rebasing: in the shared buffers, every rebased index of a
      well-formed list lies in that list's own range of the vertex stream and
      addresses the same vertex the original index addressed in the list. */
  lemma RebasedIndexAddressesSameVertex(lists: seq<DrawList>, k: nat, j: nat)
    requires WellFormed(lists)
    requires k < |lists| && j < |lists[k].indices|
    ensures TotalIndices(lists[..k]) + j < |IndexStream(lists)|
    ensures var i := IndexStream(lists)[TotalIndices(lists[..k]) + j];
      && TotalVertices(lists[..k]) <= i < TotalVertices(lists[..k]) + |lists[k].vertices|
      && i < |VertexStream(lists)|
      && VertexStream(lists)[i] == lists[k].vertices[lists[k].indices[j]]
  {
    IndexStreamAt(lists, k, j);
    VertexStreamAt(lists, k, lists[k].indices[j]);
    var i := IndexStream(lists)[TotalIndices(lists[..k]) + j];
    assert i == TotalVertices(lists[..k]) + lists[k].indices[j];
  }

  /** Well-formed lists with at most 65535 vertices in all never overflow `u16`. */
  lemma WellFormedFits(lists: seq<DrawList>)
    requires WellFormed(lists) && TotalVertices(lists) <= 0xFFFF
    ensures IndicesFit(lists)
  {
    forall k, j | 0 <= k < |lists| && 0 <= j < |lists[k].indices|
      ensures lists[k].indices[j] + TotalVertices(lists[..k]) <= 0xFFFF
    {
      PrefixStep(lists, k);
      StreamsOfPrefix(lists, k + 1);
    }
  }

  /** The number of indices drawn by the commands, which is where the pass's
      running vertex offset stands after them. */
  function IndexCount(cmds: seq<DrawCommand>): nat
  {
    if cmds == [] then 0 else IndexCount(cmds[..|cmds| - 1]) + cmds[|cmds| - 1].verticesCount
  }

  lemma {:induction false} IndexCountOfCommands(lists: seq<DrawList>, registry: map<U32, Handle>, font: Handle, k: nat)
    requires k <= |lists|
    ensures IndexCount(Commands(lists, registry, font)[..k]) == TotalIndices(lists[..k])
  {
    if k > 0 {
      IndexCountOfCommands(lists, registry, font, k - 1);
      var cmds := Commands(lists, registry, font);
      assert cmds[..k][..k - 1] == cmds[..k - 1];
      assert lists[..k][..k - 1] == lists[..k - 1];
    }
  }

  /** After walking all commands the running offset equals the length of the
      index stream. */
  lemma FinalOffsetIsIndexStreamLength(lists: seq<DrawList>, registry: map<U32, Handle>, font: Handle)
    ensures IndexCount(Commands(lists, registry, font)) == |IndexStream(lists)|
  {
    IndexCountOfCommands(lists, registry, font, |lists|);
    assert Commands(lists, registry, font)[..|lists|] == Commands(lists, registry, font);
    assert lists[..|lists|] == lists;
  }

  /** A command is drawn only when its texture resolved and is realised on the GPU. */
  predicate Drawable(c: DrawCommand, resources: map<Handle, TextureResource>)
  {
    c.textureHandle.Some? && c.textureHandle.value in resources
  }

  function ScissorFor(zone: Option<Rect>): Scissor
  {
    if zone.Some? then ClipZone(zone.value) else FullWindow
  }

  /** What one command records, at running offset `offset`: nothing when it is
      skipped; otherwise its texture's bind group at slot 1, its scissor, and one
      indexed draw of the range [offset, offset + count) with one instance. */
  function DrawOne(c: DrawCommand, resources: map<Handle, TextureResource>, textureLayout: nat, offset: nat): seq<PassCommand>
  {
    if Drawable(c, resources) then
      [SetBindGroup(1, textureLayout, resources[c.textureHandle.value].bindGroup),
       SetScissor(ScissorFor(c.clippingZone)),
       DrawIndexed(offset, offset + c.verticesCount, 0, 0, 1)]
    else []
  }

  /** The per-command part of the pass: every command at the offset reached by the
      commands before it, drawn or skipped. */
  function DrawPass(cmds: seq<DrawCommand>, resources: map<Handle, TextureResource>, textureLayout: nat): seq<PassCommand>
  {
    if cmds == [] then []
    else
      var init := cmds[..|cmds| - 1];
      DrawPass(init, resources, textureLayout) + DrawOne(cmds[|cmds| - 1], resources, textureLayout, IndexCount(init))
  }

  /** A command of the per-command part: a slot-1 binding of a realised texture, a
      scissor, or a single-instance draw with base vertex 0 whose range is within
      [0, bound). */
  ghost predicate PerCommandShape(c: PassCommand, resources: map<Handle, TextureResource>, textureLayout: nat, bound: nat)
  {
    || (c.SetBindGroup? && c.index == 1 && c.descriptorId == textureLayout
        && exists h :: h in resources && resources[h].bindGroup == c.group)
    || c.SetScissor?
    || (c.DrawIndexed? && c.start <= c.end <= bound && c.baseVertex == 0 && c.instanceStart == 0 && c.instanceEnd == 1)
  }

  /** Draw ranges follow each other without overlapping. */
  ghost predicate DrawsInOrder(p: seq<PassCommand>)
  {
    forall i, j :: 0 <= i < j < |p| && p[i].DrawIndexed? && p[j].DrawIndexed? ==> p[i].end <= p[j].start
  }

  /** The shape of the per-command part: only slot-1 bindings of realised
      textures, scissors, and single-instance draws whose ranges lie within
      [0, IndexCount(cmds)) and never overlap, in increasing order. */
  lemma {:induction false} DrawPassRanges(cmds: seq<DrawCommand>, resources: map<Handle, TextureResource>, textureLayout: nat)
    ensures forall i :: 0 <= i < |DrawPass(cmds, resources, textureLayout)| ==>
      PerCommandShape(DrawPass(cmds, resources, textureLayout)[i], resources, textureLayout, IndexCount(cmds))
    ensures DrawsInOrder(DrawPass(cmds, resources, textureLayout))
  {
    if cmds != [] {
      var init := cmds[..|cmds| - 1];
      var c := cmds[|cmds| - 1];
      DrawPassRanges(init, resources, textureLayout);
      var q := DrawPass(init, resources, textureLayout);
      var d := DrawOne(c, resources, textureLayout, IndexCount(init));
      var p := q + d;
      assert p == DrawPass(cmds, resources, textureLayout);
      var bound := IndexCount(cmds);
      assert bound == IndexCount(init) + c.verticesCount;
      forall i | 0 <= i < |p|
        ensures PerCommandShape(p[i], resources, textureLayout, bound)
      {
        if i < |q| {
          assert p[i] == q[i];
          assert PerCommandShape(q[i], resources, textureLayout, IndexCount(init));
        } else {
          assert Drawable(c, resources);
          var h := c.textureHandle.value;
          assert d[0] == SetBindGroup(1, textureLayout, resources[h].bindGroup);
          assert d[1].SetScissor?;
          assert d[2] == DrawIndexed(IndexCount(init), bound, 0, 0, 1);
          assert p[i] == d[i - |q|];
        }
      }
      forall i, j | 0 <= i < j < |p| && p[i].DrawIndexed? && p[j].DrawIndexed?
        ensures p[i].end <= p[j].start
      {
        if j < |q| {
          assert p[i] == q[i] && p[j] == q[j];
        } else {
          assert Drawable(c, resources);
          assert j - |q| == 2 && p[j] == d[2];
          assert p[j].start == IndexCount(init);
          assert i < |q|;
          assert p[i] == q[i];
          assert PerCommandShape(q[i], resources, textureLayout, IndexCount(init));
        }
      }
    }
  }

  /** `block` appears in `p` starting at position `at`. */
  predicate HoldsAt<T(==)>(p: seq<T>, at: int, block: seq<T>)
  {
    0 <= at && at + |block| <= |p| && p[at..at + |block|] == block
  }

  /** Every command whose texture is realised is drawn: the pass holds its three
      commands at the offset reached by the commands before it. */
  lemma {:induction false} DrawPassContains(cmds: seq<DrawCommand>, resources: map<Handle, TextureResource>, textureLayout: nat, k: nat)
    requires k < |cmds| && Drawable(cmds[k], resources)
    ensures exists at :: HoldsAt(DrawPass(cmds, resources, textureLayout), at, DrawOne(cmds[k], resources, textureLayout, IndexCount(cmds[..k])))
  {
    var init := cmds[..|cmds| - 1];
    var q := DrawPass(init, resources, textureLayout);
    var last := DrawOne(cmds[|cmds| - 1], resources, textureLayout, IndexCount(init));
    assert DrawPass(cmds, resources, textureLayout) == q + last;
    var block := DrawOne(cmds[k], resources, textureLayout, IndexCount(cmds[..k]));
    if k == |cmds| - 1 {
      assert init == cmds[..k];
      HoldsAtEnd(q, last);
    } else {
      assert init[k] == cmds[k] && init[..k] == cmds[..k];
      DrawPassContains(init, resources, textureLayout, k);
      var at :| HoldsAt(q, at, block);
      HoldsAtPrefix(q, last, at, block);
    }
  }

  /** A sequence holds its last block at the end. */
  lemma HoldsAtEnd<T>(q: seq<T>, block: seq<T>)
    ensures HoldsAt(q + block, |q|, block)
  {
    assert (q + block)[|q|..|q| + |block|] == block;
  }

  /** The elements of a held block are elements of the sequence. */
  lemma HoldsAtElement<T>(p: seq<T>, at: int, block: seq<T>, i: nat)
    requires HoldsAt(p, at, block) && i < |block|
    ensures p[at + i] == block[i] && block[i] in p
  {
    assert p[at..at + |block|][i] == p[at + i];
  }

  /** A block held by a sequence is still held, at the same place, once more is
      appended. */
  lemma HoldsAtPrefix<T>(q: seq<T>, extra: seq<T>, at: int, block: seq<T>)
    requires HoldsAt(q, at, block)
    ensures HoldsAt(q + extra, at, block)
  {
    assert (q + extra)[at..at + |block|] == q[at..at + |block|];
  }

  /** Commands that are skipped record nothing: the pass holds three commands for
      each drawable command and nothing else. */
  function DrawableCount(cmds: seq<DrawCommand>, resources: map<Handle, TextureResource>): nat
  {
    if cmds == [] then 0
    else DrawableCount(cmds[..|cmds| - 1], resources) + (if Drawable(cmds[|cmds| - 1], resources) then 1 else 0)
  }

  lemma {:induction false} DrawPassLength(cmds: seq<DrawCommand>, resources: map<Handle, TextureResource>, textureLayout: nat)
    ensures |DrawPass(cmds, resources, textureLayout)| == 3 * DrawableCount(cmds, resources)
  {
    if cmds != [] {
      DrawPassLength(cmds[..|cmds| - 1], resources, textureLayout);
    }
  }

  /** List k's indices, rebased, occupy positions [TotalIndices(lists[..k]),
      TotalIndices(lists[..k + 1])) of the index stream. */
  lemma IndexStreamSegment(lists: seq<DrawList>, k: nat)
    requires k < |lists|
    ensures TotalIndices(lists[..k]) + |lists[k].indices| <= |IndexStream(lists)|
    ensures IndexStream(lists)[TotalIndices(lists[..k])..TotalIndices(lists[..k]) + |lists[k].indices|]
         == Rebase(lists[k].indices, TotalVertices(lists[..k]))
  {
    PrefixStep(lists, k);
    StreamsOfPrefix(lists, k + 1);
    var start := TotalIndices(lists[..k]);
    var end := start + |lists[k].indices|;
    assert IndexStream(lists)[start..end] == IndexStream(lists)[..end][start..end];
  }

  /** End to end: when list k's texture is realised, the pass draws the range of the
      index stream that holds exactly list k's indices, rebased by the vertex count of
      the lists before it. */
  lemma DrawCoversItsList(lists: seq<DrawList>, registry: map<U32, Handle>, font: Handle,
                          resources: map<Handle, TextureResource>, textureLayout: nat, k: nat)
    requires k < |lists|
    requires Drawable(Commands(lists, registry, font)[k], resources)
    ensures var start := TotalIndices(lists[..k]);
      var end := start + |lists[k].indices|;
      && end <= |IndexStream(lists)|
      && IndexStream(lists)[start..end] == Rebase(lists[k].indices, TotalVertices(lists[..k]))
      && DrawIndexed(start, end, 0, 0, 1) in DrawPass(Commands(lists, registry, font), resources, textureLayout)
  {
    IndexStreamSegment(lists, k);
    ListDrawn(lists, registry, font, resources, textureLayout, k);
  }

  /** When list k's texture is realised, the pass draws the index range that starts
      after the indices of the lists before it and spans list k's indices. */
  lemma ListDrawn(lists: seq<DrawList>, registry: map<U32, Handle>, font: Handle,
                  resources: map<Handle, TextureResource>, textureLayout: nat, k: nat)
    requires k < |lists|
    requires Drawable(Commands(lists, registry, font)[k], resources)
    ensures DrawIndexed(TotalIndices(lists[..k]), TotalIndices(lists[..k]) + |lists[k].indices|, 0, 0, 1)
            in DrawPass(Commands(lists, registry, font), resources, textureLayout)
  {
    var cmds := Commands(lists, registry, font);
    IndexCountOfCommands(lists, registry, font, k);
    CommandDrawn(cmds, resources, textureLayout, k);
    assert cmds[k].verticesCount == |lists[k].indices|;
  }

  /** A drawable command's indexed draw is in the pass. */
  lemma CommandDrawn(cmds: seq<DrawCommand>, resources: map<Handle, TextureResource>, textureLayout: nat, k: nat)
    requires k < |cmds| && Drawable(cmds[k], resources)
    ensures DrawIndexed(IndexCount(cmds[..k]), IndexCount(cmds[..k]) + cmds[k].verticesCount, 0, 0, 1)
            in DrawPass(cmds, resources, textureLayout)
  {
    DrawPassContains(cmds, resources, textureLayout, k);
    var p := DrawPass(cmds, resources, textureLayout);
    var block := DrawOne(cmds[k], resources, textureLayout, IndexCount(cmds[..k]));
    var at :| HoldsAt(p, at, block);
    HoldsAtElement(p, at, block, 2);
  }

  /** `order` lists each key of the set exactly once (a hash map's iteration order). */
  ghost predicate Enumerates<T(!new)>(order: seq<T>, keys: set<T>)
  {
    && (forall i, j :: 0 <= i < j < |order| ==> order[i] != order[j])
    && (forall h :: h in keys <==> h in order)
  }

  /** One more element taken from the keys still to be visited extends the
      enumeration of the visited ones. */
  lemma EnumeratesExtend<T(!new)>(order: seq<T>, keys: set<T>, remaining: set<T>, x: T)
    requires remaining <= keys && x in remaining
    requires Enumerates(order, keys - remaining)
    ensures Enumerates(order + [x], keys - (remaining - {x}))
  {
    assert keys - (remaining - {x}) == (keys - remaining) + {x};
  }

  /** The keep-alive bindings: each realised texture's bind group at slot 1, in `order`. */
  function TouchAll(order: seq<Handle>, resources: map<Handle, TextureResource>, textureLayout: nat): seq<PassCommand>
    requires forall i :: 0 <= i < |order| ==> order[i] in resources
  {
    seq(|order|, i requires 0 <= i < |order| => SetBindGroup(1, textureLayout, resources[order[i]].bindGroup))
  }

  /** In any iteration order, the keep-alive bindings bind every realised
      texture's bind group, and nothing else, at slot 1. */
  lemma TouchAllBindsEveryResource(order: seq<Handle>, resources: map<Handle, TextureResource>, textureLayout: nat)
    requires Enumerates(order, resources.Keys)
    ensures forall h :: h in resources ==> SetBindGroup(1, textureLayout, resources[h].bindGroup) in TouchAll(order, resources, textureLayout)
    ensures forall c :: c in TouchAll(order, resources, textureLayout) ==>
      c.SetBindGroup? && c.index == 1 && exists h :: h in resources && resources[h].bindGroup == c.group
  {
    var t := TouchAll(order, resources, textureLayout);
    forall h | h in resources
      ensures SetBindGroup(1, textureLayout, resources[h].bindGroup) in t
    {
      var i :| 0 <= i < |order| && order[i] == h;
      assert t[i] == SetBindGroup(1, textureLayout, resources[h].bindGroup);
    }
    forall c | c in t
      ensures c.SetBindGroup? && c.index == 1 && exists h :: h in resources && resources[h].bindGroup == c.group
    {
      var i :| 0 <= i < |t| && t[i] == c;
      assert resources[order[i]].bindGroup == c.group;
    }
  }

  /** The commands that open the pass: pipeline, vertex buffer at slot 0, index
      buffer, and the transform bind group at slot 0. */
  function PassPrelude(pipeline: PipelineHandle, vertexBuffer: GpuId, indexBuffer: GpuId, transformLayout: nat, transformGroup: BindGroup): seq<PassCommand>
  {
    [SetPipeline(pipeline), SetVertexBuffer(0, vertexBuffer, 0), SetIndexBuffer(indexBuffer, 0), SetBindGroup(0, transformLayout, transformGroup)]
  }
}
