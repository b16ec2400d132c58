/** The render node's texture operations together with the GPU calls they make, as
    functions over the node's realised textures and the render context's call log
    and id counter. The node's methods (module Node) are proved to perform exactly
    these steps; here the steps, iterated in any order, are proved to perform the
    reconciliation described in module Reconcile. */
module Textures {
  import opened Engine
  import opened Frame
  import opened Reconcile

  /** The realised textures and the render context as one value. */
  datatype GpuState = GpuState(resources: map<Handle, TextureResource>, log: seq<GpuCall>, nextId: nat)

  /** Releasing a texture frees its GPU texture and sampler. */
  function RemoveCalls(r: TextureResource): seq<GpuCall>
  {
    [RemoveTexture(r.texture), RemoveSampler(r.sampler)]
  }

  /** `remove_texture`: forget the handle and release its GPU objects; nothing when
      the handle is not realised. */
  function RemoveStep(g: GpuState, h: Handle): GpuState
  {
    if h in g.resources then GpuState(g.resources - {h}, g.log + RemoveCalls(g.resources[h]), g.nextId) else g
  }

  /** `copy_texture` with staging buffer `buffer`: upload the pixels into a
      copy-source buffer, copy it into the texture over the cached extent, free it. */
  function CopyCalls(buffer: GpuId, r: TextureResource, asset: TextureAsset): seq<GpuCall>
  {
    [CreateBuffer(buffer, CopySrc, PixelData(asset.data)),
     CopyBufferToTexture(buffer, r.texture, r.descriptor.size),
     RemoveBuffer(buffer)]
  }

  /** `update_texture`: nothing for an unrealised handle; a texture whose
      descriptor changed is removed; otherwise the new pixels are copied in. */
  function UpdateStep(g: GpuState, h: Handle, asset: TextureAsset): GpuState
  {
    if h !in g.resources then g
    else if DescriptorOf(asset) != g.resources[h].descriptor then RemoveStep(g, h)
    else GpuState(g.resources, g.log + CopyCalls(g.nextId, g.resources[h], asset), g.nextId + 1)
  }

  /** The resource `create_texture` builds for an asset when the context hands out
      ids `id` (texture) and `id + 1` (sampler). */
  function NewResource(asset: TextureAsset, id: GpuId): (r: TextureResource)
    ensures r.descriptor == DescriptorOf(asset)
    ensures r.bindGroup == TextureBindGroup(r.texture, r.sampler) && r.texture != r.sampler
  {
    TextureResource(DescriptorOf(asset), id, id + 1, TextureBindGroup(id, id + 1))
  }

  /** `create_texture`: a realised texture only has its bind group re-created; an
      unloaded asset is skipped; otherwise the texture, its sampler and its bind
      group are created, the pixels copied in, and the resource recorded. */
  function CreateStep(g: GpuState, h: Handle, assets: map<Handle, TextureAsset>, layoutId: nat): GpuState
  {
    if h in g.resources then g.(log := g.log + [CreateBindGroup(layoutId, g.resources[h].bindGroup)])
    else if h !in assets then g
    else
      var r := NewResource(assets[h], g.nextId);
      GpuState(g.resources[h := r],
               g.log + [CreateTexture(r.texture, r.descriptor), CreateSampler(r.sampler, assets[h].sampler), CreateBindGroup(layoutId, r.bindGroup)]
                     + CopyCalls(g.nextId + 2, r, assets[h]),
               g.nextId + 3)
  }

  function RemoveAll(g: GpuState, order: seq<Handle>): GpuState
  {
    if order == [] then g else RemoveStep(RemoveAll(g, order[..|order| - 1]), order[|order| - 1])
  }

  function UpdateAll(g: GpuState, order: seq<Handle>, assets: map<Handle, TextureAsset>): GpuState
    requires forall i :: 0 <= i < |order| ==> order[i] in assets
  {
    if order == [] then g else UpdateStep(UpdateAll(g, order[..|order| - 1], assets), order[|order| - 1], assets[order[|order| - 1]])
  }

  function CreateAll(g: GpuState, order: seq<Handle>, assets: map<Handle, TextureAsset>, layoutId: nat): GpuState
  {
    if order == [] then g else CreateStep(CreateAll(g, order[..|order| - 1], assets, layoutId), order[|order| - 1], assets, layoutId)
  }

  /** The GPU calls made while the asset events are applied: each `Removed` of a
      realised handle releases its texture and sampler. */
  function EventCalls(s: EventState, events: seq<AssetEvent>, assets: map<Handle, TextureAsset>): seq<GpuCall>
  {
    if events == [] then []
    else
      var init := events[..|events| - 1];
      var ev := events[|events| - 1];
      var before := ApplyEvents(s, init, assets);
      EventCalls(s, init, assets) + (if ev.Removed? && ev.handle in before.resources then RemoveCalls(before.resources[ev.handle]) else [])
  }

  /** The registry's handles, in the order of `ids`. */
  function HandlesOf(ids: seq<U32>, registry: map<U32, Handle>): (r: seq<Handle>)
    requires forall i :: 0 <= i < |ids| ==> ids[i] in registry
    ensures |r| == |ids| && forall i :: 0 <= i < |ids| ==> r[i] == registry[ids[i]]
  {
    if ids == [] then [] else HandlesOf(ids[..|ids| - 1], registry) + [registry[ids[|ids| - 1]]]
  }

  /** Removing handles one by one, in any order, removes exactly those handles and
      leaves every other texture as it was; the log only grows. */
  lemma {:induction false} RemoveAllRemoves(g: GpuState, order: seq<Handle>)
    ensures RemoveAll(g, order).resources == g.resources - (set h | h in order)
    ensures RemoveAll(g, order).nextId == g.nextId
    ensures g.log <= RemoveAll(g, order).log
  {
    if order != [] {
      var init := order[..|order| - 1];
      var h := order[|order| - 1];
      RemoveAllRemoves(g, init);
      assert (set x | x in order) == (set x | x in init) + {h};
    }
  }

  /** `remove_unused_textures`: removing the textures that are neither the font atlas
      nor registered, in any order, leaves exactly the garbage-collected map. */
  lemma RemoveUnusedIsKeepUsed(g: GpuState, order: seq<Handle>, registry: map<U32, Handle>, font: Handle)
    requires Enumerates(order, set h | h in g.resources && h !in registry.Values && h != font)
    ensures RemoveAll(g, order).resources == KeepUsed(g.resources, registry, font)
  {
    RemoveAllRemoves(g, order);
    assert (set h | h in order) == (set h | h in g.resources && h !in registry.Values && h != font);
  }

  /** One queued update applied to a map from which the other queued updates have
      already been dropped completes the drop. */
  lemma UpdateStepDrops(g: GpuState, h: Handle, queued: set<Handle>, resources: map<Handle, TextureResource>, assets: map<Handle, TextureAsset>)
    requires h in assets && h !in queued
    requires g.resources == DropStale(resources, queued, assets)
    ensures UpdateStep(g, h, assets[h]).resources == DropStale(resources, queued + {h}, assets)
  {
    var r := UpdateStep(g, h, assets[h]);
    var d := DropStale(resources, queued + {h}, assets);
    forall x
      ensures x in r.resources <==> x in d
    {
    }
    forall x | x in d
      ensures r.resources[x] == d[x]
    {
    }
  }

  /** The queued updates, in any order, drop exactly the queued textures whose
      descriptor changed and keep every other texture as it was. */
  lemma {:induction false} UpdateAllIsDropStale(g: GpuState, order: seq<Handle>, queued: set<Handle>, assets: map<Handle, TextureAsset>)
    requires Enumerates(order, queued) && queued <= assets.Keys
    ensures forall i :: 0 <= i < |order| ==> order[i] in assets
    ensures UpdateAll(g, order, assets).resources == DropStale(g.resources, queued, assets)
  {
    if order == [] {
      assert queued == {};
      assert DropStale(g.resources, queued, assets) == g.resources;
    } else {
      var init := order[..|order| - 1];
      var h := order[|order| - 1];
      assert Enumerates(init, queued - {h}) by {
        forall x ensures x in queued - {h} <==> x in init
        {
          if x in init {
            var i :| 0 <= i < |init| && init[i] == x;
            assert order[i] == x && order[|order| - 1] == h;
          }
          if x in queued - {h} {
            var i :| 0 <= i < |order| && order[i] == x;
            assert i < |order| - 1 && init[i] == x;
          }
        }
      }
      UpdateAllIsDropStale(g, init, queued - {h}, assets);
      UpdateStepDrops(UpdateAll(g, init, assets), h, queued - {h}, g.resources, assets);
      assert queued - {h} + {h} == queued;
    }
  }

  /** One creation step extends an initialisation by one wanted handle. */
  lemma CreateStepInitializes(g: GpuState, before: map<Handle, TextureResource>, wanted: set<Handle>,
                              h: Handle, assets: map<Handle, TextureAsset>, layoutId: nat)
    requires InitializedFrom(before, g.resources, wanted, assets)
    ensures InitializedFrom(before, CreateStep(g, h, assets, layoutId).resources, wanted + {h}, assets)
  {
  }

  /** `init_textures`: creating the wanted handles one by one, in any order and
      with repetitions, realises exactly the loaded ones that were missing, from
      their assets' descriptors, and leaves the realised ones as they were. */
  lemma {:induction false} CreateAllInitializes(g: GpuState, order: seq<Handle>, assets: map<Handle, TextureAsset>, layoutId: nat)
    ensures InitializedFrom(g.resources, CreateAll(g, order, assets, layoutId).resources, (set h | h in order), assets)
  {
    if order == [] {
      assert g.resources.Keys + ((set h | h in order) * assets.Keys) == g.resources.Keys;
    } else {
      var init := order[..|order| - 1];
      var h := order[|order| - 1];
      CreateAllInitializes(g, init, assets, layoutId);
      CreateStepInitializes(CreateAll(g, init, assets, layoutId), g.resources, (set x | x in init), h, assets, layoutId);
      assert (set x | x in order) == (set x | x in init) + {h};
    }
  }

  /** Created resources take ids from the counter, so none of them reuses an id
      handed out before; the log only grows. */
  lemma {:induction false} CreateAllFreshIds(g: GpuState, order: seq<Handle>, assets: map<Handle, TextureAsset>, layoutId: nat)
    ensures var r := CreateAll(g, order, assets, layoutId);
      && g.nextId <= r.nextId
      && g.log <= r.log
      && forall h :: h in r.resources && h !in g.resources ==>
           g.nextId <= r.resources[h].texture < r.nextId && g.nextId <= r.resources[h].sampler < r.nextId
  {
    if order != [] {
      CreateAllFreshIds(g, order[..|order| - 1], assets, layoutId);
    }
  }

  /** The handle list of `init_textures`: the font atlas, then one handle per
      registry entry, covers exactly the wanted set. */
  lemma HandlesCoverWanted(ids: seq<U32>, registry: map<U32, Handle>, font: Handle)
    requires Enumerates(ids, registry.Keys)
    ensures forall i :: 0 <= i < |ids| ==> ids[i] in registry
    ensures (set h | h in [font] + HandlesOf(ids, registry)) == Wanted(registry, font)
  {
    var hs := HandlesOf(ids, registry);
    forall h | h in Wanted(registry, font)
      ensures h in [font] + hs
    {
      if h != font {
        var id :| id in registry && registry[id] == h;
        var i :| 0 <= i < |ids| && ids[i] == id;
        assert ([font] + hs)[i + 1] == h;
      }
    }
  }

  /** The calls `init_textures` makes: create the font atlas, then the handle of
      every registry entry, in the order of some enumeration of the registry. */
  ghost predicate InitSequence(g0: GpuState, g1: GpuState, registry: map<U32, Handle>, font: Handle,
                               assets: map<Handle, TextureAsset>, layoutId: nat)
  {
    exists ids :: (Enumerates(ids, registry.Keys) && (forall i :: 0 <= i < |ids| ==> ids[i] in registry)
      && g1 == CreateAll(g0, [font] + HandlesOf(ids, registry), assets, layoutId))
  }

  /** Whatever the enumeration order, `init_textures` realises exactly the wanted
      textures whose assets are loaded, from their descriptors. */
  lemma InitSequenceInitializes(g0: GpuState, g1: GpuState, registry: map<U32, Handle>, font: Handle,
                                assets: map<Handle, TextureAsset>, layoutId: nat)
    requires InitSequence(g0, g1, registry, font, assets, layoutId)
    ensures InitializedFrom(g0.resources, g1.resources, Wanted(registry, font), assets)
  {
    var ids :| Enumerates(ids, registry.Keys) && (forall i :: 0 <= i < |ids| ==> ids[i] in registry)
      && g1 == CreateAll(g0, [font] + HandlesOf(ids, registry), assets, layoutId);
    CreateAllInitializes(g0, [font] + HandlesOf(ids, registry), assets, layoutId);
    HandlesCoverWanted(ids, registry, font);
  }
}
