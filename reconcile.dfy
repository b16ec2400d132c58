/** The texture reconciliation the render node runs before drawing, as pure
    functions over the three maps it couples: the user registry (id to handle), the
    realised textures (handle to resource) and the loaded assets (handle to asset).
    In frame order: asset events (ApplyEvents, then DropStale for the queued
    updates), garbage collection (KeepUsed), then creation of missing textures
    (InitializedFrom). */
module Reconcile {
  import opened Engine
  import opened Lib
  import opened Frame

  /** What the asset-event pass works on: the registry, the realised textures, and
      the handles whose modification is queued. */
  datatype EventState = EventState(registry: map<U32, Handle>, resources: map<Handle, TextureResource>, changed: set<Handle>)

  /** One asset event. Events for handles without a realised texture are ignored;
      `Modified` queues the handle when its asset is loaded; `Removed` purges the
      handle from the registry and the realised textures and cancels its queued
      update. */
  function ApplyEvent(s: EventState, ev: AssetEvent, assets: map<Handle, TextureAsset>): EventState
  {
    var h := ev.handle;
    if h !in s.resources then s
    else match ev
      case Created(_) => s
      case Modified(_) => if h in assets then s.(changed := s.changed + {h}) else s
      case Removed(_) => EventState(WithoutHandle(s.registry, h), s.resources - {h}, s.changed - {h})
  }

  /** The events in the order the event reader yields them. */
  function ApplyEvents(s: EventState, events: seq<AssetEvent>, assets: map<Handle, TextureAsset>): EventState
  {
    if events == [] then s
    else ApplyEvent(ApplyEvents(s, events[..|events| - 1], assets), events[|events| - 1], assets)
  }

  /** Queued handles have a realised texture and a loaded asset. */
  predicate PendingValid(s: EventState, assets: map<Handle, TextureAsset>)
  {
    s.changed <= s.resources.Keys && s.changed <= assets.Keys
  }

  /** An event for a handle without a realised texture changes nothing; in
      particular a `Removed` for it leaves the registry alone. */
  lemma EventForUnrealisedHandleIgnored(s: EventState, ev: AssetEvent, assets: map<Handle, TextureAsset>)
    requires ev.handle !in s.resources
    ensures ApplyEvent(s, ev, assets) == s
  {
  }

  /** `Removed` of a realised handle: the handle leaves both maps and the update
      queue; every other entry of both maps is kept as it was. */
  lemma RemovedPurgesBothMaps(s: EventState, h: Handle, assets: map<Handle, TextureAsset>)
    requires h in s.resources
    ensures var r := ApplyEvent(s, Removed(h), assets);
      && h !in r.resources && h !in r.registry.Values && h !in r.changed
      && (forall g :: g != h ==> (g in r.resources <==> g in s.resources))
      && (forall g :: g in r.resources ==> r.resources[g] == s.resources[g])
      && (forall id :: id in s.registry && s.registry[id] != h ==> id in r.registry && r.registry[id] == s.registry[id])
      && r.changed == s.changed - {h}
  {
  }

  /** A modification followed by a removal of the same handle in one frame leaves
      no queued update for it. */
  lemma ModifiedThenRemovedCancelsUpdate(s: EventState, h: Handle, assets: map<Handle, TextureAsset>)
    requires h in s.resources
    ensures h !in ApplyEvents(s, [Modified(h), Removed(h)], assets).changed
    ensures h !in ApplyEvents(s, [Modified(h), Removed(h)], assets).resources
  {
    var one := [Modified(h)];
    assert one[..0] == [];
    assert ApplyEvents(s, one, assets) == ApplyEvent(s, Modified(h), assets);
    assert [Modified(h), Removed(h)][..1] == one;
  }

  /** The event pass keeps the queue valid, only removes realised textures (never
      adds or alters one), and only removes registry entries. */
  lemma {:induction false} ApplyEventsShrinks(s: EventState, events: seq<AssetEvent>, assets: map<Handle, TextureAsset>)
    requires PendingValid(s, assets)
    ensures var r := ApplyEvents(s, events, assets);
      && PendingValid(r, assets)
      && r.resources.Keys <= s.resources.Keys
      && (forall h :: h in r.resources ==> r.resources[h] == s.resources[h])
      && r.registry.Keys <= s.registry.Keys
      && (forall id :: id in r.registry ==> r.registry[id] == s.registry[id])
  {
    if events != [] {
      ApplyEventsShrinks(s, events[..|events| - 1], assets);
    }
  }

  /** The descriptor of the loaded asset differs from the one the texture was
      created from. */
  predicate Stale(h: Handle, resources: map<Handle, TextureResource>, assets: map<Handle, TextureAsset>)
    requires h in resources && h in assets
  {
    DescriptorOf(assets[h]) != resources[h].descriptor
  }

  /** The realised textures after the queued updates: a queued texture whose
      descriptor changed is dropped (to be re-created later); every other texture,
      including a queued one with an equal descriptor, is kept. */
  function DropStale(resources: map<Handle, TextureResource>, queued: set<Handle>, assets: map<Handle, TextureAsset>): (r: map<Handle, TextureResource>)
    ensures forall h :: h in r <==> h in resources && !(h in queued && h in assets && Stale(h, resources, assets))
    ensures forall h :: h in r ==> r[h] == resources[h]
  {
    map h | h in resources && !(h in queued && h in assets && Stale(h, resources, assets)) :: resources[h]
  }

  /** The realised textures after garbage collection: exactly those that are the
      font atlas or referenced by the registry, each unchanged. */
  function KeepUsed(resources: map<Handle, TextureResource>, registry: map<U32, Handle>, font: Handle): (r: map<Handle, TextureResource>)
    ensures forall h :: h in r <==> h in resources && (h == font || h in registry.Values)
    ensures forall h :: h in r ==> r[h] == resources[h]
  {
    map h | h in resources && (h == font || h in registry.Values) :: resources[h]
  }

  /** `after` is `before` once every wanted handle has been given a texture if it
      had none and its asset is loaded: existing textures are kept as they were,
      unloaded assets are skipped, and each new texture is built from its asset's
      descriptor with a bind group of its own texture and sampler. */
  ghost predicate InitializedFrom(before: map<Handle, TextureResource>, after: map<Handle, TextureResource>,
                                  wanted: set<Handle>, assets: map<Handle, TextureAsset>)
  {
    && after.Keys == before.Keys + (wanted * assets.Keys)
    && (forall h :: h in before ==> after[h] == before[h])
    && (forall h :: h in after && h !in before ==>
          && h in assets
          && after[h].descriptor == DescriptorOf(assets[h])
          && after[h].bindGroup == TextureBindGroup(after[h].texture, after[h].sampler))
  }

  /** Every realised texture's bind group holds its own texture and sampler. */
  predicate Bound(resources: map<Handle, TextureResource>)
  {
    forall h :: h in resources ==> resources[h].bindGroup == TextureBindGroup(resources[h].texture, resources[h].sampler)
  }

  /** Initialisation keeps every realised texture bound to its own texture and
      sampler: old textures are unchanged and each new one is built bound. */
  lemma InitializedStaysBound(before: map<Handle, TextureResource>, after: map<Handle, TextureResource>,
                              wanted: set<Handle>, assets: map<Handle, TextureAsset>)
    requires Bound(before) && InitializedFrom(before, after, wanted, assets)
    ensures Bound(after)
  {
  }

  /** The textures wanted in a frame: the font atlas and every registered handle. */
  function Wanted(registry: map<U32, Handle>, font: Handle): (r: set<Handle>)
    ensures forall h :: h in r <==> h == font || exists id :: id in registry && registry[id] == h
  {
    {font} + registry.Values
  }

  /** Garbage collection followed by initialisation converges: afterwards every
      realised texture is the font atlas or registered, the font atlas is realised
      once its asset is loaded, and so is every registered handle whose asset is
      loaded. */
  lemma FrameConverges(before: map<Handle, TextureResource>, registry: map<U32, Handle>, font: Handle,
                       assets: map<Handle, TextureAsset>, after: map<Handle, TextureResource>)
    requires InitializedFrom(KeepUsed(before, registry, font), after, Wanted(registry, font), assets)
    ensures forall h :: h in after ==> h == font || h in registry.Values
    ensures font in assets ==> font in after
    ensures forall id :: id in registry && registry[id] in assets ==> registry[id] in after
  {
    forall id | id in registry && registry[id] in assets
      ensures registry[id] in after
    {
      assert registry[id] in Wanted(registry, font);
    }
  }

  /** Descriptor change (the texture is re-created from the new descriptor): a queued
      modification whose descriptor differs drops the texture, and the same frame's
      initialisation re-creates it from the asset's new descriptor when it is still
      wanted. */
  lemma DescriptorChangeRecreates(resources: map<Handle, TextureResource>, queued: set<Handle>,
                                  registry: map<U32, Handle>, font: Handle, assets: map<Handle, TextureAsset>,
                                  after: map<Handle, TextureResource>, h: Handle)
    requires h in resources && h in queued && h in assets && Stale(h, resources, assets)
    requires h in Wanted(registry, font)
    requires InitializedFrom(KeepUsed(DropStale(resources, queued, assets), registry, font), after, Wanted(registry, font), assets)
    ensures h !in DropStale(resources, queued, assets)
    ensures h in after && after[h].descriptor == DescriptorOf(assets[h]) != resources[h].descriptor
  {
  }

  /** A texture whose asset is not loaded yet is skipped, and is created on the
      first frame its asset is loaded. */
  lemma LateLoadingTexture(before: map<Handle, TextureResource>, after: map<Handle, TextureResource>,
                           wanted: set<Handle>, assets: map<Handle, TextureAsset>, h: Handle)
    requires InitializedFrom(before, after, wanted, assets)
    requires h in wanted && h !in before
    ensures h in after <==> h in assets
    ensures h in after ==> after[h].descriptor == DescriptorOf(assets[h])
  {
  }
}
