/**
 * Mixin discovery (fillMixins) as a specification on values: an ordered list
 * of mixins plus a key-to-mixin index, threaded through a walk of the
 * descriptor graph. Each mixins block is processed in two passes: first every
 * not-yet-seen direct mixin is appended, then every mixin marked `recurse` is
 * walked into, whether it was new or not.
 *
 * The walk is given a depth: a recursion that would go below zero yields
 * Failed(DepthExhausted). The loader's methods require that outcome not to
 * arise. That holds for some depth exactly when the unbounded recursion ends
 * instead of overflowing the stack: a self-declaring mixin never qualifies
 * (SelfCycleExhausts). Within a Bounded depth the outcome never arises
 * (FillWithinDepth), and a finite acyclic graph has such a depth. A cyclic
 * graph qualifies when an error stops the walk before it comes round
 * (CycleStoppedByLoadError).
 */
module Discovery {
  import opened MixinTypes

  /** The list of mixins in merge order and the index used for membership tests. */
  datatype Registry = Registry(list: seq<Mixin>, index: map<string, Mixin>)

  /** The registry after a walk, and whether the walk completed. */
  datatype Walk = Walk(registry: Registry, outcome: Outcome)

  /** The registry a top-level resolution starts from. */
  function EmptyRegistry(): Registry
  {
    Registry([], map[])
  }

  /**
   * No key occurs twice in the list, each listed mixin is the index entry for
   * its key, and the index holds no other key.
   */
  ghost predicate Valid(r: Registry)
  {
    && (forall i, j :: 0 <= i < j < |r.list| ==> r.list[i].key != r.list[j].key)
    && (forall i :: 0 <= i < |r.list| ==> r.list[i].key in r.index && r.index[r.list[i].key] == r.list[i])
    && (forall k :: k in r.index ==> exists i :: 0 <= i < |r.list| && r.list[i].key == k)
  }

  /** r' only grew from r: the old list is a prefix, and no index entry was replaced. */
  ghost predicate Extends(r: Registry, r': Registry)
  {
    && r.list <= r'.list
    && (forall k :: k in r.index ==> k in r'.index && r'.index[k] == r.index[k])
  }

  /**
   * The working copy that discovery extracts blocks from: a copy of `d` whose
   * properties are overlaid with the owner's, then interpolated. The
   * interpolation problems go to a collector that is never checked.
   */
  function WorkingCopy(services: Services, ownerProperties: map<string, string>, d: Descriptor): Descriptor
  {
    services.interpolate(d.(properties := Some(Overlay(d.properties, ownerProperties)))).model
  }

  /** The mixins blocks discovery processes for `d`. */
  function BlocksOf(services: Services, ownerProperties: map<string, string>, d: Descriptor): seq<PluginConfiguration>
  {
    MixinBlocks(PluginsOf(WorkingCopy(services, ownerProperties, d)))
  }

  /** The first pass over one block: append each mixin whose key is not yet indexed. */
  function AddDirect(services: Services, r: Registry, ms: seq<Mixin>): Walk
    decreases |ms|
  {
    if ms == [] then Walk(r, Done)
    else if ms[0].key in r.index then AddDirect(services, r, ms[1..])
    else if services.load(ms[0].key).None? then Walk(r, Failed(LoadError(ms[0].key)))
    else AddDirect(services, Registry(r.list + [ms[0]], r.index[ms[0].key := ms[0]]), ms[1..])
  }

  /** Discovery from one descriptor. */
  function Fill(services: Services, ownerProperties: map<string, string>, r: Registry, d: Descriptor, depth: nat): Walk
    decreases depth, 2, 0
  {
    FillBlocks(services, ownerProperties, r, BlocksOf(services, ownerProperties, d), depth)
  }

  /** Both passes over each block in turn; the first failure stops the walk. */
  function FillBlocks(services: Services, ownerProperties: map<string, string>, r: Registry,
                      bs: seq<PluginConfiguration>, depth: nat): Walk
    decreases depth, 1, |bs|
  {
    if bs == [] then Walk(r, Done)
    else
      match LoadConfiguration(bs[0])
      case Err(f) => Walk(r, Failed(f))
      case Ok(ms) =>
        var w1 := AddDirect(services, r, ms);
        if w1.outcome.Failed? then w1
        else
          var w2 := RecurseInto(services, ownerProperties, w1.registry, ms, depth);
          if w2.outcome.Failed? then w2
          else FillBlocks(services, ownerProperties, w2.registry, bs[1..], depth)
  }

  /** The second pass over one block: walk into every mixin marked `recurse`. */
  function RecurseInto(services: Services, ownerProperties: map<string, string>, r: Registry,
                       ms: seq<Mixin>, depth: nat): Walk
    decreases depth, 0, |ms|
  {
    if ms == [] then Walk(r, Done)
    else if !ms[0].recurse then RecurseInto(services, ownerProperties, r, ms[1..], depth)
    else
      match services.load(ms[0].key)
      case None => Walk(r, Failed(LoadError(ms[0].key)))
      case Some(child) =>
        if depth == 0 then Walk(r, Failed(DepthExhausted))
        else
          var w := Fill(services, ownerProperties, r, child, depth - 1);
          if w.outcome.Failed? then w
          else RecurseInto(services, ownerProperties, w.registry, ms[1..], depth)
  }

  /**
   * The mixins of `ms` that the first pass appends when `seen` keys are
   * already indexed: the first mixin for each new key, in declaration order.
   */
  function NewMixins(seen: set<string>, ms: seq<Mixin>): seq<Mixin>
    decreases |ms|
  {
    if ms == [] then []
    else if ms[0].key in seen then NewMixins(seen, ms[1..])
    else [ms[0]] + NewMixins(seen + {ms[0].key}, ms[1..])
  }

  /**
   * The new mixins are declared in the block and unseen, they cover every
   * unseen key of the block, and no key among them repeats.
   */
  lemma {:induction false} NewMixinsExactly(seen: set<string>, ms: seq<Mixin>)
    ensures forall x :: x in NewMixins(seen, ms) ==> x in ms && x.key !in seen
    ensures forall m :: m in ms && m.key !in seen ==> m.key in KeysOf(NewMixins(seen, ms))
    ensures forall i, j :: 0 <= i < j < |NewMixins(seen, ms)| ==>
      NewMixins(seen, ms)[i].key != NewMixins(seen, ms)[j].key
    decreases |ms|
  {
    if ms != [] {
      var m0 := ms[0];
      var tail := ms[1..];
      assert forall x :: x in tail ==> x in ms;
      assert forall m :: m in ms && m != m0 ==> m in tail;
      if m0.key in seen {
        NewMixinsExactly(seen, tail);
      } else {
        var rest := NewMixins(seen + {m0.key}, tail);
        NewMixinsExactly(seen + {m0.key}, tail);
        assert NewMixins(seen, ms) == [m0] + rest;
        assert KeysOf([m0] + rest) == {m0.key} + KeysOf(rest);
        forall i, j | 0 <= i < j < |[m0] + rest|
          ensures ([m0] + rest)[i].key != ([m0] + rest)[j].key
        {
          if i == 0 {
            assert ([m0] + rest)[j] == rest[j - 1];
            assert rest[j - 1] in rest;
          }
        }
      }
    }
  }

  /** The keys of a list of mixins. */
  function KeysOf(ms: seq<Mixin>): set<string>
  {
    set m | m in ms :: m.key
  }

  /**
   * The graph below `d` has no recursion path longer than `depth`: every
   * mixin marked `recurse` in a well-formed block of d's working copy, and
   * that the cache can load, leads to a descriptor bounded by depth - 1.
   */
  ghost predicate Bounded(services: Services, ownerProperties: map<string, string>, d: Descriptor, depth: nat)
    decreases depth, 1
  {
    forall b :: b in BlocksOf(services, ownerProperties, d) ==> BlockBounded(services, ownerProperties, b, depth)
  }

  ghost predicate BlockBounded(services: Services, ownerProperties: map<string, string>, b: PluginConfiguration, depth: nat)
    decreases depth, 0
  {
    b.Wellformed? ==>
      forall m :: m in b.mixins && m.recurse && services.load(m.key).Some? ==>
        depth > 0 && Bounded(services, ownerProperties, services.load(m.key).value, depth - 1)
  }

  // ---------------------------------------------------------------------------
  // Growth: discovery only appends, never replaces an index entry, and keeps
  // the registry duplicate-free and consistent with its index.
  // ---------------------------------------------------------------------------

  /** The registry is valid and every listed mixin is loaded. */
  ghost predicate Sound(services: Services, r: Registry)
  {
    Valid(r) && AllLoaded(services, r.list)
  }

  /** r' extends r, and soundness carries over from r to r'. */
  ghost predicate Grows(services: Services, r: Registry, r': Registry)
  {
    Extends(r, r') && (Sound(services, r) ==> Sound(services, r'))
  }

  lemma GrowsTransitive(services: Services, r1: Registry, r2: Registry, r3: Registry)
    requires Grows(services, r1, r2) && Grows(services, r2, r3)
    ensures Grows(services, r1, r3)
  {
  }

  /** Appending one mixin with an unindexed, loadable key keeps the registry valid and loaded. */
  lemma {:induction false} AppendKeepsValid(services: Services, r: Registry, m: Mixin)
    requires Sound(services, r)
    requires m.key !in r.index && services.load(m.key).Some?
    ensures Sound(services, Registry(r.list + [m], r.index[m.key := m]))
  {
    var r' := Registry(r.list + [m], r.index[m.key := m]);
    forall k | k in r'.index
      ensures exists i :: 0 <= i < |r'.list| && r'.list[i].key == k
    {
      if k == m.key {
        assert r'.list[|r.list|].key == k;
      } else {
        var i :| 0 <= i < |r.list| && r.list[i].key == k;
        assert r'.list[i].key == k;
      }
    }
  }

  lemma {:induction false} AddDirectGrows(services: Services, r: Registry, ms: seq<Mixin>)
    ensures Grows(services, r, AddDirect(services, r, ms).registry)
    decreases |ms|
  {
    if ms == [] {
    } else if ms[0].key in r.index {
      AddDirectGrows(services, r, ms[1..]);
    } else if services.load(ms[0].key).None? {
    } else {
      var r1 := Registry(r.list + [ms[0]], r.index[ms[0].key := ms[0]]);
      if Sound(services, r) {
        AppendKeepsValid(services, r, ms[0]);
      }
      assert Grows(services, r, r1);
      AddDirectGrows(services, r1, ms[1..]);
      GrowsTransitive(services, r, r1, AddDirect(services, r1, ms[1..]).registry);
    }
  }

  /**
   * Discovery only appends to the list and never replaces an index entry;
   * from a sound registry it yields a sound one, so the first discovery of a
   * key wins and no key is listed twice.
   */
  lemma {:induction false} FillGrows(services: Services, ownerProperties: map<string, string>, r: Registry,
                                     d: Descriptor, depth: nat)
    ensures Grows(services, r, Fill(services, ownerProperties, r, d, depth).registry)
    decreases depth, 2, 0
  {
    FillBlocksGrows(services, ownerProperties, r, BlocksOf(services, ownerProperties, d), depth);
  }

  lemma {:induction false} FillBlocksGrows(services: Services, ownerProperties: map<string, string>, r: Registry,
                                           bs: seq<PluginConfiguration>, depth: nat)
    ensures Grows(services, r, FillBlocks(services, ownerProperties, r, bs, depth).registry)
    decreases depth, 1, |bs|
  {
    if bs != [] && bs[0].Wellformed? {
      var ms := bs[0].mixins;
      var w1 := AddDirect(services, r, ms);
      AddDirectGrows(services, r, ms);
      if w1.outcome.Done? {
        var w2 := RecurseInto(services, ownerProperties, w1.registry, ms, depth);
        RecurseIntoGrows(services, ownerProperties, w1.registry, ms, depth);
        GrowsTransitive(services, r, w1.registry, w2.registry);
        if w2.outcome.Done? {
          var w3 := FillBlocks(services, ownerProperties, w2.registry, bs[1..], depth);
          FillBlocksGrows(services, ownerProperties, w2.registry, bs[1..], depth);
          GrowsTransitive(services, r, w2.registry, w3.registry);
        }
      }
    }
  }

  lemma {:induction false} RecurseIntoGrows(services: Services, ownerProperties: map<string, string>, r: Registry,
                                            ms: seq<Mixin>, depth: nat)
    ensures Grows(services, r, RecurseInto(services, ownerProperties, r, ms, depth).registry)
    decreases depth, 0, |ms|
  {
    if ms == [] {
    } else if !ms[0].recurse {
      RecurseIntoGrows(services, ownerProperties, r, ms[1..], depth);
    } else if services.load(ms[0].key).Some? && depth > 0 {
      var w := Fill(services, ownerProperties, r, services.load(ms[0].key).value, depth - 1);
      FillGrows(services, ownerProperties, r, services.load(ms[0].key).value, depth - 1);
      if w.outcome.Done? {
        RecurseIntoGrows(services, ownerProperties, w.registry, ms[1..], depth);
        GrowsTransitive(services, r, w.registry, RecurseInto(services, ownerProperties, w.registry, ms[1..], depth).registry);
      }
    }
  }

  // ---------------------------------------------------------------------------
  // Order: within one block, the new direct mixins come first, in order.
  // ---------------------------------------------------------------------------

  /** A completed first pass appends exactly the new mixins of the block, in declaration order. */
  lemma {:induction false} AddDirectAppends(services: Services, r: Registry, ms: seq<Mixin>)
    requires AddDirect(services, r, ms).outcome.Done?
    ensures AddDirect(services, r, ms).registry.list == r.list + NewMixins(r.index.Keys, ms)
    ensures AddDirect(services, r, ms).registry.index.Keys == r.index.Keys + KeysOf(ms)
    decreases |ms|
  {
    if ms != [] {
      assert ms == [ms[0]] + ms[1..];
      KeysOfAppend([ms[0]], ms[1..]);
      if ms[0].key in r.index {
        AddDirectAppends(services, r, ms[1..]);
      } else {
        var r1 := Registry(r.list + [ms[0]], r.index[ms[0].key := ms[0]]);
        AddDirectAppends(services, r1, ms[1..]);
        assert r1.index.Keys == r.index.Keys + {ms[0].key};
        assert r.index.Keys + {ms[0].key} == r.index.Keys + KeysOf([ms[0]]);
        assert r1.index.Keys - {ms[0].key} == r.index.Keys;
        assert NewMixins(r.index.Keys, ms) == [ms[0]] + NewMixins(r1.index.Keys, ms[1..]);
      }
    }
  }

  lemma KeysOfAppend(a: seq<Mixin>, b: seq<Mixin>)
    ensures KeysOf(a + b) == KeysOf(a) + KeysOf(b)
  {
    assert forall m :: m in a + b <==> m in a || m in b;
  }

  /**
   * For one mixins block reached with registry r: when all its direct mixins
   * load, the list afterwards starts with r's list followed by the block's new
   * mixins in declaration order, before anything reached by recursion.
   */
  lemma {:induction false} DirectBeforeRecursive(services: Services, ownerProperties: map<string, string>, r: Registry,
                                                 bs: seq<PluginConfiguration>, depth: nat)
    requires bs != [] && bs[0].Wellformed?
    requires AddDirect(services, r, bs[0].mixins).outcome.Done?
    ensures r.list + NewMixins(r.index.Keys, bs[0].mixins) <= FillBlocks(services, ownerProperties, r, bs, depth).registry.list
  {
    var ms := bs[0].mixins;
    var w1 := AddDirect(services, r, ms);
    AddDirectAppends(services, r, ms);
    var w2 := RecurseInto(services, ownerProperties, w1.registry, ms, depth);
    RecurseIntoGrows(services, ownerProperties, w1.registry, ms, depth);
    if w2.outcome.Done? {
      FillBlocksGrows(services, ownerProperties, w2.registry, bs[1..], depth);
    }
  }

  /** After a completed walk, every mixin declared in a block of d's working copy is indexed. */
  lemma {:induction false} FillIndexesDeclared(services: Services, ownerProperties: map<string, string>, r: Registry,
                                               d: Descriptor, depth: nat)
    requires Fill(services, ownerProperties, r, d, depth).outcome.Done?
    ensures forall b, m :: b in BlocksOf(services, ownerProperties, d) && b.Wellformed? && m in b.mixins ==>
      m.key in Fill(services, ownerProperties, r, d, depth).registry.index
  {
    FillBlocksIndexesDeclared(services, ownerProperties, r, BlocksOf(services, ownerProperties, d), depth);
  }

  lemma {:induction false} FillBlocksIndexesDeclared(services: Services, ownerProperties: map<string, string>, r: Registry,
                                                     bs: seq<PluginConfiguration>, depth: nat)
    requires FillBlocks(services, ownerProperties, r, bs, depth).outcome.Done?
    ensures forall b, m :: b in bs && b.Wellformed? && m in b.mixins ==>
      m.key in FillBlocks(services, ownerProperties, r, bs, depth).registry.index
    decreases |bs|
  {
    if bs != [] {
      var ms := bs[0].mixins;
      var w1 := AddDirect(services, r, ms);
      AddDirectAppends(services, r, ms);
      var w2 := RecurseInto(services, ownerProperties, w1.registry, ms, depth);
      RecurseIntoGrows(services, ownerProperties, w1.registry, ms, depth);
      var w3 := FillBlocks(services, ownerProperties, w2.registry, bs[1..], depth);
      FillBlocksGrows(services, ownerProperties, w2.registry, bs[1..], depth);
      FillBlocksIndexesDeclared(services, ownerProperties, w2.registry, bs[1..], depth);
      forall b, m | b in bs && b.Wellformed? && m in b.mixins
        ensures m.key in w3.registry.index
      {
        if b == bs[0] {
          assert m.key in w1.registry.index;
        } else {
          assert b in bs[1..];
        }
      }
    }
  }

  // ---------------------------------------------------------------------------
  // Coverage: a completed walk indexes exactly the keys declared along it.
  // ---------------------------------------------------------------------------

  /**
   * The keys declared in the mixins blocks of d's working copy and, through
   * every loadable mixin marked `recurse`, in the blocks of the descriptors
   * reached from them, within `depth` recursion steps.
   */
  ghost function Reached(services: Services, ownerProperties: map<string, string>, d: Descriptor, depth: nat): set<string>
    decreases depth, 2, 0
  {
    ReachedFromBlocks(services, ownerProperties, BlocksOf(services, ownerProperties, d), depth)
  }

  ghost function ReachedFromBlocks(services: Services, ownerProperties: map<string, string>,
                                   bs: seq<PluginConfiguration>, depth: nat): set<string>
    decreases depth, 1, |bs|
  {
    if bs == [] then {}
    else
      (if bs[0].Wellformed? then KeysOf(bs[0].mixins) + ReachedThrough(services, ownerProperties, bs[0].mixins, depth) else {})
      + ReachedFromBlocks(services, ownerProperties, bs[1..], depth)
  }

  ghost function ReachedThrough(services: Services, ownerProperties: map<string, string>,
                                ms: seq<Mixin>, depth: nat): set<string>
    decreases depth, 0, |ms|
  {
    if ms == [] then {}
    else
      (if ms[0].recurse && services.load(ms[0].key).Some? && depth > 0
       then Reached(services, ownerProperties, services.load(ms[0].key).value, depth - 1)
       else {})
      + ReachedThrough(services, ownerProperties, ms[1..], depth)
  }

  /** A completed walk adds to the index exactly the keys declared along it. */
  lemma {:induction false} FillIndexesReached(services: Services, ownerProperties: map<string, string>, r: Registry,
                                              d: Descriptor, depth: nat)
    requires Fill(services, ownerProperties, r, d, depth).outcome.Done?
    ensures Fill(services, ownerProperties, r, d, depth).registry.index.Keys
         == r.index.Keys + Reached(services, ownerProperties, d, depth)
    decreases depth, 2, 0
  {
    FillBlocksIndexesReached(services, ownerProperties, r, BlocksOf(services, ownerProperties, d), depth);
  }

  lemma {:induction false} FillBlocksIndexesReached(services: Services, ownerProperties: map<string, string>, r: Registry,
                                                    bs: seq<PluginConfiguration>, depth: nat)
    requires FillBlocks(services, ownerProperties, r, bs, depth).outcome.Done?
    ensures FillBlocks(services, ownerProperties, r, bs, depth).registry.index.Keys
         == r.index.Keys + ReachedFromBlocks(services, ownerProperties, bs, depth)
    decreases depth, 1, |bs|
  {
    if bs != [] {
      assert bs[0].Wellformed?;
      var ms := bs[0].mixins;
      var w1 := AddDirect(services, r, ms);
      AddDirectAppends(services, r, ms);
      var w2 := RecurseInto(services, ownerProperties, w1.registry, ms, depth);
      RecurseIntoIndexesReached(services, ownerProperties, w1.registry, ms, depth);
      FillBlocksIndexesReached(services, ownerProperties, w2.registry, bs[1..], depth);
    }
  }

  lemma {:induction false} RecurseIntoIndexesReached(services: Services, ownerProperties: map<string, string>, r: Registry,
                                                     ms: seq<Mixin>, depth: nat)
    requires RecurseInto(services, ownerProperties, r, ms, depth).outcome.Done?
    ensures RecurseInto(services, ownerProperties, r, ms, depth).registry.index.Keys
         == r.index.Keys + ReachedThrough(services, ownerProperties, ms, depth)
    decreases depth, 0, |ms|
  {
    if ms != [] {
      if !ms[0].recurse {
        RecurseIntoIndexesReached(services, ownerProperties, r, ms[1..], depth);
      } else {
        var child := services.load(ms[0].key).value;
        var w := Fill(services, ownerProperties, r, child, depth - 1);
        FillIndexesReached(services, ownerProperties, r, child, depth - 1);
        RecurseIntoIndexesReached(services, ownerProperties, w.registry, ms[1..], depth);
      }
    }
  }

  /**
   * A completed resolution from the empty registry lists every key declared
   * along the walk, each exactly once, and no other key: a mixin reachable
   * along several paths is listed once.
   */
  lemma ResolvedExactlyReached(services: Services, ownerProperties: map<string, string>, d: Descriptor, depth: nat)
    requires Fill(services, ownerProperties, EmptyRegistry(), d, depth).outcome.Done?
    ensures var list := Fill(services, ownerProperties, EmptyRegistry(), d, depth).registry.list;
      && KeysOf(list) == Reached(services, ownerProperties, d, depth)
      && (forall i, j :: 0 <= i < j < |list| ==> list[i].key != list[j].key)
  {
    var w := Fill(services, ownerProperties, EmptyRegistry(), d, depth);
    var list := w.registry.list;
    FillIndexesReached(services, ownerProperties, EmptyRegistry(), d, depth);
    FillGrows(services, ownerProperties, EmptyRegistry(), d, depth);
    assert Sound(services, EmptyRegistry());
    assert Valid(w.registry);
    forall k | k in KeysOf(list)
      ensures k in w.registry.index
    {
      var m :| m in list && m.key == k;
      var i :| 0 <= i < |list| && list[i] == m;
    }
    forall k | k in w.registry.index
      ensures k in KeysOf(list)
    {
      var i :| 0 <= i < |list| && list[i].key == k;
      assert list[i] in list;
    }
  }

  // ---------------------------------------------------------------------------
  // Plugins that are not the mixin plugin, and the depth bound.
  // ---------------------------------------------------------------------------

  /** A working copy without a build section or without the mixin plugin changes nothing. */
  lemma NoMixinPluginNoChange(services: Services, ownerProperties: map<string, string>, r: Registry,
                              d: Descriptor, depth: nat)
    requires forall p :: p in PluginsOf(WorkingCopy(services, ownerProperties, d)) ==> !IsMixinPlugin(p)
    ensures Fill(services, ownerProperties, r, d, depth) == Walk(r, Done)
  {
  }

  /** A malformed block stops discovery with a configuration error; later blocks are not read. */
  lemma MalformedBlockStops(services: Services, ownerProperties: map<string, string>, r: Registry,
                            bs: seq<PluginConfiguration>, depth: nat)
    requires bs != [] && bs[0].Malformed?
    ensures FillBlocks(services, ownerProperties, r, bs, depth).registry == r
    ensures FillBlocks(services, ownerProperties, r, bs, depth).outcome.Failed?
    ensures FillBlocks(services, ownerProperties, r, bs, depth).outcome.failure.ConfigurationError?
  {
  }

  /** Within the depth bound, discovery never runs out of depth. */
  lemma {:induction false} FillWithinDepth(services: Services, ownerProperties: map<string, string>, r: Registry,
                                           d: Descriptor, depth: nat)
    requires Bounded(services, ownerProperties, d, depth)
    ensures Fill(services, ownerProperties, r, d, depth).outcome != Failed(DepthExhausted)
    decreases depth, 2, 0
  {
    FillBlocksWithinDepth(services, ownerProperties, r, BlocksOf(services, ownerProperties, d), depth);
  }

  lemma {:induction false} FillBlocksWithinDepth(services: Services, ownerProperties: map<string, string>, r: Registry,
                                                 bs: seq<PluginConfiguration>, depth: nat)
    requires forall b :: b in bs ==> BlockBounded(services, ownerProperties, b, depth)
    ensures FillBlocks(services, ownerProperties, r, bs, depth).outcome != Failed(DepthExhausted)
    decreases depth, 1, |bs|
  {
    if bs != [] && bs[0].Wellformed? {
      var ms := bs[0].mixins;
      var w1 := AddDirect(services, r, ms);
      AddDirectNeverExhausts(services, r, ms);
      if w1.outcome.Done? {
        assert BlockBounded(services, ownerProperties, bs[0], depth);
        RecurseIntoWithinDepth(services, ownerProperties, w1.registry, ms, depth);
        var w2 := RecurseInto(services, ownerProperties, w1.registry, ms, depth);
        if w2.outcome.Done? {
          FillBlocksWithinDepth(services, ownerProperties, w2.registry, bs[1..], depth);
        }
      }
    }
  }

  lemma {:induction false} RecurseIntoWithinDepth(services: Services, ownerProperties: map<string, string>, r: Registry,
                                                  ms: seq<Mixin>, depth: nat)
    requires forall m :: m in ms && m.recurse && services.load(m.key).Some? ==>
      depth > 0 && Bounded(services, ownerProperties, services.load(m.key).value, depth - 1)
    ensures RecurseInto(services, ownerProperties, r, ms, depth).outcome != Failed(DepthExhausted)
    decreases depth, 0, |ms|
  {
    if ms == [] {
    } else if !ms[0].recurse {
      RecurseIntoWithinDepth(services, ownerProperties, r, ms[1..], depth);
    } else if services.load(ms[0].key).Some? {
      var child := services.load(ms[0].key).value;
      FillWithinDepth(services, ownerProperties, r, child, depth - 1);
      var w := Fill(services, ownerProperties, r, child, depth - 1);
      if w.outcome.Done? {
        RecurseIntoWithinDepth(services, ownerProperties, w.registry, ms[1..], depth);
      }
    }
  }

  lemma {:induction false} AddDirectNeverExhausts(services: Services, r: Registry, ms: seq<Mixin>)
    ensures AddDirect(services, r, ms).outcome != Failed(DepthExhausted)
    decreases |ms|
  {
    if ms != [] {
      if ms[0].key in r.index {
        AddDirectNeverExhausts(services, r, ms[1..]);
      } else if services.load(ms[0].key).Some? {
        AddDirectNeverExhausts(services, Registry(r.list + [ms[0]], r.index[ms[0].key := ms[0]]), ms[1..]);
      }
    }
  }
}

/** A worked instance of the discovery order. */
module DiscoveryExample {
  import opened MixinTypes
  import opened Discovery

  const A := Mixin("A", true, false)
  const B := Mixin("B", false, false)
  const C := Mixin("C", false, false)

  function Declaring(ms: seq<Mixin>): Descriptor
  {
    Descriptor(None, Some([Plugin(PLUGIN_GROUPID, PLUGIN_ARTIFACTID, Wellformed(ms))]), [])
  }

  /** Collaborators that change nothing; the cache gives A's descriptor for "A" and an empty one otherwise. */
  function Inert(): Services
  {
    Services(
      k => if k == "A" then Some(Declaring([C])) else Some(Descriptor(None, None, [])),
      d => Processed(d, []),
      (ps, ctx) => Selection([], []),
      (d, p) => Processed(d, []),
      d => Processed(d, []),
      (m, src, dst) => dst,
      d => d,
      d => Processed(d, []))
  }

  /**
   * A project declaring [A(recurse), B], where A declares [C], resolves to
   * [A, B, C]: both direct mixins come before the one found through A.
   */
  lemma DirectMixinsFirst()
    ensures Fill(Inert(), map[], EmptyRegistry(), Declaring([A, B]), 1) == Walk(Registry([A, B, C], map["A" := A, "B" := B, "C" := C]), Done)
  {
    var s := Inert();
    assert BlocksOf(s, map[], Declaring([A, B])) == [Wellformed([A, B])];
    assert BlocksOf(s, map[], Declaring([C])) == [Wellformed([C])];
    var r0 := Registry([A], map["A" := A]);
    var r1 := Registry([A, B], map["A" := A, "B" := B]);
    assert [A, B][1..] == [B];
    assert AddDirect(s, r0, [B]) == Walk(r1, Done);
    assert Registry(EmptyRegistry().list + [A], EmptyRegistry().index["A" := A]) == r0;
    assert AddDirect(s, EmptyRegistry(), [A, B]) == Walk(r1, Done);
    var r2 := Registry([A, B, C], map["A" := A, "B" := B, "C" := C]);
    assert AddDirect(s, r1, [C]) == Walk(r2, Done);
    assert RecurseInto(s, map[], r2, [C], 0) == Walk(r2, Done);
    assert Fill(s, map[], r1, Declaring([C]), 0) == Walk(r2, Done);
    assert RecurseInto(s, map[], r2, [B], 1) == Walk(r2, Done);
    assert RecurseInto(s, map[], r1, [A, B], 1) == Walk(r2, Done);
  }
  const X := Mixin("X", false, false)

  /** Like Inert, but the cache gives A a descriptor declaring [X, A(recurse)] and cannot load anything else. */
  function MissingInCycle(): Services
  {
    Inert().(load := k => if k == "A" then Some(Declaring([X, A])) else None)
  }

  /**
   * A project declaring [A(recurse)], where A declares the unloadable X and
   * then A itself: the graph is cyclic, yet the walk stops on X with a load
   * error before it comes back to A, without running out of depth 1.
   */
  lemma CycleStoppedByLoadError()
    ensures Fill(MissingInCycle(), map[], EmptyRegistry(), Declaring([A]), 1)
         == Walk(Registry([A], map["A" := A]), Failed(LoadError("X")))
  {
    var s := MissingInCycle();
    var r0 := Registry([A], map["A" := A]);
    assert BlocksOf(s, map[], Declaring([A])) == [Wellformed([A])];
    assert BlocksOf(s, map[], Declaring([X, A])) == [Wellformed([X, A])];
    assert Registry(EmptyRegistry().list + [A], EmptyRegistry().index["A" := A]) == r0;
    assert AddDirect(s, EmptyRegistry(), [A]) == Walk(r0, Done);
    assert AddDirect(s, r0, [X, A]) == Walk(r0, Failed(LoadError("X")));
    assert Fill(s, map[], r0, Declaring([X, A]), 0) == Walk(r0, Failed(LoadError("X")));
    assert RecurseInto(s, map[], r0, [A], 1) == Walk(r0, Failed(LoadError("X")));
  }
  /** Like Inert, but the cache gives A a descriptor declaring A(recurse) itself. */
  function SelfCycle(): Services
  {
    Inert().(load := k => if k == "A" then Some(Declaring([A])) else None)
  }

  /**
   * A descriptor declaring A(recurse), where A declares itself: no error cuts
   * the cycle short, so the walk runs out of depth at every depth, from any
   * registry. These are the inputs the loader's precondition excludes.
   */
  lemma {:induction false} SelfCycleExhausts(r: Registry, depth: nat)
    ensures Fill(SelfCycle(), map[], r, Declaring([A]), depth).outcome == Failed(DepthExhausted)
    decreases depth
  {
    var s := SelfCycle();
    assert BlocksOf(s, map[], Declaring([A])) == [Wellformed([A])];
    var w1 := AddDirect(s, r, [A]);
    assert [A][1..] == [];
    if A.key in r.index {
      assert w1 == AddDirect(s, r, []);
    } else {
      assert s.load(A.key).Some?;
      assert w1 == AddDirect(s, Registry(r.list + [A], r.index[A.key := A]), []);
    }
    if depth > 0 {
      SelfCycleExhausts(w1.registry, depth - 1);
    }
    assert RecurseInto(s, map[], w1.registry, [A], depth).outcome == Failed(DepthExhausted);
  }
}
