/** The behaviour the resource-manager test suite pins down, one lemma per test.

    Each lemma replays a test's sequence of calls from ANY valid manager in which the keys
    involved are not yet findable (a new manager is one: see `NewManager`), and states the
    test's expectations. A call whose returned handle the test discards is followed by
    `ResetHandle` (the temporary `shared_ptr` dies); a `Find` whose result is only
    compared is written as `Lookup`, which `FindThenResetRestores` justifies. */
module ResourceManagerTraces {
  import opened CacheTypes
  import opened SharedOwnership
  import opened ResourceManager
  import opened ManagerProperties

  /** Default manager: Create returns the factory's resource, Find on that key sees it, and
      Find on another key stays empty. */
  lemma CreateFindNoFind(w: World, k: HashValue, other: HashValue, v: int)
    requires Valid(w) && w.mgr.mode == DefaultMode && k != other
    requires Lookup(w, k) == None && Lookup(w, other) == None
    ensures
      var c := Create(w, k, v);
      var w1 := ResetHandle(c.world, c.handle);
      && c.world.heap[c.handle].value == v
      && Lookup(w1, k) == Some(c.handle)
      && w1.heap[c.handle].value == v
      && Lookup(w1, other) == None
  {
  }

  /** Release, then dropping the only handle, leaves the key unfindable. */
  lemma ReleaseThenDrop(w: World, k: HashValue, v: int)
    requires Valid(w) && w.mgr.mode == DefaultMode && Lookup(w, k) == None
    ensures
      var c := Create(w, k, v);
      var w1 := ResetHandle(c.world, c.handle);
      var f := Find(w1, k);
      && f.handle == Some(c.handle)
      && f.world.heap[c.handle].value == v
      && Lookup(ResetHandle(Release(f.world, k), c.handle), k) == None
  {
  }

  /** Release while a handle is held: Find still returns the very same resource. */
  lemma ReleaseAlive(w: World, k: HashValue, v: int)
    requires Valid(w) && w.mgr.mode == DefaultMode && Lookup(w, k) == None
    ensures
      var c := Create(w, k, v);
      var w1 := ResetHandle(c.world, c.handle);
      var f := Find(w1, k);
      && f.handle == Some(c.handle)
      && f.world.heap[c.handle].value == v
      && Lookup(Release(f.world, k), k) == f.handle
  {
  }

  /** A second Create while the first resource is cached returns the first resource: Find sees
      the first payload, not the second factory's. */
  lemma Recreate(w: World, k: HashValue, v1: int, v2: int)
    requires Valid(w) && w.mgr.mode == DefaultMode && Lookup(w, k) == None
    ensures
      var c1 := Create(w, k, v1);
      var w1 := ResetHandle(c1.world, c1.handle);
      var c2 := Create(w1, k, v2);
      var w2 := ResetHandle(c2.world, c2.handle);
      && c2.handle == c1.handle
      && Lookup(w2, k) == Some(c1.handle)
      && w2.heap[c1.handle].value == v1
  {
  }

  /** Create after Release, while a caller still holds the resource, finds the held resource
      instead of building a new one. */
  lemma RecreateAlive(w: World, k: HashValue, v1: int, v2: int)
    requires Valid(w) && w.mgr.mode == DefaultMode && Lookup(w, k) == None
    ensures
      var c1 := Create(w, k, v1);
      var w1 := ResetHandle(c1.world, c1.handle);
      var f := Find(w1, k);
      var w2 := Release(f.world, k);
      var c2 := Create(w2, k, v2);
      var w3 := ResetHandle(c2.world, c2.handle);
      && f.handle == Some(c1.handle)
      && c2.handle == c1.handle
      && c2.world.mgr.next == w2.mgr.next
      && Lookup(w3, k) == f.handle
  {
  }

  /** Explicit caching: Create hands out the resource but caches nothing; after the caller
      registers its handle, Find returns that same object. */
  lemma ExplicitCache(w: World, k: HashValue, v: int)
    requires Valid(w) && w.mgr.mode == CacheExplicitly && Lookup(w, k) == None
    ensures
      var c := Create(w, k, v);
      var w1 := Register(c.world, k, c.handle);
      && c.world.heap[c.handle].value == v
      && Lookup(c.world, k) == None
      && Lookup(w1, k) == Some(c.handle)
      && Find(w1, k).handle == Some(c.handle)
  {
  }

  /** Weak-only caching: Find works while any caller handle (including one obtained from Find)
      is alive, and fails once all are dropped, without any Release. */
  lemma WeakCache(w: World, k: HashValue, v: int)
    requires Valid(w) && w.mgr.mode == WeakCachingOnly && Lookup(w, k) == None
    ensures
      var c := Create(w, k, v);
      var f := Find(c.world, k);
      var w1 := ResetHandle(f.world, c.handle);
      var w2 := ResetHandle(w1, c.handle);
      && c.world.heap[c.handle].value == v
      && f.handle == Some(c.handle)
      && Lookup(w1, k) == Some(c.handle)
      && w1.heap[c.handle].value == v
      && Lookup(w2, k) == None
  {
  }

  /** Full caching: Find keeps returning the resource, with its payload, after every caller
      handle has been dropped, because the manager owns it. */
  lemma StrongCache(w: World, k: HashValue, v: int)
    requires Valid(w) && w.mgr.mode == CacheFullyOnCreate && Lookup(w, k) == None
    ensures
      var c := Create(w, k, v);
      var f := Find(c.world, k);
      var w1 := ResetHandle(f.world, c.handle);
      var w2 := ResetHandle(w1, c.handle);
      && c.world.heap[c.handle].value == v
      && f.handle == Some(c.handle)
      && Lookup(w1, k) == Some(c.handle)
      && Lookup(w2, k) == Some(c.handle)
      && w2.heap[c.handle].value == v
  {
  }

  /** Releasing a popped group releases the key created inside it, so its resource dies with its
      last handle. */
  lemma GroupAttachRelease(w: World, k: HashValue, v: int)
    requires Valid(w) && w.mgr.mode == DefaultMode && Lookup(w, k) == None
    ensures
      var w1 := PushNewResourceGroup(w);
      var c := Create(w1, k, v);
      var w2 := ResetHandle(c.world, c.handle);
      var p := PopResourceGroup(w2);
      && Lookup(w2, k) == Some(c.handle)
      && w2.heap[c.handle].value == v
      && p.group == Some(ResourceGroup([k]))
      && Lookup(ReleaseResourceGroup(p.world, p.group.value), k) == None
  {
    var w1 := PushNewResourceGroup(w);
    var c := Create(w1, k, v);
    CreatedKeyJoinsTopGroup(w, k, v);
    ResetFrame(c.world, c.handle, k);
    var w2 := ResetHandle(c.world, c.handle);
    var p := PopResourceGroup(w2);
    GroupReleaseHidesUnheld(p.world, [k], k, c.handle);
  }

  /** A key created after its group was popped is not a member: releasing the group hides the
      group's key and leaves the later key findable with its payload. */
  lemma GroupAttachDetachRelease(w: World, a: HashValue, b: HashValue, va: int, vb: int)
    requires Valid(w) && w.mgr.mode == DefaultMode && a != b
    requires Lookup(w, a) == None && Lookup(w, b) == None
    ensures
      var w1 := PushNewResourceGroup(w);
      var ca := Create(w1, a, va);
      var w2 := ResetHandle(ca.world, ca.handle);
      var p := PopResourceGroup(w2);
      var cb := Create(p.world, b, vb);
      var w3 := ResetHandle(cb.world, cb.handle);
      && p.group == Some(ResourceGroup([a]))
      && var w4 := ReleaseResourceGroup(w3, p.group.value);
         && Lookup(w4, a) == None
         && Lookup(w4, b) == Some(cb.handle)
         && w4.heap[cb.handle].value == vb
  {
    var w1 := PushNewResourceGroup(w);
    var ca := Create(w1, a, va);
    CreatedKeyJoinsTopGroup(w, a, va);
    ResetFrame(ca.world, ca.handle, a);
    var w2 := ResetHandle(ca.world, ca.handle);
    var p := PopResourceGroup(w2);
    CreateFrame(w1, a, va, b);
    ResetFrame(ca.world, ca.handle, b);
    var cb := Create(p.world, b, vb);
    CreateFrame(p.world, b, vb, a);
    ResetFrame(cb.world, cb.handle, a);
    ResetFrame(cb.world, cb.handle, b);
    var w3 := ResetHandle(cb.world, cb.handle);
    assert w3.mgr.slots[b] == Strong(cb.handle);
    GroupReleaseHidesUnheld(w3, [a], a, ca.handle);
  }

  /** Releasing a group hides a member key whose resource no caller holds and which no key
      outside the group owns. */
  lemma GroupReleaseHidesUnheld(w: World, keys: seq<HashValue>, k: HashValue, h: Rid)
    requires Valid(w) && k in keys && k in w.mgr.slots && w.mgr.slots[k].rid == h
    requires w.heap[h].holders == 0
    requires forall j :: j in w.mgr.slots && j !in keys ==> w.mgr.slots[j] != Strong(h)
    ensures Lookup(ReleaseResourceGroup(w, ResourceGroup(keys)), k) == None
  {
  }

  // ----- repeated create / release / drop cycles -----------------------------------------

  /** The world after one create / release / drop iteration and the resource it built. */
  datatype Cycle = Cycle(world: World, instance: Rid)

  /** The world after several iterations and the resources they built, in order. */
  datatype Cycles = Cycles(world: World, instances: seq<Rid>)

  /** One iteration of the tracking loop: Create with a default-constructed resource, Release,
      drop the handle. Along the way Find sees the new resource both before and after Release
      (while the handle is held); at the end the key is unfindable again. The result carries
      the world after the iteration and the id of the resource it built, which no caller
      holds any more. */
  function TrackCycle(w: World, k: HashValue): (c: Cycle)
    requires Valid(w) && w.mgr.mode == DefaultMode && Lookup(w, k) == None
    ensures Valid(c.world) && c.world.mgr.mode == w.mgr.mode
    ensures c.instance == w.mgr.next && c.world.mgr.next == w.mgr.next + 1
    ensures c.world.heap.Keys == w.heap.Keys + {c.instance}
    ensures c.world.heap[c.instance] == Resource(0, 0)
    ensures Lookup(c.world, k) == None
  {
    var created := Create(w, k, 0);
    var h := created.handle;
    var released := Release(created.world, k);
    forall j | j in released.mgr.slots
      ensures released.mgr.slots[j] != Strong(h)
    {
      if j != k {
        assert j in w.mgr.slots;
      }
    }
    Cycle(ResetHandle(released, h), h)
  }

  /** What the loop body observes between its steps. */
  lemma TrackCycleObservations(w: World, k: HashValue)
    requires Valid(w) && w.mgr.mode == DefaultMode && Lookup(w, k) == None
    ensures
      var c := Create(w, k, 0);
      && Lookup(c.world, k) == Some(c.handle)
      && Lookup(Release(c.world, k), k) == Some(c.handle)
      && c.handle == TrackCycle(w, k).instance
  {
  }

  /** Putting a fresh id in front of strictly larger, strictly increasing ids keeps them
      strictly increasing and within the same bound. If the ids in front were built between
      heaps `before` and `after`, and the others after that and still exist in `last`, then
      all of them are new to `before` and exist in `last`. */
  lemma PrependFresh(before: Heap, after: Heap, last: Heap, x: Rid, xs: seq<Rid>, hi: Rid)
    requires x !in before && x < hi && before.Keys + {x} <= after.Keys <= last.Keys
    requires forall i :: 0 <= i < |xs| ==> x < xs[i] < hi && xs[i] !in after && xs[i] in last
    requires forall i, j :: 0 <= i < j < |xs| ==> xs[i] < xs[j]
    ensures forall i :: 0 <= i < |[x] + xs| ==>
      && x <= ([x] + xs)[i] < hi
      && ([x] + xs)[i] !in before
      && ([x] + xs)[i] in last
    ensures forall i, j :: 0 <= i < j < |[x] + xs| ==> ([x] + xs)[i] < ([x] + xs)[j]
  {
  }

  /** `n` iterations of the tracking loop on one key. Every iteration ends with the key
      unfindable, and each builds a resource never seen before: the instances are all new
      to the starting heap and pairwise distinct. */
  function TrackNewInstances(w: World, k: HashValue, n: nat): (c: Cycles)
    requires Valid(w) && w.mgr.mode == DefaultMode && Lookup(w, k) == None
    ensures Valid(c.world) && c.world.mgr.mode == w.mgr.mode
    ensures Lookup(c.world, k) == None
    ensures w.heap.Keys <= c.world.heap.Keys
    ensures c.world.mgr.next == w.mgr.next + n
    ensures |c.instances| == n
    ensures forall i :: 0 <= i < n ==> c.instances[i] !in w.heap && c.instances[i] in c.world.heap
    ensures forall i :: 0 <= i < n ==> w.mgr.next <= c.instances[i] < c.world.mgr.next
    ensures forall i, j :: 0 <= i < j < n ==> c.instances[i] < c.instances[j]
    decreases n
  {
    if n == 0 then
      Cycles(w, [])
    else
      var first := TrackCycle(w, k);
      assert Valid(first.world) && first.world.mgr.mode == DefaultMode && Lookup(first.world, k) == None;
      var rest := TrackNewInstances(first.world, k, n - 1);
      PrependFresh(w.heap, first.world.heap, rest.world.heap, first.instance, rest.instances, rest.world.mgr.next);
      Cycles(rest.world, [first.instance] + rest.instances)
  }
}
