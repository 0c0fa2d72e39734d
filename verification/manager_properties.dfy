/** Properties of the resource manager that relate several operations: what each operation
    leaves untouched, which operations undo each other, and what each caching mode
    guarantees about liveness. */
module ManagerProperties {
  import opened CacheTypes
  import opened SharedOwnership
  import GroupStack
  import opened ResourceManager

  // ----- Find -------------------------------------------------------------------------------

  /** A Find whose handle is dropped again is unobservable: the world is exactly as before. */
  lemma FindThenResetRestores(w: World, k: HashValue)
    requires Valid(w)
    ensures Find(w, k).handle.Some? ==> ResetHandle(Find(w, k).world, Find(w, k).handle.value) == w
  {
  }

  /** Find changes no observation: every key finds what it found before. */
  lemma FindKeepsLookups(w: World, k: HashValue, k2: HashValue)
    requires Valid(w)
    ensures Lookup(Find(w, k).world, k2) == Lookup(w, k2)
  {
  }

  /** Repeated Finds of one key, with nothing else in between, return the same resource. */
  lemma FindIsIdempotent(w: World, k: HashValue)
    requires Valid(w)
    ensures Find(Find(w, k).world, k).handle == Find(w, k).handle
  {
  }

  // ----- caller handles -----------------------------------------------------------------------

  /** Copying a handle and dropping the copy leaves the world as it was. */
  lemma CopyThenResetRestores(w: World, h: Rid)
    requires Valid(w) && Held(w.heap, h)
    ensures ResetHandle(CopyHandle(w, h), h) == w
  {
  }

  /** Dropping a handle hides a key exactly when it was the last owner of that key's resource:
      the last caller handle, with no slot owning the resource. */
  lemma ResetFrame(w: World, h: Rid, k: HashValue)
    requires Valid(w) && Held(w.heap, h)
    ensures Lookup(ResetHandle(w, h), k) ==
      (if Lookup(w, k) == Some(h) && w.heap[h].holders == 1 && !StronglyCached(w.mgr.slots, h)
       then None else Lookup(w, k))
  {
  }

  // ----- Create -----------------------------------------------------------------------------

  /** Create on one key never changes what any other key finds. */
  lemma CreateFrame(w: World, k: HashValue, value: int, k2: HashValue)
    requires Valid(w) && k2 != k
    ensures Lookup(Create(w, k, value).world, k2) == Lookup(w, k2)
  {
  }

  /** Create on a key whose resource is live returns that resource and builds nothing, however
      often it is repeated: a second Create with a different factory payload finds the first. */
  lemma RecreateKeepsFirst(w: World, k: HashValue, v1: int, v2: int)
    requires Valid(w) && w.mgr.mode != CacheExplicitly
    ensures
      var c1 := Create(w, k, v1);
      var c2 := Create(c1.world, k, v2);
      && c2.handle == c1.handle
      && c2.world.mgr.next == c1.world.mgr.next
      && c2.world.heap[c2.handle].value == c1.world.heap[c1.handle].value
  {
  }

  // ----- Release ----------------------------------------------------------------------------

  /** Releasing twice is the same as releasing once. */
  lemma ReleaseIsIdempotent(w: World, k: HashValue)
    requires Valid(w)
    ensures Release(Release(w, k), k) == Release(w, k)
  {
  }

  /** While a caller holds the resource found under `k`, Release does not hide it. */
  lemma ReleaseWhileHeld(w: World, k: HashValue, h: Rid)
    requires Valid(w) && Lookup(w, k) == Some(h) && Held(w.heap, h)
    ensures Lookup(Release(w, k), k) == Some(h)
  {
  }

  /** Release never makes a resource findable, and only affects keys that share the released
      key's resource. */
  lemma ReleaseFrame(w: World, k: HashValue, k2: HashValue)
    requires Valid(w)
    ensures Lookup(Release(w, k), k2).Some? ==> Lookup(Release(w, k), k2) == Lookup(w, k2)
    ensures k2 in w.mgr.slots && (k !in w.mgr.slots || w.mgr.slots[k].rid != w.mgr.slots[k2].rid) ==>
      Lookup(Release(w, k), k2) == Lookup(w, k2)
  {
  }

  /** Once the manager has released a resource, dropping the last caller handle makes its key
      unfindable (provided no other key still owns the same resource). */
  lemma ReleaseThenResetHides(w: World, k: HashValue, h: Rid)
    requires Valid(w) && Lookup(w, k) == Some(h) && w.heap[h].holders == 1
    requires forall k2 :: k2 in w.mgr.slots && k2 != k ==> w.mgr.slots[k2] != Strong(h)
    ensures Lookup(ResetHandle(Release(w, k), h), k) == None
  {
  }

  // ----- Register ---------------------------------------------------------------------------

  /** Register never makes another key findable: at most it ends the manager's ownership of the
      resource the overwritten slot owned. */
  lemma RegisterFrame(w: World, k: HashValue, h: Rid, k2: HashValue)
    requires Valid(w) && Held(w.heap, h) && k2 != k
    ensures Lookup(Register(w, k, h), k2).Some? ==> Lookup(Register(w, k, h), k2) == Lookup(w, k2)
  {
  }

  // ----- caching modes ----------------------------------------------------------------------

  /** A strongly cached slot is always found, whoever else drops their handles. */
  lemma StrongSlotIsFound(w: World, k: HashValue)
    requires Valid(w) && k in w.mgr.slots && w.mgr.slots[k].Strong?
    ensures Lookup(w, k) == Some(w.mgr.slots[k].rid)
  {
  }

  /** When no slot is strong, a key is found exactly when some caller holds its resource. */
  lemma WeakSlotsNeedHolders(w: World, k: HashValue)
    requires Valid(w) && NoStrongSlots(w.mgr.slots)
    ensures Lookup(w, k).Some? <==> k in w.mgr.slots && Held(w.heap, w.mgr.slots[k].rid)
  {
  }

  /** Under weak-only caching the manager never becomes an owner: no operation introduces a
      strong slot, starting from a new manager. */
  lemma WeakCachingOnlyNeverOwns(w: World, k: HashValue, value: int, h: Rid, g: ResourceGroup)
    requires Valid(w) && w.mgr.mode == WeakCachingOnly && NoStrongSlots(w.mgr.slots)
    ensures NoStrongSlots(Create(w, k, value).world.mgr.slots)
    ensures NoStrongSlots(Find(w, k).world.mgr.slots)
    ensures NoStrongSlots(Release(w, k).mgr.slots)
    ensures Held(w.heap, h) ==> NoStrongSlots(Register(w, k, h).mgr.slots)
    ensures Held(w.heap, h) ==> NoStrongSlots(ResetHandle(w, h).mgr.slots)
    ensures Held(w.heap, h) ==> NoStrongSlots(CopyHandle(w, h).mgr.slots)
    ensures NoStrongSlots(ReleaseResourceGroup(w, g).mgr.slots)
    ensures NoStrongSlots(PushNewResourceGroup(w).mgr.slots)
    ensures NoStrongSlots(PopResourceGroup(w).world.mgr.slots)
  {
  }

  // ----- groups -----------------------------------------------------------------------------

  /** Releasing a group a second time changes nothing more. */
  lemma ReleaseKeysIsIdempotent(w: World, keys: seq<HashValue>)
    requires Valid(w)
    ensures ReleaseKeys(ReleaseKeys(w, keys), keys) == ReleaseKeys(w, keys)
  {
  }

  /** Pushing a group and popping it at once yields an empty group and the original world. */
  lemma PopAfterPushIsEmpty(w: World)
    requires Valid(w)
    ensures PopResourceGroup(PushNewResourceGroup(w)) == PoppedGroup(w, Some(ResourceGroup([])))
  {
  }

  /** A key created on a cache miss while a fresh group is on top is exactly what that group
      holds when popped; the stack below is untouched. */
  lemma CreatedKeyJoinsTopGroup(w: World, k: HashValue, value: int)
    requires Valid(w) && Lookup(w, k) == None
    ensures
      var w1 := PushNewResourceGroup(w);
      var c := Create(w1, k, value);
      var p := PopResourceGroup(c.world);
      && p.group == Some(ResourceGroup([k]))
      && p.world.mgr.groups == w.mgr.groups
  {
    var w1 := PushNewResourceGroup(w);
    assert Lookup(w1, k) == None;
    var c := Create(w1, k, value);
    assert c.world.mgr.groups == GroupStack.Record(GroupStack.Push(w.mgr.groups), k);
    GroupStack.RecordedKeysArePopped(w.mgr.groups, [k]);
    assert GroupStack.RecordAll(GroupStack.Push(w.mgr.groups), [k])
        == GroupStack.Record(GroupStack.Push(w.mgr.groups), k);
  }
}
