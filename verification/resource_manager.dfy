/** The keyed resource cache `ResourceManager<T>`.

    The manager maps a hash key to a slot. A slot either co-owns its resource
    (`Strong`, the manager holds a `shared_ptr`) or only observes it (`Weak`,
    the manager holds a `weak_ptr`). A resource is live while some caller
    holds a handle to it or some slot owns it strongly; Find only ever returns
    live resources. A caching mode fixed at construction decides what Create
    installs on a miss.

    Caller-side handle traffic is explicit: Create and Find return a handle the
    caller now holds (like the returned `shared_ptr`), `CopyHandle` copies a
    held handle and `ResetHandle` drops one.
 */
module ResourceManager {
  import opened CacheTypes
  import opened SharedOwnership
  import GroupStack

  datatype CacheMode = CacheExplicitly | WeakCachingOnly | CacheFullyOnCreate

  /** The mode a manager gets when the constructor is given none. */
  const DefaultMode := CacheFullyOnCreate

  datatype Slot = Strong(rid: Rid) | Weak(rid: Rid)

  datatype Manager = Manager(
    mode: CacheMode,
    slots: map<HashValue, Slot>,
    groups: GroupStack.Stack,
    next: Rid)   // number of resources ever built; also the next fresh id

  /** The manager together with the resources it and its callers share. */
  datatype World = World(mgr: Manager, heap: Heap)

  datatype Created = Created(world: World, handle: Rid)
  datatype Found = Found(world: World, handle: Option<Rid>)
  datatype ResourceGroup = ResourceGroup(keys: seq<HashValue>)
  datatype PoppedGroup = PoppedGroup(world: World, group: Option<ResourceGroup>)

  /** Every slot refers to an existing resource, and every existing resource id is below the
      allocation counter (so the counter is always a fresh id). */
  predicate Valid(w: World)
  {
    && (forall k :: k in w.mgr.slots ==> w.mgr.slots[k].rid in w.heap)
    && (forall r :: r in w.heap ==> r < w.mgr.next)
  }

  /** Some slot keeps `r` alive on the manager's behalf. */
  predicate StronglyCached(slots: map<HashValue, Slot>, r: Rid)
  {
    exists k :: k in slots && slots[k] == Strong(r)
  }

  /** No slot owns its resource: the manager keeps nothing alive. */
  predicate NoStrongSlots(slots: map<HashValue, Slot>)
  {
    forall k :: k in slots ==> slots[k].Weak?
  }

  /** `r` still exists as an object: a caller or the manager owns it. */
  predicate Live(w: World, r: Rid)
  {
    r in w.heap && (w.heap[r].holders > 0 || StronglyCached(w.mgr.slots, r))
  }

  /** What Find observes: the resource of the slot for `k`, if there is a slot and its resource
      is still live (a `weak_ptr` that can still be locked). */
  function Lookup(w: World, k: HashValue): Option<Rid>
  {
    if k in w.mgr.slots && Live(w, w.mgr.slots[k].rid) then Some(w.mgr.slots[k].rid) else None
  }

  /** A manager with the given caching mode: no slots, no groups, no resources. */
  function NewManager(mode: CacheMode): (w: World)
    ensures Valid(w) && w.mgr.mode == mode
    ensures forall k :: Lookup(w, k) == None
    ensures NoStrongSlots(w.mgr.slots) && w.mgr.groups == []
  {
    World(Manager(mode, map[], [], 0), map[])
  }

  /** Replacing the slot of `k` by `s` changes which resources the manager owns only through `k`. */
  lemma StronglyCachedUpdate(slots: map<HashValue, Slot>, k: HashValue, s: Slot, r: Rid)
    ensures StronglyCached(slots[k := s], r) <==>
      (s == Strong(r) || exists k2 :: k2 in slots && k2 != k && slots[k2] == Strong(r))
  {
    var slots' := slots[k := s];
    if s == Strong(r) {
      assert k in slots' && slots'[k] == Strong(r);
    } else {
      forall k2 | k2 in slots' && slots'[k2] == Strong(r)
        ensures k2 != k && k2 in slots && slots[k2] == Strong(r)
      {
      }
      forall k2 | k2 in slots && k2 != k && slots[k2] == Strong(r)
        ensures k2 in slots' && slots'[k2] == Strong(r)
      {
      }
    }
  }

  /** Look up `k` and, on a miss, build a resource with the factory's payload `value`.

      A hit returns the live resource already cached and does not build anything; under
      CacheFullyOnCreate a hit on a weakly tracked slot makes the manager owner again.
      A miss builds exactly one fresh resource, installs it as the caching mode says
      (not at all, weakly, or strongly) and records the key in the recording group. */
  function Create(w: World, k: HashValue, value: int): (c: Created)
    requires Valid(w)
    ensures Valid(c.world) && c.world.mgr.mode == w.mgr.mode
    ensures Held(c.world.heap, c.handle)
    ensures Lookup(w, k).Some? ==>
      && c.handle == Lookup(w, k).value
      && c.world.heap == AddHolder(w.heap, c.handle)
      && c.world.mgr.next == w.mgr.next
      && c.world.mgr.groups == w.mgr.groups
    ensures Lookup(w, k).None? ==>
      && c.handle == w.mgr.next
      && c.handle !in w.heap
      && c.world.heap == Allocate(w.heap, c.handle, value)
      && c.world.mgr.next == w.mgr.next + 1
      && c.world.mgr.groups == GroupStack.Record(w.mgr.groups, k)
    ensures Lookup(c.world, k) ==
      (if w.mgr.mode == CacheExplicitly && Lookup(w, k).None? then None else Some(c.handle))
    ensures w.mgr.mode == CacheFullyOnCreate ==> k in c.world.mgr.slots && c.world.mgr.slots[k] == Strong(c.handle)
    ensures w.mgr.mode == WeakCachingOnly && Lookup(w, k).None? ==>
      k in c.world.mgr.slots && c.world.mgr.slots[k] == Weak(c.handle)
    ensures w.mgr.mode != CacheFullyOnCreate && Lookup(w, k).Some? ==> c.world.mgr.slots == w.mgr.slots
    ensures w.mgr.mode == CacheExplicitly ==> c.world.mgr.slots == w.mgr.slots
    ensures w.mgr.mode != CacheFullyOnCreate && NoStrongSlots(w.mgr.slots) ==> NoStrongSlots(c.world.mgr.slots)
    // Only the slot of `k` may change, and no other slot refers to a newly built resource.
    ensures w.mgr.slots.Keys <= c.world.mgr.slots.Keys <= w.mgr.slots.Keys + {k}
    ensures forall k2 :: k2 != k && k2 in w.mgr.slots ==> c.world.mgr.slots[k2] == w.mgr.slots[k2]
    ensures Lookup(w, k).None? ==>
      forall k2 :: k2 != k && k2 in c.world.mgr.slots ==> c.world.mgr.slots[k2].rid != c.handle
  {
    match Lookup(w, k)
    case Some(r) =>
      var slots := if w.mgr.mode == CacheFullyOnCreate then w.mgr.slots[k := Strong(r)] else w.mgr.slots;
      StronglyCachedUpdate(w.mgr.slots, k, Strong(r), r);
      Created(World(w.mgr.(slots := slots), AddHolder(w.heap, r)), r)
    case None =>
      var r := w.mgr.next;
      var slots := match w.mgr.mode
        case CacheExplicitly => w.mgr.slots
        case WeakCachingOnly => w.mgr.slots[k := Weak(r)]
        case CacheFullyOnCreate => w.mgr.slots[k := Strong(r)];
      var c := Created(World(Manager(w.mgr.mode, slots, GroupStack.Record(w.mgr.groups, k), r + 1),
                             Allocate(w.heap, r, value)), r);
      assert Live(c.world, r);
      c
  }

  /** Look up `k`; a live resource is returned as a new handle the caller holds.
      Find never builds anything and never touches the slots or the groups. */
  function Find(w: World, k: HashValue): (f: Found)
    requires Valid(w)
    ensures Valid(f.world) && f.world.mgr == w.mgr
    ensures f.handle == Lookup(w, k)
    ensures f.handle.None? ==> f.world == w
    ensures f.handle.Some? ==> f.world.heap == AddHolder(w.heap, f.handle.value)
    ensures f.handle.Some? ==>
      && f.handle.value in w.heap
      && Held(f.world.heap, f.handle.value)
      && f.world.heap[f.handle.value].value == w.heap[f.handle.value].value
  {
    match Lookup(w, k)
    case None => Found(w, None)
    case Some(r) => Found(World(w.mgr, AddHolder(w.heap, r)), Some(r))
  }

  /** Drop the manager's own ownership of the resource cached under `k`; the slot keeps
      observing it weakly. Releasing a weak or missing slot does nothing. */
  function Release(w: World, k: HashValue): (w': World)
    requires Valid(w)
    ensures Valid(w')
    ensures w'.heap == w.heap
    ensures w'.mgr.mode == w.mgr.mode && w'.mgr.groups == w.mgr.groups && w'.mgr.next == w.mgr.next
    ensures w'.mgr.slots.Keys == w.mgr.slots.Keys
    ensures forall k2 :: k2 in w.mgr.slots ==>
      w'.mgr.slots[k2] == (if k2 == k then Weak(w.mgr.slots[k2].rid) else w.mgr.slots[k2])
  {
    if k in w.mgr.slots && w.mgr.slots[k].Strong? then
      w.(mgr := w.mgr.(slots := w.mgr.slots[k := Weak(w.mgr.slots[k].rid)]))
    else
      w
  }

  /** Make the caller's handle `h` findable under `k` without the manager taking ownership. */
  function Register(w: World, k: HashValue, h: Rid): (w': World)
    requires Valid(w) && Held(w.heap, h)
    ensures Valid(w')
    ensures Lookup(w', k) == Some(h)
    ensures k in w'.mgr.slots && w'.mgr.slots[k] == Weak(h)
    ensures w'.heap == w.heap
    ensures w'.mgr.mode == w.mgr.mode && w'.mgr.groups == w.mgr.groups && w'.mgr.next == w.mgr.next
    ensures w'.mgr.slots.Keys == w.mgr.slots.Keys + {k}
    ensures forall k2 :: k2 != k && k2 in w.mgr.slots ==> w'.mgr.slots[k2] == w.mgr.slots[k2]
  {
    w.(mgr := w.mgr.(slots := w.mgr.slots[k := Weak(h)]))
  }

  /** The caller copies a shared handle it holds. */
  function CopyHandle(w: World, h: Rid): (w': World)
    requires Valid(w) && Held(w.heap, h)
    ensures Valid(w') && w'.mgr == w.mgr
    ensures w'.heap == AddHolder(w.heap, h)
  {
    World(w.mgr, AddHolder(w.heap, h))
  }

  /** The caller drops (resets) a shared handle it holds. */
  function ResetHandle(w: World, h: Rid): (w': World)
    requires Valid(w) && Held(w.heap, h)
    ensures Valid(w') && w'.mgr == w.mgr
    ensures w'.heap == RemoveHolder(w.heap, h)
  {
    World(w.mgr, RemoveHolder(w.heap, h))
  }

  /** Start recording created keys into a new group on top of the stack. */
  function PushNewResourceGroup(w: World): (w': World)
    requires Valid(w)
    ensures Valid(w') && w'.heap == w.heap
    ensures w'.mgr == w.mgr.(groups := GroupStack.Push(w.mgr.groups))
  {
    w.(mgr := w.mgr.(groups := GroupStack.Push(w.mgr.groups)))
  }

  /** Stop recording into the top group and hand it to the caller. */
  function PopResourceGroup(w: World): (p: PoppedGroup)
    requires Valid(w)
    ensures Valid(p.world) && p.world.heap == w.heap
    ensures p.world.mgr.slots == w.mgr.slots && p.world.mgr.mode == w.mgr.mode && p.world.mgr.next == w.mgr.next
    ensures |w.mgr.groups| == 0 <==> p.group.None?
    ensures p.group.Some? ==> p.world.mgr.groups + [p.group.value.keys] == w.mgr.groups
    ensures p.group.None? ==> p.world == w
  {
    var q := GroupStack.Pop(w.mgr.groups);
    match q.top
    case None => PoppedGroup(w, None)
    case Some(keys) => PoppedGroup(w.(mgr := w.mgr.(groups := q.rest)), Some(ResourceGroup(keys)))
  }

  /** Release every key of `keys`, in order. Afterwards no key of `keys` owns its resource,
      every other slot is as it was, and no resource or group changed. */
  function ReleaseKeys(w: World, keys: seq<HashValue>): (w': World)
    requires Valid(w)
    ensures Valid(w')
    ensures w'.heap == w.heap
    ensures w'.mgr.mode == w.mgr.mode && w'.mgr.groups == w.mgr.groups && w'.mgr.next == w.mgr.next
    ensures w'.mgr.slots.Keys == w.mgr.slots.Keys
    ensures forall k :: k in w.mgr.slots ==>
      w'.mgr.slots[k] == (if k in keys then Weak(w.mgr.slots[k].rid) else w.mgr.slots[k])
    decreases |keys|
  {
    if |keys| == 0 then w else ReleaseKeys(Release(w, keys[0]), keys[1..])
  }

  /** Release, as a unit, every key the group recorded: each member key gets the effect of
      `Release`, and every other key (in particular one created after the pop) keeps its slot. */
  function ReleaseResourceGroup(w: World, g: ResourceGroup): (w': World)
    requires Valid(w)
    ensures Valid(w')
    ensures w'.heap == w.heap
    ensures w'.mgr.mode == w.mgr.mode && w'.mgr.groups == w.mgr.groups && w'.mgr.next == w.mgr.next
    ensures w'.mgr.slots.Keys == w.mgr.slots.Keys
    ensures forall k :: k in w.mgr.slots ==>
      w'.mgr.slots[k] == (if k in g.keys then Weak(w.mgr.slots[k].rid) else w.mgr.slots[k])
    ensures forall k :: k !in g.keys ==> Lookup(w', k).Some? ==> Lookup(w', k) == Lookup(w, k)
  {
    var w' := ReleaseKeys(w, g.keys);
    assert forall r :: StronglyCached(w'.mgr.slots, r) ==> StronglyCached(w.mgr.slots, r);
    w'
  }
}
