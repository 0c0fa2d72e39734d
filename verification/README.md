# ResourceManager — a Dafny model of Lullaby's keyed resource cache

`lull::ResourceManager<T>` is a cache that maps a 32-bit hash key to a shared
resource. It avoids building an expensive object twice, and it lets a host release
many related objects at once. Callers pass a factory to `Create`. The manager
returns the cached object when one is still live for the key. Otherwise it builds a
new object and caches it as its caching mode says:

- `kCacheExplicitly`: not cached until `Register` is called;
- `kWeakCachingOnly`: cached weakly, so the manager only observes the object;
- `kCacheFullyOnCreate` (the default): cached strongly, so the manager co-owns the object.

`Find` returns a cached object only while it is live. `Release` drops the manager's
own ownership. A stack of resource groups records the keys created while each group
is on top. A popped group can later be released as a unit.

The model is functional:

- `CacheTypes` (`cache_types.dfy`) holds the key type, a 32-bit unsigned hash value,
  and an optional-value wrapper.
- `SharedOwnership` (`shared_ownership.dfy`) is an abstract heap. Each resource has a
  fresh natural-number id, its payload and the number of caller-held shared handles.
  Two handles are "the same object" exactly when their ids are equal.
- `GroupStack` (`group_stack.dfy`) is the stack of recording groups.
- `ResourceManager` (`resource_manager.dfy`) holds the state and the operations:
  - the manager state is the mode, a map from key to `Strong(rid)` / `Weak(rid)` slot,
    the group stack and the allocation counter;
  - the operations are pure transition functions on a `World` (the manager plus the heap).

  A resource is live while a caller holds a handle to it or some slot holds it
  `Strong`. `Lookup` is what `Find` observes. `Create` and `Find` return a handle that
  the caller now holds, just as the C++ calls return a `shared_ptr`.
  `CopyHandle` / `ResetHandle` model a caller copying or resetting its `shared_ptr`.
- `ManagerProperties` (`manager_properties.dfy`) has the frame, inverse, idempotence
  and caching-mode lemmas.
- `ResourceManagerTraces` (`test_traces.dfy`) replays every test of the suite.
  - Each replay starts from any valid manager in which the keys involved are not
    findable, which includes `NewManager(...)`.
  - A discarded return value becomes a `ResetHandle` right after the call.
  - A `Find` used only for comparison becomes `Lookup`, which `FindThenResetRestores`
    justifies.

The model describes the class through its observable behaviour, not through its
implementation: the hash map of slots, the containers behind the group stack and the
storage behind the raw `ResourceGroup*` a pop hands out are abstracted away. The behaviour
modelled is what `tests/resource_manager_test.cc` fixes. Where the tests
leave a choice open, the model makes the choice listed under "Design choices" below.

## Model

| member | source | states |
|---|---|---|
| SharedOwnership.Allocate | tests/resource_manager_test.cc:35-37 | a factory call yields a new object carrying the factory's payload, held by exactly the one returned handle; every other object is unchanged |
| SharedOwnership.AddRemoveInverse | tests/resource_manager_test.cc:193-201 | taking a shared handle and dropping it again leaves every object and every count as it was |
| SharedOwnership.RemoveAddInverse | tests/resource_manager_test.cc:193-201 | dropping one of several handles and copying it back leaves the heap as it was |
| GroupStack.Push | tests/resource_manager_test.cc:79 | pushing adds one empty recording group on top and leaves the groups below untouched |
| GroupStack.Pop | tests/resource_manager_test.cc:89 | popping yields the top group and exactly the stack below it; an empty stack yields no group and stays empty |
| GroupStack.Record | tests/resource_manager_test.cc:100-104 | a created key is appended to the top group only; nothing records when the stack is empty |
| GroupStack.RecordAll | tests/resource_manager_test.cc:100-104 | recording a sequence of keys appends exactly that sequence, in order, to the top group and leaves the groups below unchanged |
| GroupStack.PopAfterPush | tests/resource_manager_test.cc:79-89 | push followed by pop is the identity on the stack and yields an empty group |
| GroupStack.RecordedKeysArePopped | tests/resource_manager_test.cc:100-104 | the keys recorded while a pushed group is on top are, in creation order, exactly what popping that group yields |
| ResourceManager.NewManager | tests/resource_manager_test.cc:34 | a new manager with any mode finds nothing, owns nothing and has no groups |
| ResourceManager.Create | tests/resource_manager_test.cc:33-39 | a hit returns the live cached object and builds nothing; a miss builds one new object, with the next fresh id and the factory's payload, records the key in the top group, and makes it findable unless the mode is explicit; the full mode leaves the key owned strongly, the weak-only mode installs a weak slot on a miss, and the explicit mode (and a non-full hit) leaves every slot as it was; only the key's own slot may change or appear, and after a miss no other slot refers to the new object |
| ResourceManager.Find | tests/resource_manager_test.cc:41-59 | Find returns what `Lookup` observes, as a new caller handle to an object with an unchanged payload; it never builds or caches anything, and a miss changes nothing |
| ResourceManager.Release | tests/resource_manager_test.cc:61-75 | Release turns the key's slot into a weak one and changes no other slot, no object and no group |
| ResourceManager.Register | tests/resource_manager_test.cc:178-181 | after Register the key finds exactly the caller's handle, through a weak slot; no other slot, object or group changes |
| ResourceManager.CopyHandle | tests/resource_manager_test.cc:193-194 | the caller-side primitive for copying a held `shared_ptr` (no test copies one; the handle `Find` returns at :193 is a new one of the same kind): one more holder, the manager unchanged |
| ResourceManager.ResetHandle | tests/resource_manager_test.cc:71 | a caller resetting a handle removes one holder and leaves the manager unchanged |
| ResourceManager.PushNewResourceGroup | tests/resource_manager_test.cc:79 | starts a new recording group and changes nothing else |
| ResourceManager.PopResourceGroup | tests/resource_manager_test.cc:89 | hands the caller the top group; the remaining stack plus that group is the old stack; slots and objects are unchanged |
| ResourceManager.ReleaseKeys | tests/resource_manager_test.cc:90 | releasing a key list in order leaves every listed slot weak and every other slot as it was; the objects, the groups and the counter do not change |
| ResourceManager.ReleaseResourceGroup | tests/resource_manager_test.cc:89-95 | every member key gets the effect of `Release` (its slot becomes weak, still observing the same object); every other slot, including one created after the pop, is unchanged, so a key outside the group finds nothing new; objects, mode, groups and the counter are unchanged |
| ManagerProperties.FindThenResetRestores | tests/resource_manager_test.cc:84-87 | a Find whose result is dropped, like the scoped `res`, leaves the world exactly as it was |
| ManagerProperties.FindKeepsLookups | tests/resource_manager_test.cc:47-58 | Find changes what no key finds |
| ManagerProperties.FindIsIdempotent | tests/resource_manager_test.cc:193-199 | repeated Finds of one key return the same object |
| ManagerProperties.CopyThenResetRestores | tests/resource_manager_test.cc:193-201 | copying a handle and dropping the copy is the identity on the world |
| ManagerProperties.ResetFrame | tests/resource_manager_test.cc:196-204 | dropping a handle hides a key iff it was that key's object's last caller handle and no slot owns the object; every other key is unaffected |
| ManagerProperties.CreateFrame | tests/resource_manager_test.cc:51-58 | Create on one key never changes what any other key finds |
| ManagerProperties.RecreateKeepsFirst | tests/resource_manager_test.cc:137-148 | a second Create of a live key returns the first object with its payload and builds nothing |
| ManagerProperties.ReleaseIsIdempotent | tests/resource_manager_test.cc:70 | releasing twice equals releasing once |
| ManagerProperties.ReleaseWhileHeld | tests/resource_manager_test.cc:128-134 | while a caller holds the found object, Release does not hide it |
| ManagerProperties.ReleaseFrame | tests/resource_manager_test.cc:61-75 | Release never makes anything findable, and affects only keys sharing the released key's object |
| ManagerProperties.ReleaseThenResetHides | tests/resource_manager_test.cc:70-74 | after Release, dropping the last caller handle makes the key unfindable, unless another key still owns the object strongly |
| ManagerProperties.RegisterFrame | tests/resource_manager_test.cc:178 | Register never makes another key findable |
| ManagerProperties.StrongSlotIsFound | tests/resource_manager_test.cc:219-227 | a strongly owned slot is always found, whatever handles callers drop |
| ManagerProperties.WeakSlotsNeedHolders | tests/resource_manager_test.cc:196-204 | with no strong slot, a key is found iff a caller holds its object (both directions) |
| ManagerProperties.WeakCachingOnlyNeverOwns | tests/resource_manager_test.cc:184-205 | under weak-only caching every operation keeps the manager without strong slots |
| ManagerProperties.ReleaseKeysIsIdempotent | tests/resource_manager_test.cc:90 | releasing a group's keys a second time changes nothing more |
| ManagerProperties.PopAfterPushIsEmpty | tests/resource_manager_test.cc:79-89 | pushing and popping a group at once is the identity on the world and yields an empty group |
| ManagerProperties.CreatedKeyJoinsTopGroup | tests/resource_manager_test.cc:100-104 | the key created on a miss while a fresh group is on top is exactly that group's content when popped |
| ResourceManagerTraces.CreateFindNoFind | tests/resource_manager_test.cc:33-59 | Create returns the factory's payload; Find on the key returns that object; Find on another key stays empty |
| ResourceManagerTraces.ReleaseThenDrop | tests/resource_manager_test.cc:61-75 | Find sees the payload; Release and dropping the only handle leave Find empty |
| ResourceManagerTraces.ReleaseAlive | tests/resource_manager_test.cc:122-135 | after Release, Find returns the same object the caller holds |
| ResourceManagerTraces.Recreate | tests/resource_manager_test.cc:137-148 | a second Create does not replace the first object; Find sees the first payload |
| ResourceManagerTraces.RecreateAlive | tests/resource_manager_test.cc:150-164 | Create after Release while a handle is held returns the held object without building; Find returns it |
| ResourceManagerTraces.ExplicitCache | tests/resource_manager_test.cc:166-182 | explicit mode: Create returns the payload but Find is empty; after Register, Find returns the same object |
| ResourceManagerTraces.WeakCache | tests/resource_manager_test.cc:184-205 | weak-only: Find succeeds while any caller handle, including one from Find, lives, and is empty once all are dropped, with no Release |
| ResourceManagerTraces.StrongCache | tests/resource_manager_test.cc:207-228 | full mode: Find keeps returning the object with its payload after all caller handles are dropped |
| ResourceManagerTraces.GroupAttachRelease | tests/resource_manager_test.cc:77-96 | the popped group holds exactly the created key; releasing it makes that key unfindable |
| ResourceManagerTraces.GroupAttachDetachRelease | tests/resource_manager_test.cc:98-120 | a key created after the pop is not in the group: after the group release the group key is empty and the later key still finds its payload |
| ResourceManagerTraces.GroupReleaseHidesUnheld | tests/resource_manager_test.cc:89-95 | a group release hides a member key whose object no caller holds and no non-member owns |
| ResourceManagerTraces.TrackCycle | tests/resource_manager_test.cc:235-241 | one loop iteration builds exactly one new default object (payload 0, fresh id), returned as the id of the built object, not a held handle, and leaves the key unfindable with no handle left |
| ResourceManagerTraces.TrackCycleObservations | tests/resource_manager_test.cc:237-239 | inside an iteration, Find returns the new object both before and after Release |
| ResourceManagerTraces.TrackNewInstances | tests/resource_manager_test.cc:230-243 | n iterations build exactly n objects, all new to the starting heap and pairwise distinct (strictly increasing ids), and the key ends unfindable |

### Design choices

The tests do not fix the following. The model settles each one as stated.

- `Register` installs a weak slot. The manager does not take ownership.
- A `Create` hit on a live weak slot makes the slot strong again, but only in the full
  mode. In the weak-only and explicit modes a hit leaves the slots alone.
- Only a `Create` miss records its key, and only into the top group. A key created in
  an inner group is therefore not a member of the outer group. `Register` records
  nothing.
- On an explicit-mode miss, a dead slot left under the key stays where it is. It
  cannot be observed.
- `PopResourceGroup` on an empty stack returns no group and changes nothing.
- A group is a plain value. Releasing it again has no further effect
  (`ReleaseKeysIsIdempotent`).

## Left out

- The test harness and its assertion macros: each test is a lemma in `ResourceManagerTraces`.
- The implementation's internal containers (the hash map of slots, the group stack's
  storage and the heap object behind the raw `ResourceGroup*` that a pop returns, with its
  lifetime): a slot map, a sequence and a group value take their place. The behaviour is
  fixed by the test suite, with the choices listed under "Design choices".
- Reference-count internals of `shared_ptr` / `weak_ptr`: atomic counts, deleters and
  raw addresses. Object identity is the abstract id.
- Factories as code: a factory is the payload it would produce. Factory failure is not
  modelled because no test exercises it.
- The timing include and any clock use.
- Thread safety: every test runs on one thread, and the model is sequential.
- Releasing a stale group handle is not modelled as a fault. Re-releasing is harmless
  in the model.
