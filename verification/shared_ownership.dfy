/** Abstract shared ownership.

    A resource handed out by the cache is shared between the manager and any
    number of callers. Instead of reference counting the model keeps an
    abstract heap: every resource has a fresh natural-number id, carries its
    payload (the `value` of the test resource) and counts the shared handles
    its callers hold. Whether the manager itself co-owns a resource is recorded
    in the manager's slots, not here.
 */
module SharedOwnership {

  /** Identity of one resource object ("the same object"). */
  type Rid = nat

  /** One resource object: its payload and the number of caller-held shared handles. */
  datatype Resource = Resource(value: int, holders: nat)

  type Heap = map<Rid, Resource>

  /** Some caller holds a shared handle to `r`. */
  predicate Held(h: Heap, r: Rid)
  {
    r in h && h[r].holders > 0
  }

  /** One more shared handle to `r` exists; nothing else changes. */
  function AddHolder(h: Heap, r: Rid): (h': Heap)
    requires r in h
    ensures h'.Keys == h.Keys
    ensures Held(h', r) && h'[r].value == h[r].value
    ensures h'[r].holders == h[r].holders + 1
    ensures forall q :: q in h && q != r ==> h'[q] == h[q]
  {
    h[r := h[r].(holders := h[r].holders + 1)]
  }

  /** One shared handle to `r` goes away; nothing else changes. */
  function RemoveHolder(h: Heap, r: Rid): (h': Heap)
    requires Held(h, r)
    ensures h'.Keys == h.Keys
    ensures h'[r].value == h[r].value
    ensures h'[r].holders + 1 == h[r].holders
    ensures forall q :: q in h && q != r ==> h'[q] == h[q]
  {
    h[r := h[r].(holders := h[r].holders - 1)]
  }

  /** A freshly constructed resource, owned by exactly the one handle the factory returned. */
  function Allocate(h: Heap, r: Rid, value: int): (h': Heap)
    requires r !in h
    ensures h'.Keys == h.Keys + {r}
    ensures h'[r] == Resource(value, 1)
    ensures forall q :: q in h ==> h'[q] == h[q]
  {
    h[r := Resource(value, 1)]
  }

  /** Taking a handle and then dropping it leaves the heap as it was. */
  lemma AddRemoveInverse(h: Heap, r: Rid)
    requires r in h
    ensures RemoveHolder(AddHolder(h, r), r) == h
  {
  }

  /** Dropping one of several handles and taking it again leaves the heap as it was. */
  lemma RemoveAddInverse(h: Heap, r: Rid)
    requires r in h && h[r].holders > 1
    ensures AddHolder(RemoveHolder(h, r), r) == h
  {
  }
}
