/** Heap-level building blocks of the mixin pattern, shared by both example
    scenarios: allocating an instance, `this[key] = {}`, and `Mixin(target, source)`
    with a single source object; plus lemmas that reorder the heap writes of a
    constructor into one normal form. */
module Composition {
  import opened JsValues
  import opened JsObjects
  import opened Assign

  /** `new C(...)` for a base class: a fresh object with C's prototype chain and no own
      properties, on which the constructor then runs. */
  function NewInstance(h: Heap, chain: seq<Props>): (r: (Heap, nat))
    requires WfHeap(h)
    ensures WfHeap(r.0) && r.1 == h.next && r.0.next == h.next + 1 && h.next !in h.objs
    ensures r.0.objs == h.objs[h.next := Obj(NoProps, chain)]
  {
    assert Valid(NoProps);
    Alloc(h, Obj(NoProps, chain))
  }

  /** `this[key] = {}` for a key the object at `self` does not own: the empty object
      takes the next free address and is appended to self's properties under `key`. */
  method AddNamespace(h: Heap, self: nat, key: string) returns (r: Heap, ns: nat)
    requires WfHeap(h) && self in h.objs && key !in h.objs[self].own.slots
    ensures WfHeap(r) && ns == h.next && r.next == h.next + 1 && ns !in h.objs
    ensures r.objs == h.objs[ns := EmptyObject]
                            [self := Obj(AddOwn(h.objs[self].own, key, Ref(ns)), h.objs[self].chain)]
  {
    var alloc := Alloc(h, EmptyObject);
    ns := alloc.1;
    r := Put(alloc.0, self, key, Ref(ns));
    SetOwnFresh(h.objs[self].own, key, Ref(ns));
  }

  /** The heap writes of a namespaced mixin, reordered: `this[key] = {}` allocates
      the namespace at `ns` and writes the host at `self`; the donor's constructor
      writes the donor at `d` and what it allocates at `w`; the mixin fills the
      namespace with the donor's table. */
  lemma NamespaceWrites(m0: map<nat, Obj>, m1: map<nat, Obj>, m2: map<nat, Obj>, m3: map<nat, Obj>,
                        self: nat, ns: nat, o: Obj, d: nat, donor: Obj)
    requires self != ns && self != d && ns != d
    requires m1 == m0[ns := EmptyObject][self := o]
    requires m2 == m1[d := donor]
    requires m3 == m2[ns := Obj(m2[d].own, m2[ns].chain)]
    ensures m3 == m0[ns := Obj(donor.own, ObjectChain)][d := donor][self := o]
  {
  }

  lemma NamespaceWritesAlloc(m0: map<nat, Obj>, m1: map<nat, Obj>, m2: map<nat, Obj>, m3: map<nat, Obj>,
                             self: nat, ns: nat, o: Obj, w: nat, d: nat, donor: Obj)
    requires self != ns && self != d && ns != d && w != ns && w != self && w != d
    requires m1 == m0[ns := EmptyObject][self := o]
    requires m2 == m1[w := EmptyObject][d := donor]
    requires m3 == m2[ns := Obj(m2[d].own, m2[ns].chain)]
    ensures m3 == m0[ns := Obj(donor.own, ObjectChain)][w := EmptyObject][d := donor][self := o]
  {
  }

  /** `Mixin(ns, donor)` where `ns` owns nothing and every property of `donor` is
      enumerable: `ns` ends up with the donor's table and nothing else changes. */
  method MixinIntoEmpty(h: Heap, ns: nat, donor: nat) returns (r: Heap)
    requires WfHeap(h) && ns in h.objs && donor in h.objs && ns != donor
    requires h.objs[ns].own == NoProps && AllEnumerable(h.objs[donor].own)
    ensures WfHeap(r) && r.next == h.next
    ensures r.objs == h.objs[ns := Obj(h.objs[donor].own, h.objs[ns].chain)]
  {
    MixinOntoEmpty(h, ns, donor);
    r := Mixin(h, Ref(ns), [Ref(donor)]).value.0;
  }

  /** `Mixin(t, src)` with one source object: the target's own properties are
      overlaid with the source's, in the source's key order; nothing else changes. */
  method MixinFrom(h: Heap, t: nat, src: nat) returns (r: Heap)
    requires WfHeap(h) && t in h.objs && src in h.objs && src != t
    ensures WfHeap(r) && r.next == h.next
    ensures r.objs == h.objs[t := Obj(AssignKeys(h.objs[t].own, h.objs[src].own, h.objs[src].own.keys),
                                      h.objs[t].chain)]
  {
    MixinOne(h, t, src);
    r := Mixin(h, Ref(t), [Ref(src)]).value.0;
  }

  /** The copy loop over a source with five own keys. */
  lemma AssignKeysFive(t: Props, s: Props, a: string, b: string, c: string, d: string, e: string)
    ensures AssignKeys(t, s, [a, b, c, d, e]) ==
      Step(Step(Step(Step(Step(t, s, a), s, b), s, c), s, d), s, e)
  {
    var t1 := Step(t, s, a);
    var t2 := Step(t1, s, b);
    var t3 := Step(t2, s, c);
    var t4 := Step(t3, s, d);
    assert [a, b, c, d, e][1..] == [b, c, d, e];
    assert AssignKeys(t, s, [a, b, c, d, e]) == AssignKeys(t1, s, [b, c, d, e]);
    assert [b, c, d, e][1..] == [c, d, e];
    assert AssignKeys(t1, s, [b, c, d, e]) == AssignKeys(t2, s, [c, d, e]);
    assert [c, d, e][1..] == [d, e];
    assert AssignKeys(t2, s, [c, d, e]) == AssignKeys(t3, s, [d, e]);
    assert [d, e][1..] == [e];
    assert AssignKeys(t3, s, [d, e]) == AssignKeys(t4, s, [e]);
    assert [e][1..] == [];
    assert AssignKeys(t4, s, [e]) == Step(t4, s, e);
  }
}
