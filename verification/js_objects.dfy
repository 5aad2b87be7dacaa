/** Ordinary objects (ECMA-262 section 10.1) as immutable values: an ordered table of
    own data properties plus a prototype chain, and a heap that maps addresses to
    objects so that object identity can be stated. Accessors, non-writable and
    non-configurable properties, symbol keys and exotic objects are not modelled. */
module JsObjects {
  import opened JsValues

  /** An own data property: its [[Value]] and its [[Enumerable]] attribute. */
  datatype Prop = Prop(value: Value, enumerable: bool)

  /** A property table: own string keys in OrdinaryOwnPropertyKeys order (for the
      non-integer keys modelled here, creation order) and the property under each. */
  datatype Props = Props(keys: seq<string>, slots: map<string, Prop>)

  ghost predicate Distinct(xs: seq<string>)
  {
    forall i, j :: 0 <= i < j < |xs| ==> xs[i] != xs[j]
  }

  /** The key list names each stored property exactly once. */
  ghost predicate Valid(p: Props)
  {
    && Distinct(p.keys)
    && forall k :: k in p.slots <==> k in p.keys
  }

  const NoProps: Props := Props([], map[])

  /** `xs` is `ys` with some elements dropped, order kept. */
  predicate IsSubsequence(xs: seq<string>, ys: seq<string>)
    decreases |ys|
  {
    if |xs| == 0 then true
    else if |ys| == 0 then false
    else if xs[0] == ys[0] then IsSubsequence(xs[1..], ys[1..])
    else IsSubsequence(xs, ys[1..])
  }

  /** Dropping the first element of the longer sequence keeps a subsequence one. */
  lemma {:induction false} SubsequenceDrop(xs: seq<string>, ys: seq<string>)
    requires |ys| > 0 && IsSubsequence(xs, ys[1..])
    ensures IsSubsequence(xs, ys)
    decreases |xs| + |ys|
  {
    if |xs| > 0 && xs[0] == ys[0] {
      SubsequenceDropHead(xs, ys[1..]);
    }
  }

  lemma {:induction false} SubsequenceDropHead(xs: seq<string>, zs: seq<string>)
    requires |xs| > 0 && IsSubsequence(xs, zs)
    ensures IsSubsequence(xs[1..], zs)
    decreases |xs| + |zs|
  {
    assert |zs| > 0;
    if xs[0] == zs[0] {
      SubsequenceDrop(xs[1..], zs);
    } else {
      SubsequenceDropHead(xs, zs[1..]);
      SubsequenceDrop(xs[1..], zs);
    }
  }

  /** Ordinary [[Set]] of a data value on the receiver that owns the table
      (OrdinarySetWithOwnDescriptor, ECMA-262 section 10.1.9.2), every property being
      writable: an existing own property keeps its place and attributes and takes the
      new value; otherwise a new enumerable property is created at the end of the key
      order, whatever the prototype chain holds under that key. */
  function SetOwn(p: Props, k: string, v: Value): (r: Props)
    ensures Valid(p) ==> Valid(r)
    ensures k in r.slots && r.slots[k].value == v
    ensures r.slots[k].enumerable == (k in p.slots ==> p.slots[k].enumerable)
    ensures k in p.slots ==> r.keys == p.keys
    ensures k !in p.slots ==> r.keys == p.keys + [k]
  {
    if k in p.slots then Props(p.keys, p.slots[k := Prop(v, p.slots[k].enumerable)])
    else Props(p.keys + [k], p.slots[k := Prop(v, true)])
  }

  /** A new enumerable own property appended after the existing keys. */
  function AddOwn(p: Props, k: string, v: Value): Props
  {
    Props(p.keys + [k], p.slots[k := Prop(v, true)])
  }

  /** [[Set]] of a key the object does not own creates it at the end of the key order. */
  lemma SetOwnFresh(p: Props, k: string, v: Value)
    requires k !in p.slots
    ensures SetOwn(p, k, v) == AddOwn(p, k, v)
  {
  }

  /** Two [[Set]]s of distinct keys the object does not own append both, in order. */
  lemma SetOwnFreshTwice(p: Props, a: string, va: Value, b: string, vb: Value)
    requires a !in p.slots && b !in p.slots && a != b
    ensures SetOwn(SetOwn(p, a, va), b, vb) == AddOwn(AddOwn(p, a, va), b, vb)
  {
    SetOwnFresh(p, a, va);
    SetOwnFresh(AddOwn(p, a, va), b, vb);
  }

  /** Three [[Set]]s of distinct keys the object does not own append all three, in order. */
  lemma SetOwnFreshThrice(p: Props, a: string, va: Value, b: string, vb: Value, c: string, vc: Value)
    requires a !in p.slots && b !in p.slots && c !in p.slots && a != b && a != c && b != c
    ensures SetOwn(SetOwn(SetOwn(p, a, va), b, vb), c, vc) == AddOwn(AddOwn(AddOwn(p, a, va), b, vb), c, vc)
  {
    SetOwnFresh(p, a, va);
    SetOwnFreshTwice(AddOwn(p, a, va), b, vb, c, vc);
  }

  /** [[Set]] on one key leaves every other own property as it was. */
  lemma SetOwnFrame(p: Props, k: string, v: Value)
    ensures forall j :: j != k ==> (j in SetOwn(p, k, v).slots <==> j in p.slots)
    ensures forall j :: j != k && j in p.slots ==> SetOwn(p, k, v).slots[j] == p.slots[j]
  {
  }

  /** An ordinary object: its own properties and its prototype chain, nearest
      prototype first. The prototypes of the modelled classes are never written to, so
      the chain is held by value. */
  datatype Obj = Obj(own: Props, chain: seq<Props>)

  /** Lookup along a prototype chain: the first prototype that owns the key wins. */
  function ChainGet(chain: seq<Props>, k: string): Value
    decreases |chain|
  {
    if |chain| == 0 then Undefined
    else if k in chain[0].slots then chain[0].slots[k].value
    else ChainGet(chain[1..], k)
  }

  /** OrdinaryGet (ECMA-262 section 10.1.8.1) with the object itself as receiver. */
  function Get(o: Obj, k: string): Value
  {
    if k in o.own.slots then o.own.slots[k].value else ChainGet(o.chain, k)
  }

  /** A key that no link of the chain owns resolves to undefined. */
  lemma {:induction false} ChainGetMissing(chain: seq<Props>, k: string)
    requires forall i :: 0 <= i < |chain| ==> k !in chain[i].slots
    ensures ChainGet(chain, k) == Undefined
    decreases |chain|
  {
    if |chain| > 0 {
      assert k !in chain[0].slots;
      assert forall i :: 0 <= i < |chain[1..]| ==> chain[1..][i] == chain[i + 1];
      ChainGetMissing(chain[1..], k);
    }
  }

  /** A key that some link of the chain owns resolves to the value of the first
      such link. */
  lemma {:induction false} ChainGetFirst(chain: seq<Props>, k: string, i: nat)
    requires i < |chain| && k in chain[i].slots
    requires forall j :: 0 <= j < i ==> k !in chain[j].slots
    ensures ChainGet(chain, k) == chain[i].slots[k].value
    decreases i
  {
    if i > 0 {
      assert k !in chain[0].slots;
      assert forall j :: 0 <= j < i - 1 ==> chain[1..][j] == chain[j + 1];
      ChainGetFirst(chain[1..], k, i - 1);
    }
  }

  /** The heap of ordinary objects; `next` is the next free address. */
  datatype Heap = Heap(objs: map<nat, Obj>, next: nat)

  ghost predicate WfHeap(h: Heap)
  {
    forall a {:trigger Allocated(h, a)} :: a in h.objs ==> Allocated(h, a)
  }

  /** The object at `a` lies below the next free address and its table is well formed. */
  ghost predicate Allocated(h: Heap, a: nat)
  {
    a in h.objs && a < h.next && Valid(h.objs[a].own)
  }

  /** What a well-formed heap says about one of its addresses. */
  lemma AllocatedAt(h: Heap, a: nat)
    requires WfHeap(h) && a in h.objs
    ensures a < h.next && Valid(h.objs[a].own)
  {
    assert Allocated(h, a);
  }

  /** Replacing an object by one whose table is well formed keeps the heap well formed. */
  lemma WfHeapWrite(h: Heap, a: nat, o: Obj)
    requires WfHeap(h) && a in h.objs && Valid(o.own)
    ensures WfHeap(Heap(h.objs[a := o], h.next))
  {
    var r := Heap(h.objs[a := o], h.next);
    forall b | b in r.objs
      ensures Allocated(r, b)
    {
      assert Allocated(h, b) by { assert b in h.objs; }
    }
  }

  /** The next free address is not in use, and storing a well-formed object there
      keeps the heap well formed. */
  lemma WfHeapExtend(h: Heap, o: Obj)
    requires WfHeap(h) && Valid(o.own)
    ensures h.next !in h.objs
    ensures WfHeap(Heap(h.objs[h.next := o], h.next + 1))
  {
    forall a | a in h.objs
      ensures a < h.next
    {
      assert Allocated(h, a);
    }
    var r := Heap(h.objs[h.next := o], h.next + 1);
    forall b | b in r.objs
      ensures Allocated(r, b)
    {
      if b != h.next {
        assert Allocated(h, b);
      }
    }
  }

  /** A second write to the same address supersedes the first. */
  lemma OverwriteObj(m: map<int, Obj>, a: int, o1: Obj, o2: Obj)
    ensures m[a := o1][a := o2] == m[a := o2]
  {
  }

  /** The same across a write to another address. */
  lemma OverwriteObjPast(m: map<int, Obj>, a: int, b: int, o1: Obj, o: Obj, o2: Obj)
    ensures m[a := o1][b := o][a := o2] == m[b := o][a := o2]
  {
  }

  /** The same across writes to two other addresses. */
  lemma OverwriteObjPastTwo(m: map<int, Obj>, a: int, b: int, c: int, o1: Obj, ob: Obj, oc: Obj, o2: Obj)
    requires a != b && a != c
    ensures m[a := o1][b := ob][c := oc][a := o2] == m[b := ob][c := oc][a := o2]
  {
  }

  /** The same across writes to three other addresses. */
  lemma OverwriteObjPastThree(m: map<int, Obj>, a: int, b: int, c: int, d: int,
                              o1: Obj, ob: Obj, oc: Obj, od: Obj, o2: Obj)
    requires a != b && a != c && a != d
    ensures m[a := o1][b := ob][c := oc][d := od][a := o2] == m[b := ob][c := oc][d := od][a := o2]
  {
  }

  /** Allocation of a new object: the address is fresh and nothing else changes. */
  function Alloc(h: Heap, o: Obj): (r: (Heap, nat))
    requires WfHeap(h) && Valid(o.own)
    ensures WfHeap(r.0)
    ensures r.1 !in h.objs
    ensures r.0.objs == h.objs[r.1 := o]
  {
    WfHeapExtend(h, o);
    (Heap(h.objs[h.next := o], h.next + 1), h.next)
  }

  /** `obj[k] = v` on the object at address `a`. */
  function Put(h: Heap, a: nat, k: string, v: Value): (r: Heap)
    requires WfHeap(h) && a in h.objs
    ensures WfHeap(r)
    ensures r.objs == h.objs[a := Obj(SetOwn(h.objs[a].own, k, v), h.objs[a].chain)]
  {
    AllocatedAt(h, a);
    WfHeapWrite(h, a, Obj(SetOwn(h.objs[a].own, k, v), h.objs[a].chain));
    Heap(h.objs[a := Obj(SetOwn(h.objs[a].own, k, v), h.objs[a].chain)], h.next)
  }

  /** Every own property is enumerable (so Object.assign copies all of them). */
  ghost predicate AllEnumerable(p: Props)
  {
    forall k :: k in p.slots ==> p.slots[k].enumerable
  }

  /** `obj[k]` for the object at address `a`. */
  function Field(h: Heap, a: nat, k: string): Value
    requires a in h.objs
  {
    Get(h.objs[a], k)
  }

  /** `obj.hasOwnProperty(k)` for the object at address `a`. */
  predicate HasOwn(h: Heap, a: nat, k: string)
    requires a in h.objs
  {
    k in h.objs[a].own.slots
  }

  /** A built-in method of a prototype: a non-enumerable data property. */
  function Method(name: string): Prop
  {
    Prop(Fun(name), false)
  }

  /** Object.prototype (ECMA-262 section 20.1.3), limited to its data methods. */
  const ObjectPrototype: Props := Props(
    ["constructor", "hasOwnProperty", "isPrototypeOf", "propertyIsEnumerable",
     "toLocaleString", "toString", "valueOf"],
    map[
      "constructor" := Method("Object"),
      "hasOwnProperty" := Method("hasOwnProperty"),
      "isPrototypeOf" := Method("isPrototypeOf"),
      "propertyIsEnumerable" := Method("propertyIsEnumerable"),
      "toLocaleString" := Method("toLocaleString"),
      "toString" := Method("toString"),
      "valueOf" := Method("valueOf")])

  /** The prototype chain of an object created by an object literal. */
  const ObjectChain: seq<Props> := [ObjectPrototype]

  /** The object an empty literal `{}` creates. */
  const EmptyObject: Obj := Obj(NoProps, ObjectChain)
}
