/** `makeMixable(ctx, className)` from polymix.js (copied verbatim into both example
    scripts). For each own property name of `className.prototype` other than
    "constructor" it evaluates `ctx[method] = ctx[method]`: the right-hand side reads
    through ctx's prototype chain and the assignment creates an own enumerable property
    on ctx. The effect is to hoist inherited methods onto ctx as own properties, which
    Object.assign will then copy. The class's own methods are not read from
    `className.prototype` directly. */
module Mixable {
  import opened JsValues
  import opened JsObjects

  /** The per-name filter of the loop: `typeof method != 'undefined' && method !==
      'constructor'`. */
  predicate Hoistable(name: string)
  {
    TypeOf(Str(name)) != "undefined" && name != "constructor"
  }

  /** The `typeof` test never rejects a name: the names come from
      Object.getOwnPropertyNames and are strings, so "constructor" is the only name
      that is filtered out. */
  lemma OnlyConstructorFiltered(name: string)
    ensures Hoistable(name) <==> name != "constructor"
  {
  }

  /** One iteration of the loop: `ctx[name] = ctx[name]`. */
  function HoistOne(o: Obj, name: string): Obj
  {
    if Hoistable(name) then Obj(SetOwn(o.own, name, Get(o, name)), o.chain) else o
  }

  /** The loop of makeMixable over the prototype's own names, in order. */
  function HoistAll(o: Obj, names: seq<string>): Obj
    decreases |names|
  {
    if |names| == 0 then o else HoistAll(HoistOne(o, names[0]), names[1..])
  }

  /** The loop over a prototype with two own names. */
  lemma HoistAllTwo(o: Obj, a: string, b: string)
    ensures HoistAll(o, [a, b]) == HoistOne(HoistOne(o, a), b)
  {
    assert [a, b][1..] == [b];
    assert [b][1..] == [];
    var o1 := HoistOne(o, a);
    assert HoistAll(o, [a, b]) == HoistAll(o1, [b]);
    assert HoistAll(o1, [b]) == HoistAll(HoistOne(o1, b), []);
  }

  /** makeMixable over a prototype owning `constructor` and one method `m` the instance
      does not own yet: `m` is appended, holding what it resolves to on the chain. */
  lemma HoistSingleMethod(o: Obj, m: string)
    requires m != "constructor" && m !in o.own.slots
    ensures HoistAll(o, ["constructor", m]) == Obj(AddOwn(o.own, m, Get(o, m)), o.chain)
  {
    HoistAllTwo(o, "constructor", m);
    assert HoistOne(o, "constructor") == o;
    SetOwnFresh(o.own, m, Get(o, m));
  }

  /** The loop over a prototype with three own names. */
  lemma HoistAllThree(o: Obj, a: string, b: string, c: string)
    ensures HoistAll(o, [a, b, c]) == HoistOne(HoistOne(HoistOne(o, a), b), c)
  {
    assert [a, b, c][1..] == [b, c];
    HoistAllTwo(HoistOne(o, a), b, c);
  }

  // ---------------------------------------------------------------------------
  // Reference definition.

  /** The names the loop adds as new own keys: hoistable and not already own. */
  function NewNames(names: seq<string>, o: Obj): seq<string>
    decreases |names|
  {
    if |names| == 0 then []
    else (if Hoistable(names[0]) && names[0] !in o.own.slots then [names[0]] else [])
         + NewNames(names[1..], o)
  }

  /** The object after hoisting: every property it already owned is untouched, and
      each hoistable name it did not own is appended, in prototype order, as an
      enumerable property holding what the name resolved to through the chain. */
  function Hoisted(o: Obj, names: seq<string>): Obj
  {
    var added := set n | n in names && Hoistable(n) && n !in o.own.slots;
    Obj(Props(o.own.keys + NewNames(names, o),
              map k | k in o.own.slots.Keys + added ::
                if k in o.own.slots then o.own.slots[k] else Prop(ChainGet(o.chain, k), true)),
        o.chain)
  }

  lemma {:induction false} NewNamesMembers(names: seq<string>, o: Obj)
    ensures forall k :: k in NewNames(names, o) <==> k in names && Hoistable(k) && k !in o.own.slots
    decreases |names|
  {
    if |names| > 0 {
      NewNamesMembers(names[1..], o);
    }
  }

  lemma {:induction false} NewNamesFrame(names: seq<string>, o: Obj, o': Obj)
    requires forall k :: k in names ==> (k in o.own.slots <==> k in o'.own.slots)
    ensures NewNames(names, o) == NewNames(names, o')
    decreases |names|
  {
    if |names| > 0 {
      NewNamesFrame(names[1..], o, o');
    }
  }

  lemma {:induction false} NewNamesNone(names: seq<string>, o: Obj)
    requires forall k :: k in names && Hoistable(k) ==> k in o.own.slots
    ensures NewNames(names, o) == []
    decreases |names|
  {
    if |names| > 0 {
      NewNamesNone(names[1..], o);
    }
  }

  lemma HoistStepKeys(o: Obj, names: seq<string>)
    requires Valid(o.own) && |names| > 0 && names[0] !in names[1..]
    ensures Hoisted(HoistOne(o, names[0]), names[1..]).own.keys == Hoisted(o, names).own.keys
  {
    var n := names[0];
    var o1 := HoistOne(o, n);
    NewNamesFrame(names[1..], o1, o);
    var rest := NewNames(names[1..], o);
    if Hoistable(n) && n !in o.own.slots {
      assert NewNames(names, o) == [n] + rest;
      assert o1.own.keys == o.own.keys + [n];
      assert o1.own.keys + rest == o.own.keys + ([n] + rest);
    } else {
      assert NewNames(names, o) == rest;
      assert o1.own.keys == o.own.keys;
    }
  }

  lemma HoistStepSlots(o: Obj, names: seq<string>)
    requires Valid(o.own) && |names| > 0 && names[0] !in names[1..]
    ensures Hoisted(HoistOne(o, names[0]), names[1..]).own.slots == Hoisted(o, names).own.slots
  {
    var lhs := Hoisted(HoistOne(o, names[0]), names[1..]).own.slots;
    var rhs := Hoisted(o, names).own.slots;
    forall j
      ensures j in lhs <==> j in rhs
      ensures j in lhs ==> lhs[j] == rhs[j]
    {
      HoistStepAt(o, names, j);
    }
  }

  /** One iteration followed by the reference definition agrees with the reference
      definition at each key. */
  lemma HoistStepAt(o: Obj, names: seq<string>, j: string)
    requires Valid(o.own) && |names| > 0 && names[0] !in names[1..]
    ensures var lhs := Hoisted(HoistOne(o, names[0]), names[1..]).own.slots;
      var rhs := Hoisted(o, names).own.slots;
      && (j in lhs <==> j in rhs)
      && (j in lhs ==> lhs[j] == rhs[j])
  {
    var n := names[0];
    var o1 := HoistOne(o, n);
    HoistedAt(o1, names[1..], j);
    HoistedAt(o, names, j);
    if j == n {
      assert j !in names[1..];
    }
    if Hoistable(n) {
      SetOwnFrame(o.own, n, Get(o, n));
    }
  }

  /** The reference definition at one key. */
  lemma HoistedAt(o: Obj, names: seq<string>, k: string)
    ensures k in Hoisted(o, names).own.slots <==> k in o.own.slots || (k in names && Hoistable(k))
    ensures k in Hoisted(o, names).own.slots ==>
              Hoisted(o, names).own.slots[k] ==
              (if k in o.own.slots then o.own.slots[k] else Prop(ChainGet(o.chain, k), true))
  {
  }

  /** The loop computes the reference definition. */
  lemma {:induction false} HoistAllIsHoisted(o: Obj, names: seq<string>)
    requires Valid(o.own) && Distinct(names)
    ensures HoistAll(o, names) == Hoisted(o, names)
    decreases |names|
  {
    if |names| == 0 {
      assert Hoisted(o, names).own.slots == o.own.slots;
      assert o.own.keys + [] == o.own.keys;
    } else {
      assert Distinct(names[1..]);
      assert names[0] !in names[1..];
      HoistAllIsHoisted(HoistOne(o, names[0]), names[1..]);
      HoistStepKeys(o, names);
      HoistStepSlots(o, names);
    }
  }

  /** `makeMixable(ctx, C)` where `proto` is `C.prototype`'s own property table and
      `ctx` is an object on the heap. Only ctx changes. Every own name of the prototype
      other than "constructor" becomes an own property of ctx holding what ctx[name]
      resolved to before the call (undefined if nothing on the chain has it); what every
      key resolves to is unchanged; every property ctx already owned keeps its place,
      value and attributes; the names added follow in prototype order and no other key
      appears. */
  function MakeMixable(h: Heap, ctx: nat, proto: Props): (r: Heap)
    requires WfHeap(h) && ctx in h.objs && Valid(proto)
    ensures WfHeap(r)
    ensures r.next == h.next && r.objs.Keys == h.objs.Keys
    ensures forall a :: a in h.objs && a != ctx ==> r.objs[a] == h.objs[a]
    ensures r.objs[ctx] == Hoisted(h.objs[ctx], proto.keys)
    ensures r.objs[ctx].chain == h.objs[ctx].chain
    ensures forall n :: n in proto.keys && n != "constructor" ==>
      n in r.objs[ctx].own.slots && r.objs[ctx].own.slots[n].value == Get(h.objs[ctx], n)
    ensures forall k :: Get(r.objs[ctx], k) == Get(h.objs[ctx], k)
    ensures forall k :: k in h.objs[ctx].own.slots ==>
      k in r.objs[ctx].own.slots && r.objs[ctx].own.slots[k] == h.objs[ctx].own.slots[k]
    ensures forall k :: k in r.objs[ctx].own.slots ==>
      k in h.objs[ctx].own.slots || (k in proto.keys && k != "constructor")
    ensures r.objs[ctx].own.keys == h.objs[ctx].own.keys + NewNames(proto.keys, h.objs[ctx])
    ensures IsSubsequence(NewNames(proto.keys, h.objs[ctx]), proto.keys)
  {
    var o := h.objs[ctx];
    AllocatedAt(h, ctx);
    HoistAllIsHoisted(o, proto.keys);
    NewNamesMembers(proto.keys, o);
    NewNamesSubsequence(proto.keys, o);
    HoistedValid(o, proto.keys);
    WfHeapWrite(h, ctx, HoistAll(o, proto.keys));
    Heap(h.objs[ctx := HoistAll(o, proto.keys)], h.next)
  }

  lemma {:induction false} NewNamesSubsequence(names: seq<string>, o: Obj)
    ensures IsSubsequence(NewNames(names, o), names)
    decreases |names|
  {
    if |names| > 0 {
      NewNamesSubsequence(names[1..], o);
      var rest := NewNames(names[1..], o);
      if Hoistable(names[0]) && names[0] !in o.own.slots {
        assert NewNames(names, o) == [names[0]] + rest;
        assert ([names[0]] + rest)[1..] == rest;
      } else {
        assert NewNames(names, o) == rest;
        SubsequenceDrop(rest, names);
      }
    }
  }

  lemma HoistedValid(o: Obj, names: seq<string>)
    requires Valid(o.own) && Distinct(names)
    ensures Valid(Hoisted(o, names).own)
  {
    var r := Hoisted(o, names);
    NewNamesMembers(names, o);
    NewNamesDistinct(names, o);
    var ks := r.own.keys;
    var old_ := o.own.keys;
    var added := NewNames(names, o);
    forall i, j | 0 <= i < j < |ks|
      ensures ks[i] != ks[j]
    {
      if j < |old_| {
      } else if i >= |old_| {
        assert ks[i] == added[i - |old_|] && ks[j] == added[j - |old_|];
      } else {
        assert ks[j] == added[j - |old_|];
        assert ks[j] in added;
        assert ks[i] in o.own.slots;
      }
    }
  }

  lemma {:induction false} NewNamesDistinct(names: seq<string>, o: Obj)
    requires Distinct(names)
    ensures Distinct(NewNames(names, o))
    decreases |names|
  {
    if |names| > 0 {
      assert Distinct(names[1..]);
      NewNamesDistinct(names[1..], o);
      NewNamesMembers(names[1..], o);
      var rest := NewNames(names[1..], o);
      assert names[0] !in rest;
      if Hoistable(names[0]) && names[0] !in o.own.slots {
        var xs := [names[0]] + rest;
        forall i, j | 0 <= i < j < |xs|
          ensures xs[i] != xs[j]
        {
          if i == 0 {
            assert xs[j] == rest[j - 1];
            assert xs[j] in rest;
          } else {
            assert xs[i] == rest[i - 1] && xs[j] == rest[j - 1];
          }
        }
      }
    }
  }

  /** For a class prototype whose own names are "constructor" followed by methods
      that ctx does not own yet, the hoisted names are exactly those methods. */
  lemma NewNamesOfClass(names: seq<string>, o: Obj)
    requires Distinct(names) && |names| > 0 && names[0] == "constructor"
    requires forall i :: 1 <= i < |names| ==> names[i] !in o.own.slots
    ensures NewNames(names, o) == names[1..]
  {
    assert NewNames(names, o) == NewNames(names[1..], o);
    NewNamesFresh(names[1..], o);
  }

  lemma {:induction false} NewNamesFresh(names: seq<string>, o: Obj)
    requires forall i :: 0 <= i < |names| ==> names[i] !in o.own.slots && names[i] != "constructor"
    ensures NewNames(names, o) == names
    decreases |names|
  {
    if |names| > 0 {
      NewNamesFresh(names[1..], o);
      assert names == [names[0]] + names[1..];
    }
  }

  /** makeMixable is idempotent: a second call with the same class changes nothing. */
  lemma MakeMixableIdempotent(h: Heap, ctx: nat, proto: Props)
    requires WfHeap(h) && ctx in h.objs && Valid(proto)
    ensures MakeMixable(MakeMixable(h, ctx, proto), ctx, proto) == MakeMixable(h, ctx, proto)
  {
    var h1 := MakeMixable(h, ctx, proto);
    var o1 := h1.objs[ctx];
    NewNamesNone(proto.keys, o1);
    var o2 := Hoisted(o1, proto.keys);
    assert o2.own.keys == o1.own.keys;
    assert o2.own.slots == o1.own.slots;
    assert o2 == o1;
    assert h1.objs[ctx := o2] == h1.objs;
  }

  /** When `className.prototype` sits at link `i` of ctx's chain and neither ctx nor
      an earlier link provides the name, makeMixable gives ctx what
      `ctx[n] = className.prototype[n]` would: the prototype's own value. This is the
      case of every call in the example scripts. */
  lemma MakeMixableFromPrototype(h: Heap, ctx: nat, proto: Props, n: string, i: nat)
    requires WfHeap(h) && ctx in h.objs && Valid(proto)
    requires n in proto.keys && n != "constructor" && n !in h.objs[ctx].own.slots
    requires i < |h.objs[ctx].chain| && h.objs[ctx].chain[i] == proto
    requires forall j :: 0 <= j < i ==> n !in h.objs[ctx].chain[j].slots
    ensures n in proto.slots && n in MakeMixable(h, ctx, proto).objs[ctx].own.slots
    ensures MakeMixable(h, ctx, proto).objs[ctx].own.slots[n].value == proto.slots[n].value
  {
    ChainGetFirst(h.objs[ctx].chain, n, i);
  }

  /** When a subclass prototype earlier on ctx's chain overrides the name, makeMixable
      gives ctx the override, not `className.prototype`'s method. */
  lemma MakeMixableOverridden(h: Heap, ctx: nat, proto: Props, n: string, i: nat, j: nat)
    requires WfHeap(h) && ctx in h.objs && Valid(proto)
    requires n in proto.keys && n != "constructor" && n !in h.objs[ctx].own.slots
    requires i < |h.objs[ctx].chain| && h.objs[ctx].chain[i] == proto
    requires j < i && n in h.objs[ctx].chain[j].slots
    requires forall l :: 0 <= l < j ==> n !in h.objs[ctx].chain[l].slots
    ensures n in MakeMixable(h, ctx, proto).objs[ctx].own.slots
    ensures MakeMixable(h, ctx, proto).objs[ctx].own.slots[n].value == h.objs[ctx].chain[j].slots[n].value
  {
    ChainGetFirst(h.objs[ctx].chain, n, j);
  }

  /** A name that nothing on ctx's chain provides is hoisted as undefined. */
  lemma MakeMixableUnresolved(h: Heap, ctx: nat, proto: Props, n: string)
    requires WfHeap(h) && ctx in h.objs && Valid(proto)
    requires n in proto.keys && n != "constructor"
    requires n !in h.objs[ctx].own.slots
    requires forall i :: 0 <= i < |h.objs[ctx].chain| ==> n !in h.objs[ctx].chain[i].slots
    ensures n in MakeMixable(h, ctx, proto).objs[ctx].own.slots
    ensures MakeMixable(h, ctx, proto).objs[ctx].own.slots[n] == Prop(Undefined, true)
  {
    ChainGetMissing(h.objs[ctx].chain, n);
  }
}
