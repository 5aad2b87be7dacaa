/** `Mixin`, which polymix.js binds to Object.assign (ECMA-262 section 20.1.2.1): for
    each source in argument order, every own enumerable property of the source is
    read and written onto the target with ordinary [[Set]]; the target is returned. */
module Assign {
  import opened JsValues
  import opened JsObjects

  /** `k` is an own enumerable property of `s`: what Object.assign copies. */
  predicate Copied(s: Props, k: string)
  {
    k in s.slots && s.slots[k].enumerable
  }

  /** One iteration of the copy loop: [[Set]] the key on the target if the source
      owns it enumerably. */
  function Step(t: Props, s: Props, k: string): Props
  {
    if Copied(s, k) then SetOwn(t, k, s.slots[k].value) else t
  }

  /** The per-key loop of Object.assign for one source: for each key of `ks` in turn,
      if the source owns it enumerably, [[Set]] its value on the target. */
  function AssignKeys(t: Props, s: Props, ks: seq<string>): Props
    decreases |ks|
  {
    if |ks| == 0 then t
    else
      AssignKeys(Step(t, s, ks[0]), s, ks[1..])
  }

  // ---------------------------------------------------------------------------
  // Reference definition: the effect of copying one source, stated without a loop.

  /** The keys of `ks` that the copy appends to `t`: copied, and not already own. */
  function Appended(ks: seq<string>, t: Props, s: Props): seq<string>
    decreases |ks|
  {
    if |ks| == 0 then []
    else (if Copied(s, ks[0]) && ks[0] !in t.slots then [ks[0]] else []) + Appended(ks[1..], t, s)
  }

  /** The target after `s`'s properties listed in `ks` have been laid over it: the
      target's keys keep their places, new keys follow in source order, copied keys take
      the source's value, an overwritten property keeps its enumerability, and every
      other property of the target is as it was. */
  function OverlayOn(t: Props, s: Props, ks: seq<string>): Props
  {
    var copied := set k | k in ks && Copied(s, k);
    Props(t.keys + Appended(ks, t, s),
          map k | k in t.slots.Keys + copied ::
            if k in copied then Prop(s.slots[k].value, k in t.slots ==> t.slots[k].enumerable)
            else t.slots[k])
  }

  function Overlay(t: Props, s: Props): Props
  {
    OverlayOn(t, s, s.keys)
  }

  lemma {:induction false} AppendedMembers(ks: seq<string>, t: Props, s: Props)
    ensures forall k :: k in Appended(ks, t, s) <==> k in ks && Copied(s, k) && k !in t.slots
    ensures IsSubsequence(Appended(ks, t, s), ks)
    decreases |ks|
  {
    if |ks| > 0 {
      AppendedMembers(ks[1..], t, s);
      var rest := Appended(ks[1..], t, s);
      if Copied(s, ks[0]) && ks[0] !in t.slots {
        assert Appended(ks, t, s) == [ks[0]] + rest;
        assert ([ks[0]] + rest)[1..] == rest;
      } else {
        assert Appended(ks, t, s) == rest;
        SubsequenceDrop(rest, ks);
      }
      assert ks == [ks[0]] + ks[1..];
    }
  }

  /** Appended depends on the target only through which keys it owns. */
  lemma {:induction false} AppendedFrame(ks: seq<string>, t: Props, t': Props, s: Props)
    requires forall k :: k in ks ==> (k in t.slots <==> k in t'.slots)
    ensures Appended(ks, t, s) == Appended(ks, t', s)
    decreases |ks|
  {
    if |ks| > 0 {
      AppendedFrame(ks[1..], t, t', s);
    }
  }

  /** The key list of the reference definition. */
  lemma OverlayOnKeys(t: Props, s: Props, ks: seq<string>)
    ensures OverlayOn(t, s, ks).keys == t.keys + Appended(ks, t, s)
  {
  }

  /** What one iteration does to the target's keys. */
  lemma StepKeys(t: Props, s: Props, k: string)
    ensures Step(t, s, k).keys == t.keys + (if Copied(s, k) && k !in t.slots then [k] else [])
    ensures forall j :: j != k ==> (j in Step(t, s, k).slots <==> j in t.slots)
  {
    if Copied(s, k) {
      SetOwnFrame(t, k, s.slots[k].value);
    }
  }

  lemma OverlayStepKeys(t: Props, s: Props, ks: seq<string>)
    requires |ks| > 0 && ks[0] !in ks[1..]
    ensures OverlayOn(Step(t, s, ks[0]), s, ks[1..]).keys == OverlayOn(t, s, ks).keys
  {
    var k := ks[0];
    var t1 := Step(t, s, k);
    var add := if Copied(s, k) && k !in t.slots then [k] else [];
    StepKeys(t, s, k);
    AppendedFrame(ks[1..], t1, t, s);
    assert Appended(ks, t, s) == add + Appended(ks[1..], t, s);
    OverlayOnKeys(t1, s, ks[1..]);
    OverlayOnKeys(t, s, ks);
    ConcatAssoc(t.keys, add, Appended(ks[1..], t, s));
  }

  /** Sequence concatenation is associative. */
  lemma ConcatAssoc(a: seq<string>, b: seq<string>, c: seq<string>)
    ensures a + b + c == a + (b + c)
  {
  }

  lemma OverlayStepDomain(t: Props, s: Props, ks: seq<string>)
    requires |ks| > 0
    ensures OverlayOn(Step(t, s, ks[0]), s, ks[1..]).slots.Keys == OverlayOn(t, s, ks).slots.Keys
  {
    var k := ks[0];
    if Copied(s, k) {
      SetOwnFrame(t, k, s.slots[k].value);
    }
  }

  lemma OverlayStepSlots(t: Props, s: Props, ks: seq<string>)
    requires Valid(t) && |ks| > 0 && ks[0] !in ks[1..]
    ensures OverlayOn(Step(t, s, ks[0]), s, ks[1..]).slots == OverlayOn(t, s, ks).slots
  {
    var k := ks[0];
    var t1 := Step(t, s, k);
    if Copied(s, k) {
      SetOwnFrame(t, k, s.slots[k].value);
    }
    var lhs := OverlayOn(t1, s, ks[1..]).slots;
    var rhs := OverlayOn(t, s, ks).slots;
    OverlayStepDomain(t, s, ks);
    forall j | j in lhs
      ensures lhs[j] == rhs[j]
    {
      if j == k {
        assert j !in ks[1..];
      }
    }
  }

  /** The loop computes the reference definition. */
  lemma {:induction false} AssignKeysIsOverlay(t: Props, s: Props, ks: seq<string>)
    requires Valid(t) && Distinct(ks)
    ensures AssignKeys(t, s, ks) == OverlayOn(t, s, ks)
    decreases |ks|
  {
    if |ks| == 0 {
      assert OverlayOn(t, s, ks).slots == t.slots;
    } else {
      assert Distinct(ks[1..]);
      assert ks[0] !in ks[1..];
      AssignKeysIsOverlay(Step(t, s, ks[0]), s, ks[1..]);
      OverlayStepKeys(t, s, ks);
      OverlayStepSlots(t, s, ks);
    }
  }

  /** One source's own enumerable properties copied onto the target. */
  function AssignFrom(t: Props, s: Props): (r: Props)
    requires Valid(t) && Valid(s)
    ensures r == Overlay(t, s)
    ensures Valid(r)
    ensures forall k :: Copied(s, k) ==> k in r.slots && r.slots[k].value == s.slots[k].value
    ensures forall k :: k in t.slots && !Copied(s, k) ==> k in r.slots && r.slots[k] == t.slots[k]
    ensures forall k :: k in r.slots <==> k in t.slots || Copied(s, k)
    ensures r.keys == t.keys + Appended(s.keys, t, s)
    ensures forall k :: k in Appended(s.keys, t, s) <==> Copied(s, k) && k !in t.slots
    ensures IsSubsequence(Appended(s.keys, t, s), s.keys)
  {
    AssignKeysIsOverlay(t, s, s.keys);
    AppendedMembers(s.keys, t, s);
    var r := AssignKeys(t, s, s.keys);
    AssignKeysValid(t, s, s.keys);
    r
  }

  lemma {:induction false} AssignKeysValid(t: Props, s: Props, ks: seq<string>)
    requires Valid(t)
    ensures Valid(AssignKeys(t, s, ks))
    decreases |ks|
  {
    if |ks| > 0 {
      AssignKeysValid(Step(t, s, ks[0]), s, ks[1..]);
    }
  }

  /** Copying an object onto itself changes nothing. Hence reading a source that is
      the target itself from a snapshot taken before its copy starts gives the same
      result as the live reads Object.assign performs. */
  lemma SelfAssign(t: Props)
    requires Valid(t)
    ensures AssignFrom(t, t) == t
  {
    var r := AssignFrom(t, t);
    AppendedNone(t.keys, t, t);
    assert t.keys + [] == t.keys;
    assert r.keys == t.keys;
    assert r.slots == t.slots;
  }

  /** Copying onto an empty object whose source properties are all enumerable gives
      back the source table. */
  lemma AssignOntoEmpty(s: Props)
    requires Valid(s)
    requires forall k :: k in s.slots ==> s.slots[k].enumerable
    ensures AssignFrom(NoProps, s) == s
  {
    OverlayOntoEmptyKeys(s);
    OverlayOntoEmptySlots(s);
  }

  /** Onto an empty target every enumerable key is appended, in the source's order. */
  lemma OverlayOntoEmptyKeys(s: Props)
    requires forall k :: k in s.slots ==> s.slots[k].enumerable
    requires forall k :: k in s.keys ==> k in s.slots
    ensures OverlayOn(NoProps, s, s.keys).keys == s.keys
  {
    AppendedAll(s.keys, NoProps, s);
  }

  /** Onto an empty target every slot of the source is copied unchanged. */
  lemma OverlayOntoEmptySlots(s: Props)
    requires Valid(s)
    requires forall k :: k in s.slots ==> s.slots[k].enumerable
    ensures OverlayOn(NoProps, s, s.keys).slots == s.slots
  {
    var r := OverlayOn(NoProps, s, s.keys).slots;
    forall k | k in s.slots
      ensures k in r && r[k] == s.slots[k]
    {
      assert Copied(s, k);
    }
  }

  lemma {:induction false} AppendedNone(ks: seq<string>, t: Props, s: Props)
    requires forall k :: k in ks ==> k in t.slots
    ensures Appended(ks, t, s) == []
    decreases |ks|
  {
    if |ks| > 0 {
      AppendedNone(ks[1..], t, s);
    }
  }

  lemma {:induction false} AppendedAll(ks: seq<string>, t: Props, s: Props)
    requires forall k :: k in ks ==> Copied(s, k) && k !in t.slots
    ensures Appended(ks, t, s) == ks
    decreases |ks|
  {
    if |ks| > 0 {
      AppendedAll(ks[1..], t, s);
      assert ks == [ks[0]] + ks[1..];
    }
  }

  // ---------------------------------------------------------------------------
  // Several sources.

  /** Object.assign with sources given as their property tables, left to right. */
  function AssignAll(t: Props, ss: seq<Props>): (r: Props)
    requires Valid(t) && forall i :: 0 <= i < |ss| ==> Valid(ss[i])
    ensures Valid(r)
    decreases |ss|
  {
    if |ss| == 0 then t else AssignAll(AssignFrom(t, ss[0]), ss[1..])
  }

  /** A key no source copies keeps the target's property. */
  lemma {:induction false} AssignAllKeeps(t: Props, ss: seq<Props>, k: string)
    requires Valid(t) && forall i :: 0 <= i < |ss| ==> Valid(ss[i])
    requires forall i :: 0 <= i < |ss| ==> !Copied(ss[i], k)
    ensures k in AssignAll(t, ss).slots <==> k in t.slots
    ensures k in t.slots ==> AssignAll(t, ss).slots[k] == t.slots[k]
    decreases |ss|
  {
    if |ss| > 0 {
      assert !Copied(ss[0], k);
      assert forall i :: 0 <= i < |ss[1..]| ==> ss[1..][i] == ss[i + 1];
      AssignAllKeeps(AssignFrom(t, ss[0]), ss[1..], k);
    }
  }

  /** Last write wins: a key takes its value from the last source that copies it. */
  lemma {:induction false} AssignAllLastWins(t: Props, ss: seq<Props>, k: string, j: nat)
    requires Valid(t) && forall i :: 0 <= i < |ss| ==> Valid(ss[i])
    requires j < |ss| && Copied(ss[j], k)
    requires forall i :: j < i < |ss| ==> !Copied(ss[i], k)
    ensures k in AssignAll(t, ss).slots
    ensures AssignAll(t, ss).slots[k].value == ss[j].slots[k].value
    decreases |ss|
  {
    if j == 0 {
      AssignAllFirstWins(t, ss, k);
    } else {
      var rest := ss[1..];
      assert forall i :: 0 <= i < |rest| ==> rest[i] == ss[i + 1];
      AssignAllLastWins(AssignFrom(t, ss[0]), rest, k, j - 1);
    }
  }

  /** The base case of last-write-wins: the first source copies the key and no
      later source does. */
  lemma AssignAllFirstWins(t: Props, ss: seq<Props>, k: string)
    requires Valid(t) && forall i :: 0 <= i < |ss| ==> Valid(ss[i])
    requires |ss| > 0 && Copied(ss[0], k)
    requires forall i :: 0 < i < |ss| ==> !Copied(ss[i], k)
    ensures k in AssignAll(t, ss).slots
    ensures AssignAll(t, ss).slots[k].value == ss[0].slots[k].value
  {
    var t1 := AssignFrom(t, ss[0]);
    var rest := ss[1..];
    assert forall i :: 0 <= i < |rest| ==> rest[i] == ss[i + 1];
    AssignAllKeeps(t1, rest, k);
  }

  // ---------------------------------------------------------------------------
  // Object.assign on the heap.

  /** The own properties a source value contributes. undefined and null are skipped;
      booleans and numbers become wrapper objects without own properties; the own
      properties of a function object (length, name, prototype) are not enumerable. */
  function SourceProps(h: Heap, v: Value): Props
    requires v.Ref? ==> v.addr in h.objs
  {
    if v.Ref? then h.objs[v.addr].own else NoProps
  }

  /** A source read from a well-formed heap has a well-formed table. */
  lemma SourceValid(h: Heap, v: Value)
    requires WfHeap(h) && (v.Ref? ==> v.addr in h.objs)
    ensures Valid(SourceProps(h, v))
  {
    if v.Ref? {
      AllocatedAt(h, v.addr);
    }
  }

  ghost predicate SourcesOk(h: Heap, srcs: seq<Value>)
  {
    forall i :: 0 <= i < |srcs| ==> (srcs[i].Ref? ==> srcs[i].addr in h.objs) && !srcs[i].Str?
  }

  /** The copy loop of Object.assign on a target object at address `t`. Each source
      is read from the heap as it stands when its turn comes, so a source that is the
      target sees the writes of the sources before it. */
  function MixinInto(h: Heap, t: nat, srcs: seq<Value>): (r: Heap)
    requires WfHeap(h) && t in h.objs && SourcesOk(h, srcs)
    ensures WfHeap(r)
    ensures r.objs.Keys == h.objs.Keys
    ensures forall a :: a in h.objs && a != t ==> r.objs[a] == h.objs[a]
    ensures r.objs[t].chain == h.objs[t].chain
    decreases |srcs|
  {
    if |srcs| == 0 then h
    else
      var o := h.objs[t];
      AllocatedAt(h, t);
      SourceValid(h, srcs[0]);
      WfHeapWrite(h, t, Obj(AssignFrom(o.own, SourceProps(h, srcs[0])), o.chain));
      var h1 := Heap(h.objs[t := Obj(AssignFrom(o.own, SourceProps(h, srcs[0])), o.chain)], h.next);
      MixinInto(h1, t, srcs[1..])
  }

  /** `Mixin(target, ...sources)`: throws a TypeError when the target is undefined or
      null (ToObject, ECMA-262 section 7.1.18); otherwise copies every source and
      returns the target itself. */
  function Mixin(h: Heap, target: Value, srcs: seq<Value>): (r: Completion<(Heap, Value)>)
    requires WfHeap(h) && SourcesOk(h, srcs)
    requires target.Ref? || target.Undefined? || target.Null?
    requires target.Ref? ==> target.addr in h.objs
    ensures r.Throw? <==> target.Undefined? || target.Null?
    ensures r.Throw? ==> r.error == TypeError
    ensures r.Normal? ==> r.value.1 == target
    ensures r.Normal? ==> WfHeap(r.value.0) && r.value.0.objs.Keys == h.objs.Keys
    ensures r.Normal? ==> forall a :: a in h.objs && a != target.addr ==> r.value.0.objs[a] == h.objs[a]
  {
    if target.Ref? then Normal((MixinInto(h, target.addr, srcs), target)) else Throw(TypeError)
  }

  /** The property tables of the sources, when none of them is the target. */
  function SourceTables(h: Heap, srcs: seq<Value>): (r: seq<Props>)
    requires WfHeap(h) && SourcesOk(h, srcs)
    ensures |r| == |srcs|
    ensures forall i :: 0 <= i < |r| ==> Valid(r[i]) && r[i] == SourceProps(h, srcs[i])
    decreases |srcs|
  {
    if |srcs| == 0 then [] else SourceValid(h, srcs[0]); [SourceProps(h, srcs[0])] + SourceTables(h, srcs[1..])
  }

  /** When no source is the target, the heap copy is the property-table copy over the
      sources as they stood before the call. */
  lemma {:induction false} MixinIntoIsAssignAll(h: Heap, t: nat, srcs: seq<Value>)
    requires WfHeap(h) && t in h.objs && SourcesOk(h, srcs)
    requires forall i :: 0 <= i < |srcs| ==> srcs[i] != Ref(t)
    ensures Valid(h.objs[t].own)
    ensures MixinInto(h, t, srcs).objs[t].own == AssignAll(h.objs[t].own, SourceTables(h, srcs))
    decreases |srcs|
  {
    AllocatedAt(h, t);
    if |srcs| > 0 {
      var o := h.objs[t];
      SourceValid(h, srcs[0]);
      WfHeapWrite(h, t, Obj(AssignFrom(o.own, SourceProps(h, srcs[0])), o.chain));
      var h1 := Heap(h.objs[t := Obj(AssignFrom(o.own, SourceProps(h, srcs[0])), o.chain)], h.next);
      assert SourcesOk(h1, srcs[1..]);
      assert forall i :: 0 <= i < |srcs[1..]| ==> SourceProps(h1, srcs[1..][i]) == SourceProps(h, srcs[i + 1]);
      assert SourceTables(h1, srcs[1..]) == SourceTables(h, srcs)[1..];
      MixinIntoIsAssignAll(h1, t, srcs[1..]);
    }
  }

  /** Object.assign's guarantees, stated on the heap: the target is returned, every
      object other than the target (every source among them) is unchanged, a key
      copied by several sources takes the value of the last one, and a key no source
      copies keeps the target's property. */
  lemma MixinLastWriteWins(h: Heap, t: nat, srcs: seq<Value>, k: string, j: nat)
    requires WfHeap(h) && t in h.objs && SourcesOk(h, srcs)
    requires forall i :: 0 <= i < |srcs| ==> srcs[i] != Ref(t)
    requires j < |srcs| && Copied(SourceProps(h, srcs[j]), k)
    requires forall i :: j < i < |srcs| ==> !Copied(SourceProps(h, srcs[i]), k)
    ensures Mixin(h, Ref(t), srcs).Normal?
    ensures var r := Mixin(h, Ref(t), srcs).value.0.objs[t].own;
      k in r.slots && r.slots[k].value == SourceProps(h, srcs[j]).slots[k].value
  {
    MixinIntoIsAssignAll(h, t, srcs);
    AssignAllLastWins(h.objs[t].own, SourceTables(h, srcs), k, j);
  }

  lemma MixinKeepsUncopied(h: Heap, t: nat, srcs: seq<Value>, k: string)
    requires WfHeap(h) && t in h.objs && SourcesOk(h, srcs)
    requires forall i :: 0 <= i < |srcs| ==> srcs[i] != Ref(t)
    requires forall i :: 0 <= i < |srcs| ==> !Copied(SourceProps(h, srcs[i]), k)
    ensures var r := MixinInto(h, t, srcs).objs[t].own;
      (k in r.slots <==> k in h.objs[t].own.slots) &&
      (k in r.slots ==> r.slots[k] == h.objs[t].own.slots[k])
  {
    MixinIntoIsAssignAll(h, t, srcs);
    AssignAllKeeps(h.objs[t].own, SourceTables(h, srcs), k);
  }

  /** `Mixin(t, t)` leaves the heap as it was. */
  lemma MixinSelf(h: Heap, t: nat)
    requires WfHeap(h) && t in h.objs
    ensures Mixin(h, Ref(t), [Ref(t)]) == Normal((h, Ref(t)))
  {
    var o := h.objs[t];
    AllocatedAt(h, t);
    SelfAssign(o.own);
    assert SourceProps(h, Ref(t)) == o.own;
    var h1 := Heap(h.objs[t := Obj(AssignFrom(o.own, o.own), o.chain)], h.next);
    assert h1 == h;
    assert [Ref(t)][1..] == [];
    assert MixinInto(h, t, [Ref(t)]) == MixinInto(h1, t, []);
  }

  /** Object.assign with one source that is not the target: the copy loop runs over
      the source's keys onto the target's table, and nothing else changes. */
  lemma MixinOne(h: Heap, t: nat, src: nat)
    requires WfHeap(h) && t in h.objs && src in h.objs && src != t
    ensures SourcesOk(h, [Ref(src)])
    ensures Mixin(h, Ref(t), [Ref(src)]) ==
      Normal((Heap(h.objs[t := Obj(AssignKeys(h.objs[t].own, h.objs[src].own, h.objs[src].own.keys),
                                   h.objs[t].chain)], h.next),
              Ref(t)))
  {
    var o := h.objs[t];
    AllocatedAt(h, t);
    AllocatedAt(h, src);
    WfHeapWrite(h, t, Obj(AssignFrom(o.own, h.objs[src].own), o.chain));
    var h1 := Heap(h.objs[t := Obj(AssignFrom(o.own, h.objs[src].own), o.chain)], h.next);
    assert [Ref(src)][1..] == [];
    assert MixinInto(h, t, [Ref(src)]) == MixinInto(h1, t, []);
  }

  /** Object.assign of one source onto a target that owns nothing: when every
      property of the source is enumerable, the target ends up with the source's table. */
  lemma MixinOntoEmpty(h: Heap, t: nat, src: nat)
    requires WfHeap(h) && t in h.objs && src in h.objs && src != t
    requires h.objs[t].own == NoProps && AllEnumerable(h.objs[src].own)
    ensures SourcesOk(h, [Ref(src)])
    ensures Mixin(h, Ref(t), [Ref(src)]) ==
      Normal((Heap(h.objs[t := Obj(h.objs[src].own, h.objs[t].chain)], h.next), Ref(t)))
  {
    MixinOne(h, t, src);
    AllocatedAt(h, src);
    AssignOntoEmpty(h.objs[src].own);
  }
}
