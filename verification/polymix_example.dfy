/** The configurable multiple-inheritance scenario of examples/polymix_example.js:
    Ancestor, Beeper and LaserShark make themselves mixable; KillerApp extends
    Ancestor and mixes a configured Beeper and a configured LaserShark into the
    namespace objects `this.Beeper` and `this.LaserShark`. Constructors are methods
    from a heap to a heap, as in module MixinScratchpad; console output and method
    bodies are not part of the model. */
module PolymixExample {
  import opened JsValues
  import opened JsObjects
  import opened Assign
  import opened Mixable
  import opened Composition

  const AncestorPrototype: Props := Props(
    ["constructor", "speak"],
    map["constructor" := Method("Ancestor"), "speak" := Method("speak")])

  const BeeperPrototype: Props := Props(
    ["constructor", "beep"],
    map["constructor" := Method("Beeper"), "beep" := Method("beep")])

  const LaserSharkPrototype: Props := Props(
    ["constructor", "bite"],
    map["constructor" := Method("LaserShark"), "bite" := Method("bite")])

  const KillerAppPrototype: Props := Props(
    ["constructor", "showCapabilities"],
    map["constructor" := Method("KillerApp"), "showCapabilities" := Method("showCapabilities")])

  lemma PrototypesValid()
    ensures Valid(AncestorPrototype) && Valid(BeeperPrototype)
    ensures Valid(LaserSharkPrototype) && Valid(KillerAppPrototype)
  {
  }

  const BeeperChain: seq<Props> := [BeeperPrototype, ObjectPrototype]
  const LaserSharkChain: seq<Props> := [LaserSharkPrototype, ObjectPrototype]
  const KillerAppChain: seq<Props> := [KillerAppPrototype, AncestorPrototype, ObjectPrototype]

  // ---------------------------------------------------------------------------
  // Reading the configuration argument.

  /** The keys the constructors read from their `initVars` argument. */
  predicate ConfigKey(k: string)
  {
    k == "foo" || k == "beeperConfPropertyFoo" || k == "laserWavelength"
  }

  /** What `initVars.hasOwnProperty` resolves to on the object at `a`: normally
      Object.prototype's method, found at the end of the chain. */
  function HasOwnPropertyOf(h: Heap, a: nat): Value
    requires a in h.objs
  {
    Get(h.objs[a], "hasOwnProperty")
  }

  /** The argument does not replace `hasOwnProperty` with a function of its own: on
      an object, the name resolves to Object.prototype's method or to something that
      is not a function. */
  predicate KeepsHasOwnProperty(h: Heap, v: Value)
    requires v.Ref? ==> v.addr in h.objs
  {
    v.Ref? && HasOwnPropertyOf(h, v.addr).Fun? ==> HasOwnPropertyOf(h, v.addr) == Fun("hasOwnProperty")
  }

  /** `initVars.hasOwnProperty(...)` can be called: the argument is neither undefined
      nor null, and on an object the name resolves to a function. */
  predicate CanAskHasOwn(h: Heap, v: Value)
    requires v.Ref? ==> v.addr in h.objs
  {
    !v.Undefined? && !v.Null? && (v.Ref? ==> HasOwnPropertyOf(h, v.addr).Fun?)
  }

  /** `initVars.hasOwnProperty(k) ? initVars[k] : false`. Looking a method up on
      undefined or null throws a TypeError, and so does calling it on an object
      whose chain does not provide a function under that name (one created by
      `Object.create(null)`, say). A boolean, number or string is wrapped in an
      object that owns none of the configuration keys. A function is an object, but
      its own properties are not modelled, so it reads as owning none of them. */
  function OwnOrFalse(h: Heap, initVars: Value, k: string): (r: Completion<Value>)
    requires ConfigKey(k) && (initVars.Ref? ==> initVars.addr in h.objs)
    requires KeepsHasOwnProperty(h, initVars)
    ensures r.Throw? <==> !CanAskHasOwn(h, initVars)
    ensures r.Throw? ==> r.error == TypeError
    ensures r.Normal? && r.value != Bool(false) ==> initVars.Ref? && k in h.objs[initVars.addr].own.slots
    ensures initVars.Ref? && r.Normal? && k in h.objs[initVars.addr].own.slots ==>
      r.value == h.objs[initVars.addr].own.slots[k].value
  {
    match initVars
    case Undefined => Throw(TypeError)
    case Null => Throw(TypeError)
    case Ref(a) =>
      if !HasOwnPropertyOf(h, a).Fun? then Throw(TypeError)
      else if k in h.objs[a].own.slots then Normal(Get(h.objs[a], k))
      else Normal(Bool(false))
    case _ => Normal(Bool(false))
  }

  /** LaserShark's rule: the configured wavelength when the argument owns one that is
      a number, false otherwise. */
  function LaserWavelength(h: Heap, initVars: Value): (r: Completion<Value>)
    requires initVars.Ref? ==> initVars.addr in h.objs
    requires KeepsHasOwnProperty(h, initVars)
    ensures r.Throw? <==> !CanAskHasOwn(h, initVars)
    ensures r.Throw? ==> r.error == TypeError
    ensures r.Normal? ==> r.value.Num? || r.value == Bool(false)
    ensures r.Normal? && r.value.Num? <==>
      && CanAskHasOwn(h, initVars)
      && initVars.Ref? && "laserWavelength" in h.objs[initVars.addr].own.slots
      && h.objs[initVars.addr].own.slots["laserWavelength"].value.Num?
    ensures r.Normal? && r.value.Num? ==> r.value == h.objs[initVars.addr].own.slots["laserWavelength"].value
  {
    if !CanAskHasOwn(h, initVars) then Throw(TypeError)
    else if && initVars.Ref? && "laserWavelength" in h.objs[initVars.addr].own.slots
            && TypeOf(Get(h.objs[initVars.addr], "laserWavelength")) == "number"
    then Normal(Get(h.objs[initVars.addr], "laserWavelength"))
    else Normal(Bool(false))
  }

  /** The arguments Ancestor's first statement accepts: an object whose
      `hasOwnProperty` is a function, or a function. */
  predicate AcceptsWriteBack(h: Heap, v: Value)
    requires v.Ref? ==> v.addr in h.objs
  {
    (v.Ref? && HasOwnPropertyOf(h, v.addr).Fun?) || v.Fun?
  }

  /** `initVars["foo"] = initVars.hasOwnProperty("foo") ? initVars.foo : false`, the
      inner assignment of Ancestor's first statement: the value read is written back
      into the argument, and is also the value of the expression. Class code is strict
      mode code, so the write throws a TypeError on a boolean, number or string; on a
      function it succeeds, but the properties of function objects are not modelled. */
  function ConfigWriteBack(h: Heap, initVars: Value): (r: Completion<(Heap, Value)>)
    requires WfHeap(h) && (initVars.Ref? ==> initVars.addr in h.objs)
    requires KeepsHasOwnProperty(h, initVars)
    ensures r.Normal? <==> AcceptsWriteBack(h, initVars)
    ensures r.Throw? ==> r.error == TypeError
    ensures r.Normal? ==> OwnOrFalse(h, initVars, "foo") == Normal(r.value.1)
    ensures r.Normal? ==> WfHeap(r.value.0) && r.value.0.next == h.next
    ensures initVars.Fun? ==> r.value.0 == h
    ensures r.Normal? && initVars.Ref? ==>
      r.value.0.objs ==
        h.objs[initVars.addr := Obj(SetOwn(h.objs[initVars.addr].own, "foo", r.value.1), h.objs[initVars.addr].chain)]
  {
    match OwnOrFalse(h, initVars, "foo")
    case Throw(e) => Throw(e)
    case Normal(v) =>
      if initVars.Ref? then Normal((Put(h, initVars.addr, "foo", v), v))
      else if initVars.Fun? then Normal((h, v))
      else Throw(TypeError)
  }

  /** On an object argument the write-back succeeds exactly when `hasOwnProperty`
      resolves to a function. It then leaves the heap as it was exactly when the
      argument already owns `foo`; otherwise `foo` is appended to it as false. */
  lemma WriteBackKeepsConfig(h: Heap, a: nat)
    requires WfHeap(h) && a in h.objs && KeepsHasOwnProperty(h, Ref(a))
    ensures ConfigWriteBack(h, Ref(a)).Normal? <==> HasOwnPropertyOf(h, a).Fun?
    ensures ConfigWriteBack(h, Ref(a)).Normal? ==>
      (ConfigWriteBack(h, Ref(a)).value.0 == h <==> "foo" in h.objs[a].own.slots)
    ensures ConfigWriteBack(h, Ref(a)).Normal? && "foo" !in h.objs[a].own.slots ==>
      ConfigWriteBack(h, Ref(a)).value.0.objs[a].own == AddOwn(h.objs[a].own, "foo", Bool(false))
  {
    var o := h.objs[a];
    var r := ConfigWriteBack(h, Ref(a));
    if r.Throw? {
    } else if "foo" in o.own.slots {
      assert o.own.slots["foo"] == Prop(o.own.slots["foo"].value, o.own.slots["foo"].enumerable);
      assert SetOwn(o.own, "foo", r.value.1) == o.own;
      assert h.objs[a := o] == h.objs;
    } else {
      SetOwnFresh(o.own, "foo", Bool(false));
      assert r.value.0.objs[a].own.keys != o.own.keys;
    }
  }

  // ---------------------------------------------------------------------------
  // Ancestor.

  const AncestorDetails: string := "I'm some configuration details..."
  const AncestorLast: string := "Ok, all done with constructor stuff"

  /** What the Ancestor constructor leaves on an instance: the configured `foo`, the
      two fixed strings, and `speak` holding what the name resolves to on the
      instance's chain; all enumerable, in that order. The private field
      #privatePropertyBar is never an own property. */
  function AncestorTable(foo: Value, speak: Value): Props
  {
    Props(["foo", "otherProperty", "lastPropertyToSetup", "speak"],
          map["foo" := Prop(foo, true),
              "otherProperty" := Prop(Str(AncestorDetails), true),
              "lastPropertyToSetup" := Prop(Str(AncestorLast), true),
              "speak" := Prop(speak, true)])
  }

  function AncestorWrites(foo: Value): Props
  {
    SetOwn(SetOwn(SetOwn(NoProps,
      "foo", foo),
      "otherProperty", Str(AncestorDetails)),
      "lastPropertyToSetup", Str(AncestorLast))
  }

  function AncestorFields(foo: Value): Props
  {
    AddOwn(AddOwn(AddOwn(NoProps,
      "foo", foo),
      "otherProperty", Str(AncestorDetails)),
      "lastPropertyToSetup", Str(AncestorLast))
  }

  /** Each write of the Ancestor constructor creates a new property at the end. */
  lemma AncestorWritesAppend(foo: Value)
    ensures AncestorWrites(foo) == AncestorFields(foo)
  {
    var p1 := AddOwn(NoProps, "foo", foo);
    SetOwnFresh(NoProps, "foo", foo);
    var p2 := AddOwn(p1, "otherProperty", Str(AncestorDetails));
    SetOwnFresh(p1, "otherProperty", Str(AncestorDetails));
    SetOwnFresh(p2, "lastPropertyToSetup", Str(AncestorLast));
  }

  /** makeMixable(this, Ancestor) after the writes adds `speak`. */
  lemma AncestorHoist(chain: seq<Props>, foo: Value)
    ensures HoistAll(Obj(AncestorFields(foo), chain), AncestorPrototype.keys)
         == Obj(AncestorTable(foo, ChainGet(chain, "speak")), chain)
  {
    var o := Obj(AncestorFields(foo), chain);
    HoistAllTwo(o, "constructor", "speak");
    assert HoistOne(o, "constructor") == o;
    SetOwnFresh(o.own, "speak", ChainGet(chain, "speak"));
  }

  /** The Ancestor constructor body on the instance at `self`, which owns nothing yet,
      once the configured `foo` has been read and written back. */
  method AncestorInit(h: Heap, self: nat, foo: Value) returns (r: Heap)
    requires WfHeap(h) && self in h.objs && h.objs[self].own == NoProps
    ensures WfHeap(r) && r.next == h.next
    ensures r.objs == h.objs[self := Obj(AncestorTable(foo, ChainGet(h.objs[self].chain, "speak")), h.objs[self].chain)]
  {
    var chain := h.objs[self].chain;
    var h1 := Put(h, self, "foo", foo);
    var h2 := Put(h1, self, "otherProperty", Str(AncestorDetails));
    var h3 := Put(h2, self, "lastPropertyToSetup", Str(AncestorLast));
    PrototypesValid();
    r := MakeMixable(h3, self, AncestorPrototype);
    AncestorWritesAppend(foo);
    AncestorHoist(chain, foo);
    OverwriteObj(h.objs, self, h1.objs[self], h2.objs[self]);
    OverwriteObj(h.objs, self, h2.objs[self], h3.objs[self]);
    OverwriteObj(h.objs, self, h3.objs[self], r.objs[self]);
  }

  // ---------------------------------------------------------------------------
  // Beeper.

  /** The private fields #inaccessiblevariable and #hiddenPrefixVar. */
  const InaccessibleVariable: int := 3
  const HiddenPrefix: string := "secretPrefix"

  /** `${this.#hiddenPrefixVar}_${this.beeperConfPropertyFoo}`. */
  function PrefixedConf(conf: Value): string
  {
    HiddenPrefix + "_" + Display(conf)
  }

  /** What a Beeper configured with `conf` owns once its constructor has returned:
      the configuration, two fixed strings, the two results computed from the private
      fields, then the hoisted `beep`; all enumerable, in that order. The private
      fields themselves are never own properties. */
  function BeeperTable(conf: Value): Props
  {
    Props(["beeperConfPropertyFoo", "bar", "bat", "resultOfMathWithInaccessibleVariable",
           "resultOfStringManipulationWithInaccessiblStringVar", "beep"],
          map["beeperConfPropertyFoo" := Prop(conf, true),
              "bar" := Prop(Str("A bar obviously..."), true),
              "bat" := Prop(Str("A beeper bat"), true),
              "resultOfMathWithInaccessibleVariable" := Prop(Num(5 * InaccessibleVariable), true),
              "resultOfStringManipulationWithInaccessiblStringVar" := Prop(Str(PrefixedConf(conf)), true),
              "beep" := Prop(Fun("beep"), true)])
  }

  function BeeperWrites(conf: Value): Props
  {
    SetOwn(SetOwn(SetOwn(SetOwn(SetOwn(NoProps,
      "beeperConfPropertyFoo", conf),
      "bar", Str("A bar obviously...")),
      "bat", Str("A beeper bat")),
      "resultOfMathWithInaccessibleVariable", Num(5 * InaccessibleVariable)),
      "resultOfStringManipulationWithInaccessiblStringVar", Str(PrefixedConf(conf)))
  }

  function BeeperFields(conf: Value): Props
  {
    AddOwn(AddOwn(AddOwn(AddOwn(AddOwn(NoProps,
      "beeperConfPropertyFoo", conf),
      "bar", Str("A bar obviously...")),
      "bat", Str("A beeper bat")),
      "resultOfMathWithInaccessibleVariable", Num(5 * InaccessibleVariable)),
      "resultOfStringManipulationWithInaccessiblStringVar", Str(PrefixedConf(conf)))
  }

  lemma BeeperWritesAppend(conf: Value)
    ensures BeeperWrites(conf) == BeeperFields(conf)
  {
    BeeperWritesAppendAt(conf, Num(5 * InaccessibleVariable), Str(PrefixedConf(conf)));
  }

  /** The Beeper constructor's five writes, for any values they store. */
  lemma BeeperWritesAppendAt(conf: Value, math: Value, str: Value)
    ensures SetOwn(SetOwn(SetOwn(SetOwn(SetOwn(NoProps,
      "beeperConfPropertyFoo", conf),
      "bar", Str("A bar obviously...")),
      "bat", Str("A beeper bat")),
      "resultOfMathWithInaccessibleVariable", math),
      "resultOfStringManipulationWithInaccessiblStringVar", str) ==
      AddOwn(AddOwn(AddOwn(AddOwn(AddOwn(NoProps,
      "beeperConfPropertyFoo", conf),
      "bar", Str("A bar obviously...")),
      "bat", Str("A beeper bat")),
      "resultOfMathWithInaccessibleVariable", math),
      "resultOfStringManipulationWithInaccessiblStringVar", str)
  {
    var k1, k2, k3 := "beeperConfPropertyFoo", "bar", "bat";
    var k4, k5 := "resultOfMathWithInaccessibleVariable", "resultOfStringManipulationWithInaccessiblStringVar";
    BeeperKeysDistinct(k1, k2, k3, k4, k5);
    SetOwnFreshThrice(NoProps, k1, conf, k2, Str("A bar obviously..."), k3, Str("A beeper bat"));
    var p3 := AddOwn(AddOwn(AddOwn(NoProps, k1, conf), k2, Str("A bar obviously...")), k3, Str("A beeper bat"));
    assert k4 !in p3.slots && k5 !in p3.slots;
    SetOwnFreshTwice(p3, k4, math, k5, str);
  }

  /** The Beeper constructor writes five distinct keys. */
  lemma BeeperKeysDistinct(k1: string, k2: string, k3: string, k4: string, k5: string)
    requires k1 == "beeperConfPropertyFoo" && k2 == "bar" && k3 == "bat"
    requires k4 == "resultOfMathWithInaccessibleVariable"
    requires k5 == "resultOfStringManipulationWithInaccessiblStringVar"
    ensures k1 != k2 && k1 != k3 && k2 != k3
    ensures k4 != k1 && k4 != k2 && k4 != k3 && k5 != k1 && k5 != k2 && k5 != k3 && k4 != k5
  {
  }

  /** makeMixable(this, Beeper) after the writes adds `beep`, which resolves on
      Beeper.prototype. */
  lemma BeeperHoist(conf: Value)
    ensures HoistAll(Obj(BeeperFields(conf), BeeperChain), BeeperPrototype.keys)
         == Obj(BeeperTable(conf), BeeperChain)
  {
    var o := Obj(BeeperFields(conf), BeeperChain);
    HoistSingleMethod(o, "beep");
    assert Get(o, "beep") == Fun("beep");
    BeeperTableKeys(conf);
    BeeperTableSlots(conf);
  }

  lemma BeeperTableKeys(conf: Value)
    ensures AddOwn(BeeperFields(conf), "beep", Fun("beep")).keys == BeeperTable(conf).keys
  {
  }

  lemma BeeperTableSlots(conf: Value)
    ensures AddOwn(BeeperFields(conf), "beep", Fun("beep")).slots == BeeperTable(conf).slots
  {
  }

  /** No own key of a Beeper is a private name (those begin with '#'), so
      Object.assign cannot copy a private field. */
  lemma BeeperKeysPublic(conf: Value)
    ensures forall i :: 0 <= i < |BeeperTable(conf).keys| ==>
      |BeeperTable(conf).keys[i]| > 0 && BeeperTable(conf).keys[i][0] != '#'
  {
    var ks := BeeperTable(conf).keys;
    assert ks[0][0] == 'b' && ks[1][0] == 'b' && ks[2][0] == 'b';
    assert ks[3][0] == 'r' && ks[4][0] == 'r' && ks[5][0] == 'b';
  }

  /** A Beeper's private fields are never own properties, but what a mixin does
      carry is what the constructor computed from them once: five times the hidden
      number, and the hidden prefix joined to the configuration. */
  lemma BeeperPrivateFieldsHidden(conf: Value)
    ensures forall i :: 0 <= i < |BeeperTable(conf).keys| ==>
      |BeeperTable(conf).keys[i]| > 0 && BeeperTable(conf).keys[i][0] != '#'
    ensures "resultOfMathWithInaccessibleVariable" in BeeperTable(conf).slots
    ensures BeeperTable(conf).slots["resultOfMathWithInaccessibleVariable"].value.Num?
    ensures BeeperTable(conf).slots["resultOfMathWithInaccessibleVariable"].value.n == 5 * InaccessibleVariable
    ensures "resultOfStringManipulationWithInaccessiblStringVar" in BeeperTable(conf).slots
    ensures var v := BeeperTable(conf).slots["resultOfStringManipulationWithInaccessiblStringVar"].value;
      && v.Str? && HiddenPrefix + "_" <= v.s && v.s[|HiddenPrefix| + 1..] == Display(conf)
  {
    BeeperKeysPublic(conf);
    JoinedParts(HiddenPrefix + "_", Display(conf));
  }

  /** The two parts of a joined string can be read back off it. */
  lemma JoinedParts(p: string, t: string)
    ensures p <= p + t && (p + t)[|p|..] == t
  {
  }

  /** The Beeper constructor on the instance at `self`, which owns nothing yet, once
      its configuration `conf` has been read. */
  method BeeperInit(h: Heap, self: nat, conf: Value) returns (r: Heap)
    requires WfHeap(h) && self in h.objs && h.objs[self] == Obj(NoProps, BeeperChain)
    ensures WfHeap(r) && r.next == h.next
    ensures r.objs == h.objs[self := Obj(BeeperTable(conf), BeeperChain)]
  {
    var h1 := Put(h, self, "beeperConfPropertyFoo", conf);
    var h2 := Put(h1, self, "bar", Str("A bar obviously..."));
    var h3 := Put(h2, self, "bat", Str("A beeper bat"));
    var h4 := Put(h3, self, "resultOfMathWithInaccessibleVariable", Num(5 * InaccessibleVariable));
    var h5 := Put(h4, self, "resultOfStringManipulationWithInaccessiblStringVar", Str(PrefixedConf(conf)));
    PrototypesValid();
    r := MakeMixable(h5, self, BeeperPrototype);
    BeeperWritesAppend(conf);
    BeeperHoist(conf);
    OverwriteObj(h.objs, self, h1.objs[self], h2.objs[self]);
    OverwriteObj(h.objs, self, h2.objs[self], h3.objs[self]);
    OverwriteObj(h.objs, self, h3.objs[self], h4.objs[self]);
    OverwriteObj(h.objs, self, h4.objs[self], h5.objs[self]);
    OverwriteObj(h.objs, self, h5.objs[self], r.objs[self]);
  }

  /** `new Beeper(initVars)` for an argument whose configuration reads as `conf`: the
      instance takes the next free address. */
  method NewBeeper(h: Heap, conf: Value) returns (r: Heap, self: nat)
    requires WfHeap(h)
    ensures WfHeap(r) && self == h.next && r.next == h.next + 1 && self !in h.objs
    ensures r.objs == h.objs[self := Obj(BeeperTable(conf), BeeperChain)]
  {
    var inst := NewInstance(h, BeeperChain);
    self := inst.1;
    r := BeeperInit(inst.0, self, conf);
    OverwriteObj(h.objs, self, Obj(NoProps, BeeperChain), Obj(BeeperTable(conf), BeeperChain));
  }

  // ---------------------------------------------------------------------------
  // LaserShark.

  const SharkLast: string :=
    "If you Mixed in LaserShark without a namespace on the host class, lastPropertyToSetup got overwritten. Otherwise this is just a namespaced string in a field."

  /** What a LaserShark with wavelength `wavelength` owns once its constructor has
      returned: the wavelength, two fixed strings, its own `lastPropertyToSetup`, then
      the hoisted `bite`; all enumerable, in that order. */
  function LaserSharkTable(wavelength: Value): Props
  {
    Props(["laserWavelength", "bar", "bat", "lastPropertyToSetup", "bite"],
          map["laserWavelength" := Prop(wavelength, true),
              "bar" := Prop(Str("A shark bar"), true),
              "bat" := Prop(Str("A shark bat"), true),
              "lastPropertyToSetup" := Prop(Str(SharkLast), true),
              "bite" := Prop(Fun("bite"), true)])
  }

  function LaserSharkWrites(wavelength: Value): Props
  {
    SetOwn(SetOwn(SetOwn(SetOwn(NoProps,
      "laserWavelength", wavelength),
      "bar", Str("A shark bar")),
      "bat", Str("A shark bat")),
      "lastPropertyToSetup", Str(SharkLast))
  }

  function LaserSharkFields(wavelength: Value): Props
  {
    AddOwn(AddOwn(AddOwn(AddOwn(NoProps,
      "laserWavelength", wavelength),
      "bar", Str("A shark bar")),
      "bat", Str("A shark bat")),
      "lastPropertyToSetup", Str(SharkLast))
  }

  lemma LaserSharkWritesAppend(wavelength: Value)
    ensures LaserSharkWrites(wavelength) == LaserSharkFields(wavelength)
  {
    var p1 := AddOwn(NoProps, "laserWavelength", wavelength);
    SetOwnFresh(NoProps, "laserWavelength", wavelength);
    var p2 := AddOwn(p1, "bar", Str("A shark bar"));
    SetOwnFresh(p1, "bar", Str("A shark bar"));
    var p3 := AddOwn(p2, "bat", Str("A shark bat"));
    SetOwnFresh(p2, "bat", Str("A shark bat"));
    SetOwnFresh(p3, "lastPropertyToSetup", Str(SharkLast));
  }

  /** makeMixable(this, LaserShark) after the writes adds `bite`. */
  lemma LaserSharkHoist(wavelength: Value)
    ensures HoistAll(Obj(LaserSharkFields(wavelength), LaserSharkChain), LaserSharkPrototype.keys)
         == Obj(LaserSharkTable(wavelength), LaserSharkChain)
  {
    var o := Obj(LaserSharkFields(wavelength), LaserSharkChain);
    HoistSingleMethod(o, "bite");
    assert Get(o, "bite") == Fun("bite");
    LaserSharkTableKeys(wavelength);
    LaserSharkTableSlots(wavelength);
  }

  lemma LaserSharkTableKeys(wavelength: Value)
    ensures AddOwn(LaserSharkFields(wavelength), "bite", Fun("bite")).keys == LaserSharkTable(wavelength).keys
  {
  }

  lemma LaserSharkTableSlots(wavelength: Value)
    ensures AddOwn(LaserSharkFields(wavelength), "bite", Fun("bite")).slots == LaserSharkTable(wavelength).slots
  {
  }

  /** The LaserShark constructor on the instance at `self`, which owns nothing yet,
      once its wavelength has been decided. */
  method LaserSharkInit(h: Heap, self: nat, wavelength: Value) returns (r: Heap)
    requires WfHeap(h) && self in h.objs && h.objs[self] == Obj(NoProps, LaserSharkChain)
    ensures WfHeap(r) && r.next == h.next
    ensures r.objs == h.objs[self := Obj(LaserSharkTable(wavelength), LaserSharkChain)]
  {
    var h1 := Put(h, self, "laserWavelength", wavelength);
    var h2 := Put(h1, self, "bar", Str("A shark bar"));
    var h3 := Put(h2, self, "bat", Str("A shark bat"));
    var h4 := Put(h3, self, "lastPropertyToSetup", Str(SharkLast));
    PrototypesValid();
    r := MakeMixable(h4, self, LaserSharkPrototype);
    LaserSharkWritesAppend(wavelength);
    LaserSharkHoist(wavelength);
    OverwriteObj(h.objs, self, h1.objs[self], h2.objs[self]);
    OverwriteObj(h.objs, self, h2.objs[self], h3.objs[self]);
    OverwriteObj(h.objs, self, h3.objs[self], h4.objs[self]);
    OverwriteObj(h.objs, self, h4.objs[self], r.objs[self]);
  }

  /** `new LaserShark(initVars)` for an argument whose wavelength reads as
      `wavelength`: the instance takes the next free address. */
  method NewLaserShark(h: Heap, wavelength: Value) returns (r: Heap, self: nat)
    requires WfHeap(h)
    ensures WfHeap(r) && self == h.next && r.next == h.next + 1 && self !in h.objs
    ensures r.objs == h.objs[self := Obj(LaserSharkTable(wavelength), LaserSharkChain)]
  {
    var inst := NewInstance(h, LaserSharkChain);
    self := inst.1;
    r := LaserSharkInit(inst.0, self, wavelength);
    OverwriteObj(h.objs, self, Obj(NoProps, LaserSharkChain), Obj(LaserSharkTable(wavelength), LaserSharkChain));
  }

  /** A Beeper's own properties are well formed and all enumerable, so
      Object.assign copies every one of them. */
  lemma BeeperTableCopied(conf: Value)
    ensures Valid(BeeperTable(conf)) && AllEnumerable(BeeperTable(conf))
  {
  }

  /** The same for a LaserShark. */
  lemma LaserSharkTableCopied(wavelength: Value)
    ensures Valid(LaserSharkTable(wavelength)) && AllEnumerable(LaserSharkTable(wavelength))
  {
  }

  // ---------------------------------------------------------------------------
  // KillerApp.

  /** On a KillerApp instance `speak` resolves on Ancestor.prototype, one step up
      the chain, and `showCapabilities` on KillerApp.prototype. */
  lemma KillerAppInherits()
    ensures ChainGet(KillerAppChain, "speak") == Fun("speak")
    ensures ChainGet(KillerAppChain, "showCapabilities") == Fun("showCapabilities")
  {
  }

  /** What a KillerApp instance owns before its mixins: the Ancestor part, whose
      `speak` makeMixable(this, Ancestor) made an own property, then its own three
      fields. */
  function KillerAppBase(foo: Value): Props
  {
    Props(["foo", "otherProperty", "lastPropertyToSetup", "speak", "fee", "fye", "foeh"],
          map["foo" := Prop(foo, true),
              "otherProperty" := Prop(Str(AncestorDetails), true),
              "lastPropertyToSetup" := Prop(Str(AncestorLast), true),
              "speak" := Prop(Fun("speak"), true),
              "fee" := Prop(Str("fee"), true),
              "fye" := Prop(Str("fye"), true),
              "foeh" := Prop(Str("foeh"), true)])
  }

  /** What a KillerApp instance at `self` owns once its constructor has returned:
      the base part and the two namespace objects, the Beeper's at self + 3 and the
      LaserShark's at self + 5. Neither donor's properties appear on the instance, and
      `lastPropertyToSetup` is still Ancestor's. */
  function KillerAppTable(foo: Value, self: nat): Props
  {
    Props(["foo", "otherProperty", "lastPropertyToSetup", "speak", "fee", "fye", "foeh",
           "Beeper", "LaserShark"],
          map["foo" := Prop(foo, true),
              "otherProperty" := Prop(Str(AncestorDetails), true),
              "lastPropertyToSetup" := Prop(Str(AncestorLast), true),
              "speak" := Prop(Fun("speak"), true),
              "fee" := Prop(Str("fee"), true),
              "fye" := Prop(Str("fye"), true),
              "foeh" := Prop(Str("foeh"), true),
              "Beeper" := Prop(Ref(self + 3), true),
              "LaserShark" := Prop(Ref(self + 5), true)])
  }

  /** The three fields KillerApp's constructor assigns after `super`, appended. */
  function KillerAppFields(foo: Value): Props
  {
    AddOwn(AddOwn(AddOwn(AncestorTable(foo, Fun("speak")), "fee", Str("fee")), "fye", Str("fye")), "foeh", Str("foeh"))
  }

  lemma KillerAppFieldsKeys(foo: Value)
    ensures KillerAppFields(foo).keys == KillerAppBase(foo).keys
  {
  }

  lemma KillerAppFieldsSlots(foo: Value)
    ensures KillerAppFields(foo).slots == KillerAppBase(foo).slots
  {
  }

  /** `this.fee = "fee"; this.fye = "fye"; this.foeh = "foeh"` after `super`: each
      write creates a new property at the end. */
  lemma KillerAppBaseAppend(foo: Value)
    ensures SetOwn(SetOwn(SetOwn(AncestorTable(foo, Fun("speak")), "fee", Str("fee")), "fye", Str("fye")), "foeh", Str("foeh"))
         == KillerAppBase(foo)
  {
    var p0 := AncestorTable(foo, Fun("speak"));
    SetOwnFresh(p0, "fee", Str("fee"));
    var p1 := AddOwn(p0, "fee", Str("fee"));
    SetOwnFresh(p1, "fye", Str("fye"));
    var p2 := AddOwn(p1, "fye", Str("fye"));
    SetOwnFresh(p2, "foeh", Str("foeh"));
    KillerAppFieldsKeys(foo);
    KillerAppFieldsSlots(foo);
  }

  /** The table, from the base part and the two namespaces. */
  lemma KillerAppTableAppend(foo: Value, self: nat)
    ensures AddOwn(AddOwn(KillerAppBase(foo), "Beeper", Ref(self + 3)), "LaserShark", Ref(self + 5))
         == KillerAppTable(foo, self)
  {
  }

  /** The two configuration objects the KillerApp constructor builds with object
      literals. */
  const BeeperInitVars: Obj :=
    Obj(Props(["beeperConfPropertyFoo"], map["beeperConfPropertyFoo" := Prop(Str("boopmode"), true)]), ObjectChain)
  const LaserSharkInitVars: Obj :=
    Obj(Props(["laserWavelength"], map["laserWavelength" := Prop(Num(450), true)]), ObjectChain)

  /** What the donors' constructors read from those objects. */
  lemma InitVarsRead(h: Heap, b: nat, l: nat)
    requires b in h.objs && h.objs[b] == BeeperInitVars
    requires l in h.objs && h.objs[l] == LaserSharkInitVars
    ensures HasOwnPropertyOf(h, b) == Fun("hasOwnProperty") && HasOwnPropertyOf(h, l) == Fun("hasOwnProperty")
    ensures OwnOrFalse(h, Ref(b), "beeperConfPropertyFoo") == Normal(Str("boopmode"))
    ensures LaserWavelength(h, Ref(l)) == Normal(Num(450))
  {
  }

  /** `Mixin(this.Beeper = {}, new Beeper(initVars))` on the object at `self`: the
      empty namespace is allocated and assigned first, then the Beeper is
      constructed from the configuration object at `initVars` and copied into the
      namespace, which ends up with exactly the Beeper's properties. */
  method AddBeeperNamespace(h: Heap, self: nat, host: Props, chain: seq<Props>, initVars: nat) returns (r: Heap)
    requires WfHeap(h) && self in h.objs && h.objs[self] == Obj(host, chain) && "Beeper" !in host.slots
    requires initVars in h.objs && initVars != self && HasOwnPropertyOf(h, initVars) == Fun("hasOwnProperty")
    ensures WfHeap(r) && r.next == h.next + 2
    ensures r.objs == h.objs[h.next := Obj(BeeperTable(OwnOrFalse(h, Ref(initVars), "beeperConfPropertyFoo").value), ObjectChain)]
                            [h.next + 1 := Obj(BeeperTable(OwnOrFalse(h, Ref(initVars), "beeperConfPropertyFoo").value), BeeperChain)]
                            [self := Obj(AddOwn(host, "Beeper", Ref(h.next)), chain)]
  {
    var h1, ns := AddNamespace(h, self, "Beeper");
    assert h1.objs[initVars] == h.objs[initVars];
    var conf := OwnOrFalse(h1, Ref(initVars), "beeperConfPropertyFoo").value;
    var h2, beeper := NewBeeper(h1, conf);
    BeeperTableCopied(conf);
    r := MixinIntoEmpty(h2, ns, beeper);
    NamespaceWrites(h.objs, h1.objs, h2.objs, r.objs, self, ns, Obj(AddOwn(host, "Beeper", Ref(ns)), chain),
                    beeper, Obj(BeeperTable(conf), BeeperChain));
  }

  /** `Mixin(this.LaserShark = {}, new LaserShark(initVars))`, likewise. */
  method AddLaserSharkNamespace(h: Heap, self: nat, host: Props, chain: seq<Props>, initVars: nat) returns (r: Heap)
    requires WfHeap(h) && self in h.objs && h.objs[self] == Obj(host, chain) && "LaserShark" !in host.slots
    requires initVars in h.objs && initVars != self && HasOwnPropertyOf(h, initVars) == Fun("hasOwnProperty")
    ensures WfHeap(r) && r.next == h.next + 2
    ensures r.objs == h.objs[h.next := Obj(LaserSharkTable(LaserWavelength(h, Ref(initVars)).value), ObjectChain)]
                            [h.next + 1 := Obj(LaserSharkTable(LaserWavelength(h, Ref(initVars)).value), LaserSharkChain)]
                            [self := Obj(AddOwn(host, "LaserShark", Ref(h.next)), chain)]
  {
    var h1, ns := AddNamespace(h, self, "LaserShark");
    assert h1.objs[initVars] == h.objs[initVars];
    var wavelength := LaserWavelength(h1, Ref(initVars)).value;
    var h2, shark := NewLaserShark(h1, wavelength);
    LaserSharkTableCopied(wavelength);
    r := MixinIntoEmpty(h2, ns, shark);
    NamespaceWrites(h.objs, h1.objs, h2.objs, r.objs, self, ns, Obj(AddOwn(host, "LaserShark", Ref(ns)), chain),
                    shark, Obj(LaserSharkTable(wavelength), LaserSharkChain));
  }

  /** `this.fee = "fee"; this.fye = "fye"; this.foeh = "foeh"` on the instance at
      `self` that `super` has initialised. */
  method KillerAppOwnFields(h: Heap, self: nat, foo: Value) returns (r: Heap)
    requires WfHeap(h) && self in h.objs && h.objs[self] == Obj(AncestorTable(foo, Fun("speak")), KillerAppChain)
    ensures WfHeap(r) && r.next == h.next
    ensures r.objs == h.objs[self := Obj(KillerAppBase(foo), KillerAppChain)]
  {
    var h1 := Put(h, self, "fee", Str("fee"));
    var h2 := Put(h1, self, "fye", Str("fye"));
    r := Put(h2, self, "foeh", Str("foeh"));
    KillerAppBaseAppend(foo);
    OverwriteObj(h.objs, self, h1.objs[self], h2.objs[self]);
    OverwriteObj(h.objs, self, h2.objs[self], r.objs[self]);
  }

  /** The rest of KillerApp's constructor up to the mixins: its three fields, then
      the two configuration literals at the next free addresses. */
  method KillerAppLocals(h: Heap, self: nat, foo: Value) returns (r: Heap)
    requires WfHeap(h) && self in h.objs && h.objs[self] == Obj(AncestorTable(foo, Fun("speak")), KillerAppChain)
    ensures WfHeap(r) && r.next == h.next + 2 && self < h.next
    ensures r.objs == h.objs[h.next := BeeperInitVars][h.next + 1 := LaserSharkInitVars]
                            [self := Obj(KillerAppBase(foo), KillerAppChain)]
  {
    AllocatedAt(h, self);
    var h1 := KillerAppOwnFields(h, self, foo);
    var b := Alloc(h1, BeeperInitVars);
    var l := Alloc(b.0, LaserSharkInitVars);
    r := l.0;
    WritesCommute(h.objs, self, h.next, h.next + 1, Obj(KillerAppBase(foo), KillerAppChain),
                  BeeperInitVars, LaserSharkInitVars);
  }

  /** A write to `a` followed by writes to two other addresses is the same as the two
      writes followed by the first. */
  lemma WritesCommute(m: map<int, Obj>, a: int, b: int, c: int, oa: Obj, ob: Obj, oc: Obj)
    requires a != b && a != c
    ensures m[a := oa][b := ob][c := oc] == m[b := ob][c := oc][a := oa]
  {
  }

  /** The two namespaced mixins of KillerApp's constructor, once the configuration
      literals sit at self + 1 and self + 2: the Beeper namespace takes self + 3
      and its Beeper self + 4, the LaserShark namespace self + 5 and its LaserShark
      self + 6. */
  method KillerAppMixins(h: Heap, self: nat, foo: Value) returns (r: Heap)
    requires WfHeap(h) && self in h.objs && h.objs[self] == Obj(KillerAppBase(foo), KillerAppChain)
    requires self + 1 in h.objs && h.objs[self + 1] == BeeperInitVars
    requires self + 2 in h.objs && h.objs[self + 2] == LaserSharkInitVars
    requires h.next == self + 3
    ensures WfHeap(r) && r.next == h.next + 4
    ensures r.objs == h.objs[self + 3 := Obj(BeeperTable(Str("boopmode")), ObjectChain)]
                            [self + 4 := Obj(BeeperTable(Str("boopmode")), BeeperChain)]
                            [self + 5 := Obj(LaserSharkTable(Num(450)), ObjectChain)]
                            [self + 6 := Obj(LaserSharkTable(Num(450)), LaserSharkChain)]
                            [self := Obj(KillerAppTable(foo, self), KillerAppChain)]
  {
    InitVarsRead(h, self + 1, self + 2);
    var host := AddOwn(KillerAppBase(foo), "Beeper", Ref(self + 3));
    var h1 := AddBeeperNamespace(h, self, KillerAppBase(foo), KillerAppChain, self + 1);
    BeeperNamespaceReads(h.objs, self, Obj(BeeperTable(Str("boopmode")), ObjectChain),
                         Obj(BeeperTable(Str("boopmode")), BeeperChain), Obj(host, KillerAppChain));
    InitVarsRead(h1, self + 1, self + 2);
    r := AddLaserSharkNamespace(h1, self, host, KillerAppChain, self + 2);
    KillerAppTableAppend(foo, self);
    OverwriteObjPastTwo(h.objs[self + 3 := Obj(BeeperTable(Str("boopmode")), ObjectChain)]
                              [self + 4 := Obj(BeeperTable(Str("boopmode")), BeeperChain)],
                        self, self + 5, self + 6, Obj(host, KillerAppChain),
                        Obj(LaserSharkTable(Num(450)), ObjectChain), Obj(LaserSharkTable(Num(450)), LaserSharkChain),
                        Obj(KillerAppTable(foo, self), KillerAppChain));
  }

  /** After the Beeper namespace is added, the host and the two configuration
      literals are where they were. */
  lemma BeeperNamespaceReads(m: map<int, Obj>, s: int, o3: Obj, o4: Obj, t: Obj)
    requires s in m && s + 1 in m && s + 2 in m
    ensures var f := m[s + 3 := o3][s + 4 := o4][s := t];
      && s in f && s + 1 in f && s + 2 in f && f[s] == t && f[s + 1] == m[s + 1] && f[s + 2] == m[s + 2]
  {
  }

  /** Where the body of KillerApp's constructor leaves the objects it writes. */
  lemma BodyWrites(m: map<int, Obj>, s: int, base: Obj, bi: Obj, li: Obj, o3: Obj, o4: Obj, o5: Obj, o6: Obj, t: Obj)
    ensures m[s + 1 := bi][s + 2 := li][s := base][s + 3 := o3][s + 4 := o4][s + 5 := o5][s + 6 := o6][s := t]
         == m[s + 1 := bi][s + 2 := li][s + 3 := o3][s + 4 := o4][s + 5 := o5][s + 6 := o6][s := t]
  {
  }

  /** KillerApp's constructor after `super(ancestorInitVars)` has returned. */
  method KillerAppBody(h: Heap, self: nat, foo: Value) returns (r: Heap)
    requires WfHeap(h) && self in h.objs && h.objs[self] == Obj(AncestorTable(foo, Fun("speak")), KillerAppChain)
    requires h.next == self + 1
    ensures WfHeap(r) && r.next == h.next + 6
    ensures r.objs == h.objs[self + 1 := BeeperInitVars][self + 2 := LaserSharkInitVars]
                            [self + 3 := Obj(BeeperTable(Str("boopmode")), ObjectChain)]
                            [self + 4 := Obj(BeeperTable(Str("boopmode")), BeeperChain)]
                            [self + 5 := Obj(LaserSharkTable(Num(450)), ObjectChain)]
                            [self + 6 := Obj(LaserSharkTable(Num(450)), LaserSharkChain)]
                            [self := Obj(KillerAppTable(foo, self), KillerAppChain)]
  {
    var h1 := KillerAppLocals(h, self, foo);
    r := KillerAppMixins(h1, self, foo);
    BodyWrites(h.objs, self, Obj(KillerAppBase(foo), KillerAppChain), BeeperInitVars, LaserSharkInitVars,
               Obj(BeeperTable(Str("boopmode")), ObjectChain), Obj(BeeperTable(Str("boopmode")), BeeperChain),
               Obj(LaserSharkTable(Num(450)), ObjectChain), Obj(LaserSharkTable(Num(450)), LaserSharkChain),
               Obj(KillerAppTable(foo, self), KillerAppChain));
  }

  /** Allocating an object before the write-back does not change what the write-back
      reads or writes. */
  lemma WriteBackAfterAlloc(h: Heap, initVars: Value, o: Obj)
    requires WfHeap(h) && Valid(o.own) && (initVars.Ref? ==> initVars.addr in h.objs)
    requires KeepsHasOwnProperty(h, initVars)
    ensures h.next !in h.objs && WfHeap(Heap(h.objs[h.next := o], h.next + 1))
    ensures KeepsHasOwnProperty(Heap(h.objs[h.next := o], h.next + 1), initVars)
    ensures var h1 := Heap(h.objs[h.next := o], h.next + 1);
      && ConfigWriteBack(h1, initVars).Normal? == ConfigWriteBack(h, initVars).Normal?
      && (ConfigWriteBack(h, initVars).Normal? ==>
            && ConfigWriteBack(h1, initVars).value.1 == ConfigWriteBack(h, initVars).value.1
            && ConfigWriteBack(h1, initVars).value.0.objs == ConfigWriteBack(h, initVars).value.0.objs[h.next := o])
  {
    WfHeapExtend(h, o);
    var h1 := Heap(h.objs[h.next := o], h.next + 1);
    if initVars.Ref? {
      assert h1.objs[initVars.addr] == h.objs[initVars.addr];
    }
  }

  /** `super(ancestorInitVars)` in KillerApp's constructor: the instance is allocated
      with KillerApp's prototype chain at the next free address, then Ancestor's
      constructor runs on it; its first statement throws on an argument that is not an
      object or a function. */
  method KillerAppSuper(h: Heap, initVars: Value) returns (r: Completion<(Heap, nat)>)
    requires WfHeap(h) && (initVars.Ref? ==> initVars.addr in h.objs) && KeepsHasOwnProperty(h, initVars)
    ensures r.Normal? <==> AcceptsWriteBack(h, initVars)
    ensures r.Throw? ==> r.error == TypeError
    ensures r.Normal? ==> WfHeap(r.value.0) && r.value.1 == h.next && r.value.0.next == h.next + 1
    ensures r.Normal? ==>
      r.value.0.objs == ConfigWriteBack(h, initVars).value.0.objs
                          [h.next := Obj(AncestorTable(ConfigWriteBack(h, initVars).value.1, Fun("speak")), KillerAppChain)]
  {
    var inst := NewInstance(h, KillerAppChain);
    var self := inst.1;
    WriteBackAfterAlloc(h, initVars, Obj(NoProps, KillerAppChain));
    var wb := ConfigWriteBack(inst.0, initVars);
    if wb.Throw? {
      r := Throw(wb.error);
    } else {
      var foo := wb.value.1;
      KillerAppInherits();
      var h1 := AncestorInit(wb.value.0, self, foo);
      r := Normal((h1, self));
      OverwriteObj(ConfigWriteBack(h, initVars).value.0.objs, self, Obj(NoProps, KillerAppChain),
                   Obj(AncestorTable(foo, Fun("speak")), KillerAppChain));
    }
  }

  /** Where KillerApp's constructor leaves the objects it writes, once `super` has
      written the instance. */
  lemma ConstructorWrites(m: map<int, Obj>, s: int, a: Obj, bi: Obj, li: Obj, o3: Obj, o4: Obj, o5: Obj, o6: Obj, t: Obj)
    ensures m[s := a][s + 1 := bi][s + 2 := li][s + 3 := o3][s + 4 := o4][s + 5 := o5][s + 6 := o6][s := t]
         == m[s + 1 := bi][s + 2 := li][s + 3 := o3][s + 4 := o4][s + 5 := o5][s + 6 := o6][s := t]
  {
  }

  /** `new KillerApp(ancestorInitVars)`. The instance takes the next free address
      `self`, the configuration literals self + 1 and self + 2, the Beeper namespace
      and its Beeper self + 3 and self + 4, the LaserShark namespace and its
      LaserShark self + 5 and self + 6. The argument has `foo` written back into it
      first; when that throws, so does the construction. */
  method NewKillerApp(h: Heap, initVars: Value) returns (r: Completion<(Heap, nat)>)
    requires WfHeap(h) && (initVars.Ref? ==> initVars.addr in h.objs) && KeepsHasOwnProperty(h, initVars)
    ensures r.Normal? <==> AcceptsWriteBack(h, initVars)
    ensures r.Throw? ==> r.error == TypeError
    ensures r.Normal? ==> WfHeap(r.value.0) && r.value.1 == h.next && r.value.0.next == h.next + 7
    ensures r.Normal? ==>
      var self := h.next;
      r.value.0.objs == ConfigWriteBack(h, initVars).value.0.objs
                          [self + 1 := BeeperInitVars][self + 2 := LaserSharkInitVars]
                          [self + 3 := Obj(BeeperTable(Str("boopmode")), ObjectChain)]
                          [self + 4 := Obj(BeeperTable(Str("boopmode")), BeeperChain)]
                          [self + 5 := Obj(LaserSharkTable(Num(450)), ObjectChain)]
                          [self + 6 := Obj(LaserSharkTable(Num(450)), LaserSharkChain)]
                          [self := Obj(KillerAppTable(ConfigWriteBack(h, initVars).value.1, self), KillerAppChain)]
  {
    var sup := KillerAppSuper(h, initVars);
    if sup.Throw? {
      r := Throw(sup.error);
    } else {
      var self := sup.value.1;
      var foo := ConfigWriteBack(h, initVars).value.1;
      var h1 := KillerAppBody(sup.value.0, self, foo);
      r := Normal((h1, self));
      ConstructorWrites(ConfigWriteBack(h, initVars).value.0.objs, self,
                        Obj(AncestorTable(foo, Fun("speak")), KillerAppChain), BeeperInitVars, LaserSharkInitVars,
                        Obj(BeeperTable(Str("boopmode")), ObjectChain), Obj(BeeperTable(Str("boopmode")), BeeperChain),
                        Obj(LaserSharkTable(Num(450)), ObjectChain), Obj(LaserSharkTable(Num(450)), LaserSharkChain),
                        Obj(KillerAppTable(foo, self), KillerAppChain));
    }
  }

  // ---------------------------------------------------------------------------
  // The script: `const snapSharkApp = new KillerApp({ foo: "barBatBaz" })`.

  const SnapSharkInitVars: Obj :=
    Obj(Props(["foo"], map["foo" := Prop(Str("barBatBaz"), true)]), ObjectChain)

  /** What a KillerApp instance reads from its own properties and chain: the
      configured `foo`; Ancestor's `lastPropertyToSetup`, which neither namespaced
      mixin has touched; `speak`, made own by makeMixable(this, Ancestor); and
      `showCapabilities`, which stays on KillerApp.prototype because makeMixable is
      called with Ancestor. No property of either donor is an own property of the
      instance. */
  lemma KillerAppOwnReads(foo: Value, self: nat)
    ensures var o := Obj(KillerAppTable(foo, self), KillerAppChain);
      && Get(o, "foo") == foo && Get(o, "lastPropertyToSetup") == Str(AncestorLast)
      && "speak" in o.own.slots && Get(o, "speak") == Fun("speak")
      && "showCapabilities" !in o.own.slots && Get(o, "showCapabilities") == Fun("showCapabilities")
      && Get(o, "Beeper") == Ref(self + 3) && Get(o, "LaserShark") == Ref(self + 5)
  {
  }

  /** The Beeper namespace keeps the Beeper apart from the host: no Beeper property
      has a name the KillerApp instance owns. */
  lemma BeeperKeptApart(foo: Value, self: nat, conf: Value)
    ensures forall k :: k in BeeperTable(conf).slots ==> k !in KillerAppTable(foo, self).slots
  {
  }

  /** `lastPropertyToSetup` is the only LaserShark property whose name the KillerApp
      instance also owns: the one a flat mixin would overwrite. */
  lemma LaserSharkKeptApart(foo: Value, self: nat, wavelength: Value)
    ensures forall k :: k in LaserSharkTable(wavelength).slots && k in KillerAppTable(foo, self).slots ==>
      k == "lastPropertyToSetup"
  {
  }

  /** What the Beeper namespace holds: the results computed from the private fields
      and the configuration, and the hoisted `beep`. */
  lemma BeeperReads()
    ensures var b := Obj(BeeperTable(Str("boopmode")), ObjectChain);
      && Get(b, "resultOfMathWithInaccessibleVariable") == Num(15)
      && Get(b, "resultOfStringManipulationWithInaccessiblStringVar") == Str("secretPrefix_boopmode")
      && Get(b, "beeperConfPropertyFoo") == Str("boopmode") && Get(b, "beep") == Fun("beep")
  {
    assert PrefixedConf(Str("boopmode")) == "secretPrefix_boopmode";
  }

  /** What the LaserShark namespace holds: the configured wavelength, its own
      `lastPropertyToSetup` and the hoisted `bite`. */
  lemma LaserSharkReads()
    ensures var l := Obj(LaserSharkTable(Num(450)), ObjectChain);
      && Get(l, "laserWavelength") == Num(450) && Get(l, "lastPropertyToSetup") == Str(SharkLast)
      && Get(l, "bar") == Str("A shark bar") && Get(l, "bite") == Fun("bite")
  {
  }

  /** Where `new KillerApp` leaves the instance, its two namespace objects and what
      was allocated before it. */
  lemma KillerAppObjects(m: map<int, Obj>, s: int, bi: Obj, li: Obj, bns: Obj, b: Obj, lns: Obj, l: Obj, t: Obj)
    ensures var f := m[s + 1 := bi][s + 2 := li][s + 3 := bns][s + 4 := b][s + 5 := lns][s + 6 := l][s := t];
      && s in f && s + 3 in f && s + 5 in f && f[s] == t && f[s + 3] == bns && f[s + 5] == lns
      && (s - 1 in m ==> s - 1 in f && f[s - 1] == m[s - 1])
  {
  }

  /** The script's two statements: the configuration literal takes the next free
      address and the KillerApp the one after. The literal already owns `foo`, so the
      write-back leaves it as it was. */
  method NewSnapSharkApp(h: Heap) returns (r: Heap, app: nat)
    requires WfHeap(h)
    ensures WfHeap(r) && app == h.next + 1 && r.next == h.next + 8 && h.next !in h.objs
    ensures r.objs == h.objs[h.next := SnapSharkInitVars]
                            [app + 1 := BeeperInitVars][app + 2 := LaserSharkInitVars]
                            [app + 3 := Obj(BeeperTable(Str("boopmode")), ObjectChain)]
                            [app + 4 := Obj(BeeperTable(Str("boopmode")), BeeperChain)]
                            [app + 5 := Obj(LaserSharkTable(Num(450)), ObjectChain)]
                            [app + 6 := Obj(LaserSharkTable(Num(450)), LaserSharkChain)]
                            [app := Obj(KillerAppTable(Str("barBatBaz"), app), KillerAppChain)]
  {
    assert Valid(SnapSharkInitVars.own);
    var lit := Alloc(h, SnapSharkInitVars);
    WriteBackKeepsConfig(lit.0, lit.1);
    var res := NewKillerApp(lit.0, Ref(lit.1));
    r, app := res.value.0, res.value.1;
  }

  /** What the script's `snapSharkApp` holds: the configured `foo`, Ancestor's
      `lastPropertyToSetup`, `speak` as an own property, `showCapabilities` only on
      its prototype, no donor property of its own, and the two configured donors in
      their namespaces; the configuration literal is unchanged. */
  method SnapSharkApp(h: Heap) returns (r: Heap, app: nat)
    requires WfHeap(h)
    ensures WfHeap(r) && app == h.next + 1 && h.next in r.objs && r.objs[h.next] == SnapSharkInitVars
    ensures app in r.objs && Field(r, app, "foo") == Str("barBatBaz")
    ensures Field(r, app, "lastPropertyToSetup") == Str(AncestorLast)
    ensures HasOwn(r, app, "speak") && Field(r, app, "speak") == Fun("speak")
    ensures !HasOwn(r, app, "showCapabilities") && Field(r, app, "showCapabilities") == Fun("showCapabilities")
    ensures Field(r, app, "Beeper") == Ref(app + 3) && app + 3 in r.objs
    ensures Field(r, app + 3, "resultOfMathWithInaccessibleVariable") == Num(15)
    ensures Field(r, app + 3, "resultOfStringManipulationWithInaccessiblStringVar") == Str("secretPrefix_boopmode")
    ensures Field(r, app + 3, "beep") == Fun("beep")
    ensures Field(r, app, "LaserShark") == Ref(app + 5) && app + 5 in r.objs
    ensures Field(r, app + 5, "laserWavelength") == Num(450)
    ensures Field(r, app + 5, "lastPropertyToSetup") == Str(SharkLast)
    ensures Field(r, app + 5, "bite") == Fun("bite")
  {
    r, app := NewSnapSharkApp(h);
    KillerAppOwnReads(Str("barBatBaz"), app);
    BeeperReads();
    LaserSharkReads();
    KillerAppObjects(h.objs[h.next := SnapSharkInitVars], app, BeeperInitVars, LaserSharkInitVars,
                     Obj(BeeperTable(Str("boopmode")), ObjectChain), Obj(BeeperTable(Str("boopmode")), BeeperChain),
                     Obj(LaserSharkTable(Num(450)), ObjectChain), Obj(LaserSharkTable(Num(450)), LaserSharkChain),
                     Obj(KillerAppTable(Str("barBatBaz"), app), KillerAppChain));
  }

  /** What Object.assign of a LaserShark leaves on a table that owns
      `lastPropertyToSetup` but none of the LaserShark's other properties: the copy
      loop appends `laserWavelength`, `bar` and `bat`, overwrites
      `lastPropertyToSetup` in place, and appends `bite`. */
  function WithShark(t: Props, wavelength: Value): Props
  {
    AddOwn(SetOwn(AddOwn(AddOwn(AddOwn(t,
      "laserWavelength", wavelength),
      "bar", Str("A shark bar")),
      "bat", Str("A shark bat")),
      "lastPropertyToSetup", Str(SharkLast)),
      "bite", Fun("bite"))
  }

  /** Object.assign of a LaserShark, step by step. */
  lemma SharkOnto(t: Props, wavelength: Value)
    requires "lastPropertyToSetup" in t.slots && "laserWavelength" !in t.slots
    requires "bar" !in t.slots && "bat" !in t.slots && "bite" !in t.slots
    ensures AssignKeys(t, LaserSharkTable(wavelength), LaserSharkTable(wavelength).keys) == WithShark(t, wavelength)
  {
    var s := LaserSharkTable(wavelength);
    AssignKeysFive(t, s, "laserWavelength", "bar", "bat", "lastPropertyToSetup", "bite");
    SetOwnFresh(t, "laserWavelength", wavelength);
    var t1 := AddOwn(t, "laserWavelength", wavelength);
    SetOwnFresh(t1, "bar", Str("A shark bar"));
    var t2 := AddOwn(t1, "bar", Str("A shark bar"));
    SetOwnFresh(t2, "bat", Str("A shark bat"));
    var t3 := AddOwn(t2, "bat", Str("A shark bat"));
    SetOwnFresh(SetOwn(t3, "lastPropertyToSetup", Str(SharkLast)), "bite", Fun("bite"));
  }

  /** A KillerApp instance owns `lastPropertyToSetup` and none of the LaserShark's
      other properties. */
  lemma KillerAppSharkKeys(foo: Value, self: nat)
    ensures var t := KillerAppTable(foo, self);
      && "lastPropertyToSetup" in t.slots && t.slots["lastPropertyToSetup"].enumerable
      && "laserWavelength" !in t.slots && "bar" !in t.slots && "bat" !in t.slots && "bite" !in t.slots
  {
  }

  /** What the LaserShark leaves on such a table: its four other keys follow the
      host's, `lastPropertyToSetup` holds the LaserShark's string, and every other
      property the host owned keeps its value. */
  lemma WithSharkReads(t: Props, wavelength: Value)
    requires "lastPropertyToSetup" in t.slots && t.slots["lastPropertyToSetup"].enumerable
    requires "laserWavelength" !in t.slots && "bar" !in t.slots && "bat" !in t.slots && "bite" !in t.slots
    ensures var r := WithShark(t, wavelength);
      && r.keys == t.keys + ["laserWavelength", "bar", "bat", "bite"]
      && "lastPropertyToSetup" in r.slots && r.slots["lastPropertyToSetup"] == Prop(Str(SharkLast), true)
      && "bar" in r.slots && r.slots["bar"] == Prop(Str("A shark bar"), true)
      && "laserWavelength" in r.slots && r.slots["laserWavelength"] == Prop(wavelength, true)
      && forall k :: k in t.slots && k != "lastPropertyToSetup" ==> k in r.slots && r.slots[k] == t.slots[k]
  {
  }

  /** The pitfall the script's commented-out `Mixin(this, new LaserShark(...))` would
      show: mixed in without a namespace, the LaserShark's `lastPropertyToSetup`
      overwrites Ancestor's in place and its other properties join the host's own,
      while what the host owned before keeps its place and value. */
  lemma FlatMixinPitfall(foo: Value, self: nat, wavelength: Value)
    ensures var t := KillerAppTable(foo, self);
      var r := AssignKeys(t, LaserSharkTable(wavelength), LaserSharkTable(wavelength).keys);
      && r.keys == t.keys + ["laserWavelength", "bar", "bat", "bite"]
      && "lastPropertyToSetup" in r.slots && r.slots["lastPropertyToSetup"] == Prop(Str(SharkLast), true)
      && "bar" in r.slots && r.slots["bar"] == Prop(Str("A shark bar"), true)
      && "laserWavelength" in r.slots && r.slots["laserWavelength"] == Prop(wavelength, true)
      && forall k :: k in t.slots && k != "lastPropertyToSetup" ==> k in r.slots && r.slots[k] == t.slots[k]
  {
    KillerAppSharkKeys(foo, self);
    SharkOnto(KillerAppTable(foo, self), wavelength);
    WithSharkReads(KillerAppTable(foo, self), wavelength);
  }
}
