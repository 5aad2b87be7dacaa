/** The composition scenario of examples/mixin_scratchpad.js: the donor classes
    Eukaryote, Bacteria and NanoProbe make themselves mixable, and Animal (a subclass of
    Eukaryote) mixes a NanoProbe and a Bacteria into namespaced sub-objects and a second
    NanoProbe directly into itself. Constructors are functions from a heap to a heap;
    `new C(...)` allocates the instance with C's prototype chain and runs the
    constructor bodies on it. Method bodies other than borgCapability1 are not part of
    the model; methods are opaque function values. */
module MixinScratchpad {
  import opened JsValues
  import opened JsObjects
  import opened Assign
  import opened Mixable
  import opened Composition

  const EukaryotePrototype: Props := Props(
    ["constructor", "cellImportinTransport"],
    map["constructor" := Method("Eukaryote"),
        "cellImportinTransport" := Method("cellImportinTransport")])

  const BacteriaPrototype: Props := Props(
    ["constructor", "createHydrocarbon", "gurgle"],
    map["constructor" := Method("Bacteria"),
        "createHydrocarbon" := Method("createHydrocarbon"),
        "gurgle" := Method("gurgle")])

  const NanoProbePrototype: Props := Props(
    ["constructor", "beep", "logCellActivity"],
    map["constructor" := Method("NanoProbe"),
        "beep" := Method("beep"),
        "logCellActivity" := Method("logCellActivity")])

  const AnimalPrototype: Props := Props(
    ["constructor", "identify"],
    map["constructor" := Method("Animal"),
        "identify" := Method("identify")])

  lemma PrototypesValid()
    ensures Valid(EukaryotePrototype) && Valid(BacteriaPrototype)
    ensures Valid(NanoProbePrototype) && Valid(AnimalPrototype)
  {
  }

  const BacteriaChain: seq<Props> := [BacteriaPrototype, ObjectPrototype]
  const NanoProbeChain: seq<Props> := [NanoProbePrototype, ObjectPrototype]
  const AnimalChain: seq<Props> := [AnimalPrototype, EukaryotePrototype, ObjectPrototype]

  // ---------------------------------------------------------------------------
  // Constructor bodies.

  /** The radius rule shared by the two cell classes: a number argument is used,
      scaled by `scale`; anything else defaults to 1. */
  function RadiusOr1(radius: Value, scale: int): (r: Value)
    ensures radius.Num? ==> r == Num(radius.n * scale)
    ensures !radius.Num? ==> r == Num(1)
  {
    if TypeOf(radius) != "undefined" && TypeOf(radius) == "number" then Num(radius.n * scale) else Num(1)
  }

  /** The closure NanoProbe stores as `borgCapability1`: numbers are incremented,
      every other value is returned as it is. */
  function BorgCapability1(input: Value): (r: Value)
    ensures r.Num? <==> input.Num?
    ensures r == input <==> !input.Num?
    ensures input.Num? ==> r.n - input.n == 1
  {
    if TypeOf(input) == "number" then Num(input.n + 1) else input
  }

  // ---------------------------------------------------------------------------
  // Eukaryote.

  /** What a Eukaryote instance with prototype chain `chain` owns once its constructor
      has returned: the public field `foo` (field initialisers of a base class run
      before the constructor body), the radius rule, a nucleus object, no nanoprobe,
      and `cellImportinTransport` holding `transport`, what the name resolves to on
      the instance's chain; all enumerable, in that order. The private field
      #privateRadius is never an own property. */
  function EukaryoteTable(transport: Value, radius: Value, nucleus: nat): Props
  {
    Props(["foo", "radius", "hasNucleus", "nucleus", "hasNanoProbe", "cellImportinTransport"],
          map["foo" := Prop(Str("Some public property"), true),
              "radius" := Prop(RadiusOr1(radius, 2), true),
              "hasNucleus" := Prop(Bool(true), true),
              "nucleus" := Prop(Ref(nucleus), true),
              "hasNanoProbe" := Prop(Bool(false), true),
              "cellImportinTransport" := Prop(transport, true)])
  }

  /** The five writes of the Eukaryote constructor, each to a key the instance does
      not own yet. */
  function EukaryoteWrites(radius: Value, nucleus: nat): Props
  {
    SetOwn(SetOwn(SetOwn(SetOwn(SetOwn(NoProps,
      "foo", Str("Some public property")),
      "radius", RadiusOr1(radius, 2)),
      "hasNucleus", Bool(true)),
      "nucleus", Ref(nucleus)),
      "hasNanoProbe", Bool(false))
  }

  /** The same five properties, each appended as a new enumerable property. */
  function EukaryoteFields(radius: Value, nucleus: nat): Props
  {
    AddOwn(AddOwn(AddOwn(AddOwn(AddOwn(NoProps,
      "foo", Str("Some public property")),
      "radius", RadiusOr1(radius, 2)),
      "hasNucleus", Bool(true)),
      "nucleus", Ref(nucleus)),
      "hasNanoProbe", Bool(false))
  }

  /** Each write of the Eukaryote constructor creates a new property at the end. */
  lemma EukaryoteWritesAppend(radius: Value, nucleus: nat)
    ensures EukaryoteWrites(radius, nucleus) == EukaryoteFields(radius, nucleus)
  {
    var p1 := AddOwn(NoProps, "foo", Str("Some public property"));
    SetOwnFresh(NoProps, "foo", Str("Some public property"));
    var p2 := AddOwn(p1, "radius", RadiusOr1(radius, 2));
    SetOwnFresh(p1, "radius", RadiusOr1(radius, 2));
    var p3 := AddOwn(p2, "hasNucleus", Bool(true));
    SetOwnFresh(p2, "hasNucleus", Bool(true));
    var p4 := AddOwn(p3, "nucleus", Ref(nucleus));
    SetOwnFresh(p3, "nucleus", Ref(nucleus));
    SetOwnFresh(p4, "hasNanoProbe", Bool(false));
  }

  /** makeMixable(this, Eukaryote) after the writes adds `cellImportinTransport`. */
  lemma EukaryoteHoist(chain: seq<Props>, radius: Value, nucleus: nat)
    ensures HoistAll(Obj(EukaryoteFields(radius, nucleus), chain), EukaryotePrototype.keys)
         == Obj(EukaryoteTable(ChainGet(chain, "cellImportinTransport"), radius, nucleus), chain)
  {
    var o := Obj(EukaryoteFields(radius, nucleus), chain);
    var transport := ChainGet(chain, "cellImportinTransport");
    HoistSingleMethod(o, "cellImportinTransport");
    assert Get(o, "cellImportinTransport") == transport;
    EukaryoteTableKeys(transport, radius, nucleus);
    EukaryoteTableSlots(transport, radius, nucleus);
  }

  lemma EukaryoteTableKeys(transport: Value, radius: Value, nucleus: nat)
    ensures AddOwn(EukaryoteFields(radius, nucleus), "cellImportinTransport", transport).keys
         == EukaryoteTable(transport, radius, nucleus).keys
  {
  }

  lemma EukaryoteTableSlots(transport: Value, radius: Value, nucleus: nat)
    ensures AddOwn(EukaryoteFields(radius, nucleus), "cellImportinTransport", transport).slots
         == EukaryoteTable(transport, radius, nucleus).slots
  {
  }

  /** The Eukaryote constructor (also run by `super(radius)`) on the instance at
      `self`, which owns nothing yet: the field initialiser, the four assignments
      (`this.nucleus = {}` allocates the nucleus at the next free address), then
      makeMixable. */
  method EukaryoteInit(h: Heap, self: nat, radius: Value) returns (r: Heap)
    requires WfHeap(h) && self in h.objs && h.objs[self].own == NoProps
    ensures WfHeap(r) && r.next == h.next + 1 && h.next !in h.objs
    ensures r.objs == h.objs[h.next := EmptyObject]
                            [self := Obj(EukaryoteTable(ChainGet(h.objs[self].chain, "cellImportinTransport"), radius, h.next),
                                        h.objs[self].chain)]
  {
    var chain := h.objs[self].chain;
    var h1 := Put(h, self, "foo", Str("Some public property"));
    var h2 := Put(h1, self, "radius", RadiusOr1(radius, 2));
    var h3 := Put(h2, self, "hasNucleus", Bool(true));
    var alloc := Alloc(h3, EmptyObject);
    var h4 := Put(alloc.0, self, "nucleus", Ref(alloc.1));
    var h5 := Put(h4, self, "hasNanoProbe", Bool(false));
    PrototypesValid();
    r := MakeMixable(h5, self, EukaryotePrototype);
    EukaryoteWritesAppend(radius, h.next);
    EukaryoteHoist(chain, radius, h.next);
    OverwriteObj(h.objs, self, h1.objs[self], h2.objs[self]);
    OverwriteObj(h.objs, self, h2.objs[self], h3.objs[self]);
    OverwriteObjPast(h.objs, self, h.next, h3.objs[self], EmptyObject, h4.objs[self]);
    var m := h.objs[h.next := EmptyObject];
    OverwriteObj(m, self, h4.objs[self], h5.objs[self]);
    OverwriteObj(m, self, h5.objs[self], r.objs[self]);
  }

  // ---------------------------------------------------------------------------
  // Bacteria.

  /** What a Bacteria instance owns once its constructor has returned: the radius
      rule (a number argument as given, anything else 1), no nucleus, a cell-wall
      object, then both prototype methods, all enumerable, in that order. */
  function BacteriaTable(radius: Value, wall: nat): Props
  {
    Props(["radius", "hasNucleus", "toughCellWall", "createHydrocarbon", "gurgle"],
          map["radius" := Prop(RadiusOr1(radius, 1), true),
              "hasNucleus" := Prop(Bool(false), true),
              "toughCellWall" := Prop(Ref(wall), true),
              "createHydrocarbon" := Prop(Fun("createHydrocarbon"), true),
              "gurgle" := Prop(Fun("gurgle"), true)])
  }

  function BacteriaWrites(radius: Value, wall: nat): Props
  {
    SetOwn(SetOwn(SetOwn(NoProps,
      "radius", RadiusOr1(radius, 1)),
      "hasNucleus", Bool(false)),
      "toughCellWall", Ref(wall))
  }

  function BacteriaFields(radius: Value, wall: nat): Props
  {
    AddOwn(AddOwn(AddOwn(NoProps,
      "radius", RadiusOr1(radius, 1)),
      "hasNucleus", Bool(false)),
      "toughCellWall", Ref(wall))
  }

  lemma BacteriaWritesAppend(radius: Value, wall: nat)
    ensures BacteriaWrites(radius, wall) == BacteriaFields(radius, wall)
  {
    var p1 := AddOwn(NoProps, "radius", RadiusOr1(radius, 1));
    SetOwnFresh(NoProps, "radius", RadiusOr1(radius, 1));
    var p2 := AddOwn(p1, "hasNucleus", Bool(false));
    SetOwnFresh(p1, "hasNucleus", Bool(false));
    SetOwnFresh(p2, "toughCellWall", Ref(wall));
  }

  /** The table, built one new property at a time. */
  lemma BacteriaTableAppend(radius: Value, wall: nat)
    ensures AddOwn(AddOwn(BacteriaFields(radius, wall), "createHydrocarbon", Fun("createHydrocarbon")),
                   "gurgle", Fun("gurgle"))
         == BacteriaTable(radius, wall)
  {
  }

  /** makeMixable(this, Bacteria) after the writes adds both methods, which resolve on
      Bacteria.prototype. */
  lemma BacteriaHoist(radius: Value, wall: nat)
    ensures HoistAll(Obj(BacteriaFields(radius, wall), BacteriaChain), BacteriaPrototype.keys)
         == Obj(BacteriaTable(radius, wall), BacteriaChain)
  {
    var o := Obj(BacteriaFields(radius, wall), BacteriaChain);
    HoistAllThree(o, "constructor", "createHydrocarbon", "gurgle");
    assert HoistOne(o, "constructor") == o;
    assert Get(o, "createHydrocarbon") == Fun("createHydrocarbon");
    SetOwnFresh(o.own, "createHydrocarbon", Fun("createHydrocarbon"));
    var o1 := HoistOne(o, "createHydrocarbon");
    assert Get(o1, "gurgle") == Fun("gurgle");
    SetOwnFresh(o1.own, "gurgle", Fun("gurgle"));
    BacteriaTableAppend(radius, wall);
  }

  /** The Bacteria constructor on the instance at `self`, which owns nothing yet; the
      cell wall `{}` takes the next free address. */
  method BacteriaInit(h: Heap, self: nat, radius: Value) returns (r: Heap)
    requires WfHeap(h) && self in h.objs && h.objs[self] == Obj(NoProps, BacteriaChain)
    ensures WfHeap(r) && r.next == h.next + 1 && h.next !in h.objs
    ensures r.objs == h.objs[h.next := EmptyObject][self := Obj(BacteriaTable(radius, h.next), BacteriaChain)]
  {
    var h1 := Put(h, self, "radius", RadiusOr1(radius, 1));
    var h2 := Put(h1, self, "hasNucleus", Bool(false));
    var alloc := Alloc(h2, EmptyObject);
    var h3 := Put(alloc.0, self, "toughCellWall", Ref(alloc.1));
    PrototypesValid();
    r := MakeMixable(h3, self, BacteriaPrototype);
    BacteriaWritesAppend(radius, h.next);
    BacteriaHoist(radius, h.next);
    OverwriteObj(h.objs, self, h1.objs[self], h2.objs[self]);
    OverwriteObjPast(h.objs, self, h.next, h2.objs[self], EmptyObject, h3.objs[self]);
    var m := h.objs[h.next := EmptyObject];
    OverwriteObj(m, self, h3.objs[self], r.objs[self]);
  }

  /** `new Bacteria(radius)`: the instance takes the next free address and its cell
      wall the one after. */
  method NewBacteria(h: Heap, radius: Value) returns (r: Heap, self: nat)
    requires WfHeap(h)
    ensures WfHeap(r) && self == h.next && r.next == h.next + 2 && self !in h.objs
    ensures r.objs == h.objs[self + 1 := EmptyObject][self := Obj(BacteriaTable(radius, self + 1), BacteriaChain)]
  {
    var inst := NewInstance(h, BacteriaChain);
    self := inst.1;
    r := BacteriaInit(inst.0, self, radius);
    OverwriteObjPast(h.objs, self, self + 1, Obj(NoProps, BacteriaChain), EmptyObject,
                     Obj(BacteriaTable(radius, self + 1), BacteriaChain));
  }

  // ---------------------------------------------------------------------------
  // NanoProbe.

  /** What every NanoProbe instance owns once its constructor has returned: the
      nanoprobe flag, the borg property and capability, then both prototype methods,
      all enumerable, in that order. */
  const NanoProbeTable: Props :=
    Props(["hasNanoProbe", "borgProperty1", "borgCapability1", "beep", "logCellActivity"],
          map["hasNanoProbe" := Prop(Bool(true), true),
              "borgProperty1" := Prop(Str("Some value"), true),
              "borgCapability1" := Prop(Fun("borgCapability1"), true),
              "beep" := Prop(Fun("beep"), true),
              "logCellActivity" := Prop(Fun("logCellActivity"), true)])

  function NanoProbeWrites(): Props
  {
    SetOwn(SetOwn(SetOwn(NoProps,
      "hasNanoProbe", Bool(true)),
      "borgProperty1", Str("Some value")),
      "borgCapability1", Fun("borgCapability1"))
  }

  function NanoProbeFields(): Props
  {
    AddOwn(AddOwn(AddOwn(NoProps,
      "hasNanoProbe", Bool(true)),
      "borgProperty1", Str("Some value")),
      "borgCapability1", Fun("borgCapability1"))
  }

  lemma NanoProbeWritesAppend()
    ensures NanoProbeWrites() == NanoProbeFields()
  {
    var p1 := AddOwn(NoProps, "hasNanoProbe", Bool(true));
    SetOwnFresh(NoProps, "hasNanoProbe", Bool(true));
    var p2 := AddOwn(p1, "borgProperty1", Str("Some value"));
    SetOwnFresh(p1, "borgProperty1", Str("Some value"));
    SetOwnFresh(p2, "borgCapability1", Fun("borgCapability1"));
  }

  /** The table, built one new property at a time. */
  lemma NanoProbeTableAppend()
    ensures AddOwn(AddOwn(NanoProbeFields(), "beep", Fun("beep")), "logCellActivity", Fun("logCellActivity"))
         == NanoProbeTable
  {
  }

  /** makeMixable(this, NanoProbe) after the writes adds both methods, which resolve on
      NanoProbe.prototype. */
  lemma NanoProbeHoist()
    ensures HoistAll(Obj(NanoProbeFields(), NanoProbeChain), NanoProbePrototype.keys)
         == Obj(NanoProbeTable, NanoProbeChain)
  {
    var o := Obj(NanoProbeFields(), NanoProbeChain);
    HoistAllThree(o, "constructor", "beep", "logCellActivity");
    assert HoistOne(o, "constructor") == o;
    assert Get(o, "beep") == Fun("beep");
    SetOwnFresh(o.own, "beep", Fun("beep"));
    var o1 := HoistOne(o, "beep");
    assert Get(o1, "logCellActivity") == Fun("logCellActivity");
    SetOwnFresh(o1.own, "logCellActivity", Fun("logCellActivity"));
    NanoProbeTableAppend();
  }

  /** `new NanoProbe()`: the instance takes the next free address. */
  method NewNanoProbe(h: Heap) returns (r: Heap, self: nat)
    requires WfHeap(h)
    ensures WfHeap(r) && self == h.next && r.next == h.next + 1 && self !in h.objs
    ensures r.objs == h.objs[self := Obj(NanoProbeTable, NanoProbeChain)]
  {
    var inst := NewInstance(h, NanoProbeChain);
    self := inst.1;
    var h1 := Put(inst.0, self, "hasNanoProbe", Bool(true));
    var h2 := Put(h1, self, "borgProperty1", Str("Some value"));
    var h3 := Put(h2, self, "borgCapability1", Fun("borgCapability1"));
    PrototypesValid();
    r := MakeMixable(h3, self, NanoProbePrototype);
    NanoProbeWritesAppend();
    NanoProbeHoist();
    OverwriteObj(h.objs, self, inst.0.objs[self], h1.objs[self]);
    OverwriteObj(h.objs, self, h1.objs[self], h2.objs[self]);
    OverwriteObj(h.objs, self, h2.objs[self], h3.objs[self]);
    OverwriteObj(h.objs, self, h3.objs[self], r.objs[self]);
  }

  /** A NanoProbe's own properties are well formed and all enumerable, so
      Object.assign copies every one of them. */
  lemma NanoProbeTableCopied()
    ensures Valid(NanoProbeTable) && AllEnumerable(NanoProbeTable)
  {
  }

  /** The same for a Bacteria instance. */
  lemma BacteriaTableCopied(radius: Value, wall: nat)
    ensures Valid(BacteriaTable(radius, wall)) && AllEnumerable(BacteriaTable(radius, wall))
  {
  }

  // ---------------------------------------------------------------------------
  // Animal.

  /** On an Animal instance, `cellImportinTransport` resolves on Eukaryote.prototype,
      one step up the chain. */
  lemma AnimalInheritsTransport()
    ensures ChainGet(AnimalChain, "cellImportinTransport") == Fun("cellImportinTransport")
  {
  }

  /** The host's table once Eukaryote's constructor has run on it and both namespaces
      are assigned; `self` is the host's address, the nucleus, the NP object and the
      Bact object follow as they are allocated. */
  function AnimalNamespaced(radius: Value, self: nat): Props
  {
    AddOwn(AddOwn(EukaryoteTable(Fun("cellImportinTransport"), radius, self + 1), "NP", Ref(self + 2)), "Bact", Ref(self + 4))
  }

  /** The namespaced host is the host with `NP` assigned, then `Bact`. */
  lemma AnimalNamespacedFrom(radius: Value, self: nat)
    ensures AnimalNamespaced(radius, self) ==
      AddOwn(AddOwn(EukaryoteTable(Fun("cellImportinTransport"), radius, self + 1), "NP", Ref(self + 2)), "Bact", Ref(self + 4))
  {
  }

  /** The namespaced host owns `hasNanoProbe` (from Eukaryote) but none of the
      NanoProbe's other properties, and no `name` even after the probe is mixed in. */
  lemma AnimalHostKeys(radius: Value, self: nat)
    ensures var t := AnimalNamespaced(radius, self);
      && "hasNanoProbe" in t.slots && "borgProperty1" !in t.slots && "borgCapability1" !in t.slots
      && "beep" !in t.slots && "logCellActivity" !in t.slots && "name" !in WithProbe(t).slots
  {
  }

  /** What an Animal instance at `self` owns once its constructor has returned: the
      Eukaryote part, whose `hasNanoProbe` the directly mixed NanoProbe has turned to
      true, the two namespace objects, the NanoProbe's other properties, and the name.
      Animal's own method `identify` stays on its prototype. */
  function AnimalTable(name: Value, radius: Value, self: nat): Props
  {
    Props(["foo", "radius", "hasNucleus", "nucleus", "hasNanoProbe", "cellImportinTransport",
           "NP", "Bact", "borgProperty1", "borgCapability1", "beep", "logCellActivity", "name"],
          map["foo" := Prop(Str("Some public property"), true),
              "radius" := Prop(RadiusOr1(radius, 2), true),
              "hasNucleus" := Prop(Bool(true), true),
              "nucleus" := Prop(Ref(self + 1), true),
              "hasNanoProbe" := Prop(Bool(true), true),
              "cellImportinTransport" := Prop(Fun("cellImportinTransport"), true),
              "NP" := Prop(Ref(self + 2), true),
              "Bact" := Prop(Ref(self + 4), true),
              "borgProperty1" := Prop(Str("Some value"), true),
              "borgCapability1" := Prop(Fun("borgCapability1"), true),
              "beep" := Prop(Fun("beep"), true),
              "logCellActivity" := Prop(Fun("logCellActivity"), true),
              "name" := Prop(name, true)])
  }

  lemma AnimalTableKeys(name: Value, radius: Value, self: nat)
    ensures AddOwn(WithProbe(AnimalNamespaced(radius, self)), "name", name).keys == AnimalTable(name, radius, self).keys
  {
    var t := AnimalNamespaced(radius, self);
    AnimalNamespacedKeys(radius, self);
    WithProbeKeys(t);
  }

  lemma AnimalNamespacedKeys(radius: Value, self: nat)
    ensures AnimalNamespaced(radius, self).keys ==
      ["foo", "radius", "hasNucleus", "nucleus", "hasNanoProbe", "cellImportinTransport", "NP", "Bact"]
  {
  }

  /** Mixing in a NanoProbe appends its four other keys. */
  lemma WithProbeKeys(t: Props)
    requires "hasNanoProbe" in t.slots
    ensures WithProbe(t).keys == t.keys + ["borgProperty1", "borgCapability1", "beep", "logCellActivity"]
  {
  }

  lemma AnimalTableSlots(name: Value, radius: Value, self: nat)
    ensures AddOwn(WithProbe(AnimalNamespaced(radius, self)), "name", name).slots == AnimalTable(name, radius, self).slots
  {
    AnimalProbedSlot(radius, self);
  }

  /** Turning `hasNanoProbe` on in place in the namespaced host's slots. */
  lemma AnimalProbedSlot(radius: Value, self: nat)
    ensures "hasNanoProbe" in AnimalNamespaced(radius, self).slots
    ensures AnimalNamespaced(radius, self).slots["hasNanoProbe" := Prop(Bool(true), true)] ==
      map["foo" := Prop(Str("Some public property"), true),
          "radius" := Prop(RadiusOr1(radius, 2), true),
          "hasNucleus" := Prop(Bool(true), true),
          "nucleus" := Prop(Ref(self + 1), true),
          "hasNanoProbe" := Prop(Bool(true), true),
          "cellImportinTransport" := Prop(Fun("cellImportinTransport"), true),
          "NP" := Prop(Ref(self + 2), true),
          "Bact" := Prop(Ref(self + 4), true)]
  {
  }

  /** The table, from the namespaced host, the probe's properties and the name. */
  lemma AnimalTableAppend(name: Value, radius: Value, self: nat)
    ensures AddOwn(WithProbe(AnimalNamespaced(radius, self)), "name", name) == AnimalTable(name, radius, self)
  {
    AnimalTableKeys(name, radius, self);
    AnimalTableSlots(name, radius, self);
  }

  /** What Object.assign of a NanoProbe leaves on a table that owns `hasNanoProbe`:
      that property is overwritten in place, keeping its attributes, and the probe's
      other four properties are appended in the probe's order. */
  function WithProbe(t: Props): Props
    requires "hasNanoProbe" in t.slots
  {
    AddOwn(AddOwn(AddOwn(AddOwn(
      Props(t.keys, t.slots["hasNanoProbe" := Prop(Bool(true), t.slots["hasNanoProbe"].enumerable)]),
      "borgProperty1", Str("Some value")),
      "borgCapability1", Fun("borgCapability1")),
      "beep", Fun("beep")),
      "logCellActivity", Fun("logCellActivity"))
  }

  /** Object.assign of a NanoProbe onto an object that owns `hasNanoProbe` but none of
      the probe's other properties. */
  lemma ProbeOnto(t: Props)
    requires "hasNanoProbe" in t.slots
    requires "borgProperty1" !in t.slots && "borgCapability1" !in t.slots
    requires "beep" !in t.slots && "logCellActivity" !in t.slots
    ensures AssignKeys(t, NanoProbeTable, NanoProbeTable.keys) == WithProbe(t)
  {
    var s := NanoProbeTable;
    AssignKeysFive(t, s, "hasNanoProbe", "borgProperty1", "borgCapability1", "beep", "logCellActivity");
    var t1 := Props(t.keys, t.slots["hasNanoProbe" := Prop(Bool(true), t.slots["hasNanoProbe"].enumerable)]);
    assert Step(t, s, "hasNanoProbe") == t1;
    ProbeAppends(t1);
  }

  /** The last four steps of copying a NanoProbe each append a key the target lacks. */
  lemma ProbeAppends(t1: Props)
    requires "borgProperty1" !in t1.slots && "borgCapability1" !in t1.slots
    requires "beep" !in t1.slots && "logCellActivity" !in t1.slots
    ensures var s := NanoProbeTable;
      Step(Step(Step(Step(t1, s, "borgProperty1"), s, "borgCapability1"), s, "beep"), s, "logCellActivity") ==
      AddOwn(AddOwn(AddOwn(AddOwn(t1,
        "borgProperty1", Str("Some value")),
        "borgCapability1", Fun("borgCapability1")),
        "beep", Fun("beep")),
        "logCellActivity", Fun("logCellActivity"))
  {
    SetOwnFresh(t1, "borgProperty1", Str("Some value"));
    var t2 := AddOwn(t1, "borgProperty1", Str("Some value"));
    SetOwnFresh(t2, "borgCapability1", Fun("borgCapability1"));
    var t3 := AddOwn(t2, "borgCapability1", Fun("borgCapability1"));
    SetOwnFresh(t3, "beep", Fun("beep"));
    var t4 := AddOwn(t3, "beep", Fun("beep"));
    SetOwnFresh(t4, "logCellActivity", Fun("logCellActivity"));
  }

  /** `Mixin((this.NP = {}), new NanoProbe())` on the object at `self`: the empty
      namespace object is allocated and assigned first, then the NanoProbe is
      constructed, then copied into the namespace, which ends up with exactly the
      probe's properties. */
  method AddProbeNamespace(h: Heap, self: nat, host: Props, chain: seq<Props>) returns (r: Heap)
    requires WfHeap(h) && self in h.objs && h.objs[self] == Obj(host, chain) && "NP" !in host.slots
    ensures WfHeap(r) && r.next == h.next + 2
    ensures r.objs == h.objs[h.next := Obj(NanoProbeTable, ObjectChain)]
                            [h.next + 1 := Obj(NanoProbeTable, NanoProbeChain)]
                            [self := Obj(AddOwn(host, "NP", Ref(h.next)), chain)]
  {
    var h1, ns := AddNamespace(h, self, "NP");
    var h2, probe := NewNanoProbe(h1);
    NanoProbeTableCopied();
    r := MixinIntoEmpty(h2, ns, probe);
    NamespaceWrites(h.objs, h1.objs, h2.objs, r.objs, self, ns,
                    Obj(AddOwn(h.objs[self].own, "NP", Ref(ns)), h.objs[self].chain),
                    probe, Obj(NanoProbeTable, NanoProbeChain));
  }

  /** `Mixin((this.Bact = {}), new Bacteria())`: as for the NanoProbe namespace; the
      Bacteria is constructed without a radius and allocates its cell wall after
      itself. */
  method AddBacteriaNamespace(h: Heap, self: nat, host: Props, chain: seq<Props>) returns (r: Heap)
    requires WfHeap(h) && self in h.objs && h.objs[self] == Obj(host, chain) && "Bact" !in host.slots
    ensures WfHeap(r) && r.next == h.next + 3
    ensures r.objs == h.objs[h.next := Obj(BacteriaTable(Undefined, h.next + 2), ObjectChain)]
                            [h.next + 2 := EmptyObject]
                            [h.next + 1 := Obj(BacteriaTable(Undefined, h.next + 2), BacteriaChain)]
                            [self := Obj(AddOwn(host, "Bact", Ref(h.next)), chain)]
  {
    AllocatedAt(h, self);
    var h1, ns := AddNamespace(h, self, "Bact");
    var h2, bacteria := NewBacteria(h1, Undefined);
    BacteriaTableCopied(Undefined, h.next + 2);
    r := MixinIntoEmpty(h2, ns, bacteria);
    NamespaceWritesAlloc(h.objs, h1.objs, h2.objs, r.objs, self, ns,
                         Obj(AddOwn(h.objs[self].own, "Bact", Ref(ns)), h.objs[self].chain),
                         bacteria + 1, bacteria, Obj(BacteriaTable(Undefined, bacteria + 1), BacteriaChain));
  }

  /** `Mixin(this, new NanoProbe())` on an object that owns `hasNanoProbe` but none of
      the probe's other properties: the probe is constructed at the next free address
      and its table laid over the object's own. */
  method MixinProbeDirect(h: Heap, self: nat, host: Props, chain: seq<Props>) returns (r: Heap)
    requires WfHeap(h) && self in h.objs && h.objs[self] == Obj(host, chain) && "hasNanoProbe" in host.slots
    requires "borgProperty1" !in host.slots && "borgCapability1" !in host.slots
    requires "beep" !in host.slots && "logCellActivity" !in host.slots
    ensures WfHeap(r) && r.next == h.next + 1
    ensures r.objs == h.objs[h.next := Obj(NanoProbeTable, NanoProbeChain)][self := Obj(WithProbe(host), chain)]
  {
    var h1, probe := NewNanoProbe(h);
    r := MixinFrom(h1, self, probe);
    ProbeOnto(host);
  }

  /** The Animal instance at `self` once Eukaryote's constructor has run on it. */
  method NewAnimalCell(h: Heap, radius: Value) returns (r: Heap, self: nat)
    requires WfHeap(h)
    ensures WfHeap(r) && self == h.next && r.next == h.next + 2 && self !in h.objs
    ensures r.objs == h.objs[self + 1 := EmptyObject]
                            [self := Obj(EukaryoteTable(Fun("cellImportinTransport"), radius, self + 1), AnimalChain)]
  {
    var inst := NewInstance(h, AnimalChain);
    self := inst.1;
    r := EukaryoteInit(inst.0, self, radius);
    AnimalInheritsTransport();
    OverwriteObjPast(h.objs, self, self + 1, Obj(NoProps, AnimalChain), EmptyObject,
                     Obj(EukaryoteTable(Fun("cellImportinTransport"), radius, self + 1), AnimalChain));
  }

  /** The Animal instance once `this.NP` is assigned. */
  method NewAnimalProbed(h: Heap, radius: Value) returns (r: Heap, self: nat)
    requires WfHeap(h)
    ensures WfHeap(r) && self == h.next && r.next == h.next + 4 && self !in h.objs
    ensures r.objs == h.objs[self + 1 := EmptyObject]
                            [self + 2 := Obj(NanoProbeTable, ObjectChain)]
                            [self + 3 := Obj(NanoProbeTable, NanoProbeChain)]
                            [self := Obj(AddOwn(EukaryoteTable(Fun("cellImportinTransport"), radius, self + 1),
                                                "NP", Ref(self + 2)), AnimalChain)]
  {
    var h1;
    h1, self := NewAnimalCell(h, radius);
    var host := EukaryoteTable(Fun("cellImportinTransport"), radius, self + 1);
    r := AddProbeNamespace(h1, self, host, AnimalChain);
    OverwriteObjPastTwo(h.objs[self + 1 := EmptyObject], self, self + 2, self + 3, Obj(host, AnimalChain),
                        Obj(NanoProbeTable, ObjectChain), Obj(NanoProbeTable, NanoProbeChain),
                        Obj(AddOwn(host, "NP", Ref(self + 2)), AnimalChain));
  }

  /** The host with its NP namespace does not own `Bact` yet. */
  lemma BactFresh(radius: Value, self: nat)
    ensures "Bact" !in AddOwn(EukaryoteTable(Fun("cellImportinTransport"), radius, self + 1), "NP", Ref(self + 2)).slots
  {
  }

  /** The Animal instance once both namespaces are assigned, with everything
      allocated so far. */
  method NewAnimalHost(h: Heap, radius: Value) returns (r: Heap, self: nat)
    requires WfHeap(h)
    ensures WfHeap(r) && self == h.next && r.next == h.next + 7 && self !in h.objs
    ensures r.objs == h.objs[self + 1 := EmptyObject]
                            [self + 2 := Obj(NanoProbeTable, ObjectChain)]
                            [self + 3 := Obj(NanoProbeTable, NanoProbeChain)]
                            [self + 4 := Obj(BacteriaTable(Undefined, self + 6), ObjectChain)]
                            [self + 6 := EmptyObject]
                            [self + 5 := Obj(BacteriaTable(Undefined, self + 6), BacteriaChain)]
                            [self := Obj(AnimalNamespaced(radius, self), AnimalChain)]
  {
    var h1;
    h1, self := NewAnimalProbed(h, radius);
    var host := AddOwn(EukaryoteTable(Fun("cellImportinTransport"), radius, self + 1), "NP", Ref(self + 2));
    AnimalNamespacedFrom(radius, self);
    BactFresh(radius, self);
    r := AddBacteriaNamespace(h1, self, host, AnimalChain);
    AnimalHostWrites(h.objs, h1.objs, r.objs, self, h1.next, Obj(host, AnimalChain),
                     Obj(BacteriaTable(Undefined, self + 6), ObjectChain),
                     Obj(BacteriaTable(Undefined, self + 6), BacteriaChain),
                     Obj(AnimalNamespaced(radius, self), AnimalChain));
  }

  /** The heap writes of the Bact namespace, after those of the NP namespace. */
  lemma AnimalHostWrites(m: map<nat, Obj>, m1: map<nat, Obj>, m2: map<nat, Obj>, s: nat, n: nat,
                         probed: Obj, bact: Obj, bacteria: Obj, host: Obj)
    requires m1 == m[s + 1 := EmptyObject][s + 2 := Obj(NanoProbeTable, ObjectChain)]
                    [s + 3 := Obj(NanoProbeTable, NanoProbeChain)][s := probed]
    requires n == s + 4
    requires m2 == m1[n := bact][n + 2 := EmptyObject][n + 1 := bacteria][s := host]
    ensures m2 == m[s + 1 := EmptyObject][s + 2 := Obj(NanoProbeTable, ObjectChain)]
                   [s + 3 := Obj(NanoProbeTable, NanoProbeChain)]
                   [s + 4 := bact][s + 6 := EmptyObject][s + 5 := bacteria][s := host]
  {
    OverwriteObjPastThree(m[s + 1 := EmptyObject][s + 2 := Obj(NanoProbeTable, ObjectChain)]
                           [s + 3 := Obj(NanoProbeTable, NanoProbeChain)],
                          s, s + 4, s + 6, s + 5, probed, bact, EmptyObject, bacteria, host);
  }

  /** The end of Animal's constructor on an object owning `host`:
      `Mixin(this, new NanoProbe())`, then `this.name = name`. */
  method ProbeAndName(h: Heap, self: nat, host: Props, chain: seq<Props>, name: Value) returns (r: Heap)
    requires WfHeap(h) && self in h.objs && h.objs[self] == Obj(host, chain) && "hasNanoProbe" in host.slots
    requires "borgProperty1" !in host.slots && "borgCapability1" !in host.slots
    requires "beep" !in host.slots && "logCellActivity" !in host.slots && "name" !in WithProbe(host).slots
    ensures WfHeap(r) && r.next == h.next + 1
    ensures r.objs == h.objs[h.next := Obj(NanoProbeTable, NanoProbeChain)]
                            [self := Obj(AddOwn(WithProbe(host), "name", name), chain)]
  {
    var h1 := MixinProbeDirect(h, self, host, chain);
    r := Put(h1, self, "name", name);
    SetOwnFresh(WithProbe(host), "name", name);
    OverwriteObj(h.objs[h.next := Obj(NanoProbeTable, NanoProbeChain)], self, Obj(WithProbe(host), chain),
                 Obj(AddOwn(WithProbe(host), "name", name), chain));
  }

  /** `new Animal(name, radius)`. The instance takes the next free address `self`;
      Eukaryote's constructor allocates the nucleus at self + 1; `this.NP = {}` is
      allocated at self + 2 before its NanoProbe (self + 3) is constructed;
      `this.Bact = {}` at self + 4, its Bacteria at self + 5 with cell wall at
      self + 6; the NanoProbe mixed directly into the instance at self + 7. */
  method NewAnimal(h: Heap, name: Value, radius: Value) returns (r: Heap, self: nat)
    requires WfHeap(h)
    ensures WfHeap(r) && self == h.next && r.next == h.next + 8 && self !in h.objs
    ensures r.objs == h.objs[self + 1 := EmptyObject]
                            [self + 2 := Obj(NanoProbeTable, ObjectChain)]
                            [self + 3 := Obj(NanoProbeTable, NanoProbeChain)]
                            [self + 4 := Obj(BacteriaTable(Undefined, self + 6), ObjectChain)]
                            [self + 6 := EmptyObject]
                            [self + 5 := Obj(BacteriaTable(Undefined, self + 6), BacteriaChain)]
                            [self + 7 := Obj(NanoProbeTable, NanoProbeChain)]
                            [self := Obj(AnimalTable(name, radius, self), AnimalChain)]
  {
    var h1;
    h1, self := NewAnimalHost(h, radius);
    var host := AnimalNamespaced(radius, self);
    AnimalHostKeys(radius, self);
    r := ProbeAndName(h1, self, host, AnimalChain, name);
    AnimalTableAppend(name, radius, self);
    AnimalWrites(h.objs, h1.objs, r.objs, self, Obj(NanoProbeTable, ObjectChain), Obj(NanoProbeTable, NanoProbeChain),
                 Obj(BacteriaTable(Undefined, self + 6), ObjectChain),
                 Obj(BacteriaTable(Undefined, self + 6), BacteriaChain),
                 Obj(host, AnimalChain), Obj(AnimalTable(name, radius, self), AnimalChain));
  }

  /** The heap writes of the end of Animal's constructor, after the namespaces. */
  lemma AnimalWrites(m: map<nat, Obj>, m1: map<nat, Obj>, m2: map<nat, Obj>, s: nat,
                     np: Obj, probe: Obj, bact: Obj, bacteria: Obj, host: Obj, animal: Obj)
    requires m1 == m[s + 1 := EmptyObject][s + 2 := np][s + 3 := probe][s + 4 := bact]
                    [s + 6 := EmptyObject][s + 5 := bacteria][s := host]
    requires m2 == m1[s + 7 := probe][s := animal]
    ensures m2 == m[s + 1 := EmptyObject][s + 2 := np][s + 3 := probe][s + 4 := bact]
                   [s + 6 := EmptyObject][s + 5 := bacteria][s + 7 := probe][s := animal]
  {
    OverwriteObjPast(m[s + 1 := EmptyObject][s + 2 := np][s + 3 := probe][s + 4 := bact]
                      [s + 6 := EmptyObject][s + 5 := bacteria],
                     s, s + 7, host, probe, animal);
  }

  /** What `identify` reads from an Animal instance's own properties: `name`,
      `radius`, `foo` and the nucleus flag. */
  lemma AnimalOwnReads(name: Value, radius: Value, self: nat)
    ensures var o := Obj(AnimalTable(name, radius, self), AnimalChain);
      && Get(o, "name") == name && Get(o, "radius") == RadiusOr1(radius, 2)
      && Get(o, "foo") == Str("Some public property") && Get(o, "hasNucleus") == Bool(true)
  {
  }

  /** The rest of what `identify` reads: `cellImportinTransport`, which makeMixable
      made an own property, the two namespace objects, and the nucleus the transport
      writes into. */
  lemma AnimalNamespaceRefs(name: Value, radius: Value, self: nat)
    ensures var o := Obj(AnimalTable(name, radius, self), AnimalChain);
      && Get(o, "cellImportinTransport") == Fun("cellImportinTransport")
      && Get(o, "NP") == Ref(self + 2) && Get(o, "Bact") == Ref(self + 4)
      && Get(o, "nucleus") == Ref(self + 1)
  {
  }

  /** `identify` itself stays on Animal.prototype. The direct mixin is the name
      collision the constructor's comment warns about: the NanoProbe's `hasNanoProbe`
      has overwritten the one Eukaryote's constructor set. */
  lemma AnimalIdentify(name: Value, radius: Value, self: nat)
    ensures var o := Obj(AnimalTable(name, radius, self), AnimalChain);
      && "identify" !in o.own.slots && Get(o, "identify") == Fun("identify")
      && Get(o, "hasNanoProbe") == Bool(true)
      && EukaryoteTable(Fun("cellImportinTransport"), radius, self + 1).slots["hasNanoProbe"].value == Bool(false)
  {
  }

  /** What the namespace objects hold: the NanoProbe's flag and hoisted methods, and
      the Bacteria's own radius and nucleus flag and hoisted `gurgle`. */
  lemma NamespaceReads(wall: nat)
    ensures var np := Obj(NanoProbeTable, ObjectChain);
      && Get(np, "hasNanoProbe") == Bool(true) && Get(np, "beep") == Fun("beep")
      && Get(np, "logCellActivity") == Fun("logCellActivity")
      && Get(np, "borgCapability1") == Fun("borgCapability1")
    ensures var bact := Obj(BacteriaTable(Undefined, wall), ObjectChain);
      && Get(bact, "gurgle") == Fun("gurgle")
      && Get(bact, "radius") == Num(1) && Get(bact, "hasNucleus") == Bool(false)
  {
  }

  /** Where `new Animal` leaves the instance and its two namespace objects. */
  lemma AnimalObjects(m: map<int, Obj>, s: int, nucleus: Obj, np: Obj, probe: Obj, bact: Obj,
                      wall: Obj, bacteria: Obj, probe2: Obj, host: Obj)
    ensures var f := m[s + 1 := nucleus][s + 2 := np][s + 3 := probe][s + 4 := bact][s + 6 := wall]
                      [s + 5 := bacteria][s + 7 := probe2][s := host];
      s in f && s + 2 in f && s + 4 in f && f[s] == host && f[s + 2] == np && f[s + 4] == bact
  {
  }

  /** `var seven = new Animal("Seven", 5)`: the radius is doubled to 10 and the name
      is set; the NP namespace has the nanoprobe flag `identify` tests, and both
      namespaces resolve the methods `identify` calls. The Bacteria copied into
      `Bact` keeps its own radius and nucleus flag apart from the host's. */
  method NewSeven(h: Heap) returns (r: Heap, seven: nat)
    requires WfHeap(h)
    ensures WfHeap(r) && seven == h.next && seven in r.objs
    ensures Field(r, seven, "name") == Str("Seven") && Field(r, seven, "radius") == Num(10)
    ensures Field(r, seven, "hasNucleus") == Bool(true)
    ensures !HasOwn(r, seven, "identify") && Field(r, seven, "identify") == Fun("identify")
    ensures Field(r, seven, "NP") == Ref(seven + 2) && seven + 2 in r.objs
    ensures Field(r, seven + 2, "hasNanoProbe") == Bool(true) && Field(r, seven + 2, "beep") == Fun("beep")
    ensures Field(r, seven + 2, "logCellActivity") == Fun("logCellActivity")
    ensures Field(r, seven + 2, "borgCapability1") == Fun("borgCapability1")
    ensures Field(r, seven, "Bact") == Ref(seven + 4) && seven + 4 in r.objs
    ensures Field(r, seven + 4, "gurgle") == Fun("gurgle")
    ensures Field(r, seven + 4, "radius") == Num(1) && Field(r, seven + 4, "hasNucleus") == Bool(false)
  {
    r, seven := NewAnimal(h, Str("Seven"), Num(5));
    AnimalOwnReads(Str("Seven"), Num(5), seven);
    AnimalNamespaceRefs(Str("Seven"), Num(5), seven);
    AnimalIdentify(Str("Seven"), Num(5), seven);
    NamespaceReads(seven + 6);
    AnimalObjects(h.objs, seven, EmptyObject, Obj(NanoProbeTable, ObjectChain), Obj(NanoProbeTable, NanoProbeChain),
                  Obj(BacteriaTable(Undefined, seven + 6), ObjectChain), EmptyObject,
                  Obj(BacteriaTable(Undefined, seven + 6), BacteriaChain), Obj(NanoProbeTable, NanoProbeChain),
                  Obj(AnimalTable(Str("Seven"), Num(5), seven), AnimalChain));
  }

  // ---------------------------------------------------------------------------
  // `seven.identify()`.

  /** `cellImportinTransport(rna)` run on the instance at `self`. An argument other
      than undefined is written into `this.nucleus` under "importedRna", read back,
      and reported; undefined skips both and the method returns undefined. Class code
      is strict mode code, so the write throws a TypeError when `this.nucleus` is a
      primitive; on a function it succeeds, but the properties of function objects
      are not modelled. */
  function CellImportinTransport(h: Heap, self: nat, rna: Value): (r: Completion<(Heap, Value)>)
    requires WfHeap(h) && self in h.objs
    requires Get(h.objs[self], "nucleus").Ref? ==> Get(h.objs[self], "nucleus").addr in h.objs
    ensures r.Throw? <==> !rna.Undefined? && !Get(h.objs[self], "nucleus").Ref? && !Get(h.objs[self], "nucleus").Fun?
    ensures r.Throw? ==> r.error == TypeError
    ensures rna.Undefined? ==> r == Normal((h, Undefined))
    ensures r.Normal? ==> WfHeap(r.value.0) && r.value.0.next == h.next
    ensures r.Normal? && !rna.Undefined? ==> r.value.1 == Str("RNA " + Display(rna) + " was imported")
    ensures r.Normal? && !rna.Undefined? && Get(h.objs[self], "nucleus").Fun? ==> r.value.0 == h
    ensures r.Normal? && !rna.Undefined? && Get(h.objs[self], "nucleus").Ref? ==>
      var n := Get(h.objs[self], "nucleus").addr;
      && r.value.0.objs == h.objs[n := Obj(SetOwn(h.objs[n].own, "importedRna", rna), h.objs[n].chain)]
      && Get(r.value.0.objs[n], "importedRna") == rna
  {
    if TypeOf(rna) != "undefined" then
      match Get(h.objs[self], "nucleus")
      case Ref(n) =>
        var h1 := Put(h, n, "importedRna", rna);
        Normal((h1, Str("RNA " + Display(Get(h1.objs[n], "importedRna")) + " was imported")))
      case Fun(_) => Normal((h, Str("RNA " + Display(rna) + " was imported")))
      case _ => Throw(TypeError)
    else
      Normal((h, Undefined))
  }

  /** Where `new Animal` leaves the instance and its nucleus, and that it leaves the
      objects allocated before it as they were. */
  lemma AnimalNucleus(m: map<int, Obj>, s: int, nucleus: Obj, np: Obj, probe: Obj, bact: Obj,
                      wall: Obj, bacteria: Obj, probe2: Obj, host: Obj)
    ensures var f := m[s + 1 := nucleus][s + 2 := np][s + 3 := probe][s + 4 := bact][s + 6 := wall]
                      [s + 5 := bacteria][s + 7 := probe2][s := host];
      && s in f && s + 1 in f && f[s] == host && f[s + 1] == nucleus
      && forall a :: a in m && a < s ==> a in f && f[a] == m[a]
  {
  }

  /** A nucleus object into which `rna` has been imported. */
  function NucleusWith(rna: Value): Obj
  {
    Obj(Props(["importedRna"], map["importedRna" := Prop(rna, true)]), ObjectChain)
  }

  /** `cellImportinTransport(rna)` on an instance whose nucleus is still an empty
      object: the nucleus ends up owning just "importedRna", and nothing else
      changes. */
  method ImportIntoEmptyNucleus(h: Heap, self: nat, n: nat, rna: Value) returns (r: Heap, report: Value)
    requires WfHeap(h) && self in h.objs && n in h.objs
    requires Get(h.objs[self], "nucleus") == Ref(n) && h.objs[n] == EmptyObject && !rna.Undefined?
    ensures WfHeap(r) && r.next == h.next
    ensures r.objs == h.objs[n := NucleusWith(rna)]
    ensures n in r.objs && r.objs[n] == NucleusWith(rna)
    ensures forall a :: a in h.objs && a != n ==> a in r.objs && r.objs[a] == h.objs[a]
    ensures report == Str("RNA " + Display(rna) + " was imported")
  {
    var call := CellImportinTransport(h, self, rna);
    r, report := call.value.0, call.value.1;
    SetOwnFresh(NoProps, "importedRna", rna);
    assert AddOwn(NoProps, "importedRna", rna).keys == ["importedRna"];
  }

  /** `new Animal(name, radius)`, stated by what `identify` needs: the instance at
      `self` with its nucleus, still empty, at self + 1, and every object allocated
      before left as it was. */
  method NewAnimalWithNucleus(h: Heap, name: Value, radius: Value) returns (r: Heap, self: nat)
    requires WfHeap(h)
    ensures WfHeap(r) && self == h.next && self in r.objs && self + 1 in r.objs
    ensures r.objs[self] == Obj(AnimalTable(name, radius, self), AnimalChain)
    ensures r.objs[self + 1] == EmptyObject
    ensures forall a :: a in h.objs ==> a in r.objs && r.objs[a] == h.objs[a]
  {
    r, self := NewAnimal(h, name, radius);
    AnimalNucleus(h.objs, self, EmptyObject, Obj(NanoProbeTable, ObjectChain), Obj(NanoProbeTable, NanoProbeChain),
                  Obj(BacteriaTable(Undefined, self + 6), ObjectChain), EmptyObject,
                  Obj(BacteriaTable(Undefined, self + 6), BacteriaChain), Obj(NanoProbeTable, NanoProbeChain),
                  Obj(AnimalTable(name, radius, self), AnimalChain));
    forall a | a in h.objs
      ensures a in r.objs && r.objs[a] == h.objs[a]
    {
      AllocatedAt(h, a);
    }
  }

  /** `new Animal(name, radius)` followed by `identify()`. Of what `identify` does,
      only its call `this.cellImportinTransport(rna)` changes the heap: the call
      resolves to Eukaryote's method, hoisted onto the instance, which records `rna`
      in the instance's nucleus object and reports it. The rest of `identify` reads
      and prints. Every object that existed before is left as it was. */
  method AnimalIdentifies(h: Heap, name: Value, radius: Value, rna: Value)
    returns (r: Heap, self: nat, imported: Value)
    requires WfHeap(h) && !rna.Undefined?
    ensures WfHeap(r) && self == h.next && self in r.objs && self + 1 in r.objs
    ensures r.objs[self] == Obj(AnimalTable(name, radius, self), AnimalChain)
    ensures r.objs[self + 1] == NucleusWith(rna)
    ensures imported == Str("RNA " + Display(rna) + " was imported")
    ensures forall a :: a in h.objs ==> a in r.objs && r.objs[a] == h.objs[a]
  {
    var h1;
    h1, self := NewAnimalWithNucleus(h, name, radius);
    AnimalNamespaceRefs(name, radius, self);
    r, imported := ImportIntoEmptyNucleus(h1, self, self + 1, rna);
    forall a | a in h.objs
      ensures a in r.objs && r.objs[a] == h.objs[a]
    {
      AllocatedAt(h, a);
    }
  }

  /** The script's last two statements, `var seven = new Animal("Seven", 5);
      seven.identify();`: seven's nucleus ends up holding "CAGTA", and the call
      reports "RNA CAGTA was imported". */
  method SevenIdentifies(h: Heap) returns (r: Heap, seven: nat, imported: Value)
    requires WfHeap(h)
    ensures WfHeap(r) && seven == h.next && seven in r.objs && seven + 1 in r.objs
    ensures r.objs[seven] == Obj(AnimalTable(Str("Seven"), Num(5), seven), AnimalChain)
    ensures Field(r, seven, "cellImportinTransport") == Fun("cellImportinTransport")
    ensures Field(r, seven, "nucleus") == Ref(seven + 1)
    ensures r.objs[seven + 1] == NucleusWith(Str("CAGTA"))
    ensures imported == Str("RNA " + "CAGTA" + " was imported")
    ensures forall a :: a in h.objs ==> a in r.objs && r.objs[a] == h.objs[a]
  {
    r, seven, imported := AnimalIdentifies(h, Str("Seven"), Num(5), Str("CAGTA"));
    AnimalNamespaceRefs(Str("Seven"), Num(5), seven);
    assert Display(Str("CAGTA")) == "CAGTA";
  }
}
