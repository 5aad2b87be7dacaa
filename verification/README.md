# Polymix in Dafny

Polymix is a small JavaScript helper for multiple inheritance by mixins. It has two
functions:

- `Mixin` is `Object.assign`. It copies the own enumerable properties of each source
  object onto a target.
- `makeMixable(ctx, className)` is called at the end of a donor class's constructor.
  For every own name of `className.prototype` other than `constructor`, it evaluates
  `ctx[name] = ctx[name]`. The read goes through the instance's prototype chain, and
  the write creates an own enumerable property. So the donor's methods become own
  properties, and Object.assign copies them along with its fields.

Two example scripts use the pattern:

- In `mixin_scratchpad.js`, an `Animal` (a subclass of `Eukaryote`) mixes a `NanoProbe`
  and a `Bacteria` into namespace sub-objects. It then mixes a second `NanoProbe`
  directly into itself.
- In `polymix_example.js`, a `KillerApp` (a subclass of `Ancestor`) mixes a configured
  `Beeper` and a configured `LaserShark` into namespace sub-objects.

Both scripts also define the diagnostic helper `listMethodsOf`.

The model is made of these modules:

- `JsValues` (js_values.dfy) holds the language values, `typeof`, completions
  (normal or throw) and template-literal stringification.
- `JsObjects` (js_objects.dfy) holds ordinary objects and the heap:
  - An object is an ordered own-property table plus a prototype chain.
  - A property is a value plus its enumerable flag.
  - Lookup is first-owner-wins along the chain.
  - The heap maps addresses to objects and has a next-free address, so object
    identity is the address.
- `Assign` (mixin.dfy) models Object.assign. It has two forms: a loop over each
  source's own keys, and a loop-free reference definition (`Overlay`). It also lifts
  the copy onto the heap as `Mixin`.
- `Mixable` (make_mixable.dfy) models makeMixable's loop and a loop-free reference
  definition (`Hoisted`).
- `ListMethods` (list_methods.dfy) models listMethodsOf.
- `Composition` (composition.dfy) holds the steps both scenarios share: `new` of a
  base class, `this.key = {}`, and a single-source mixin.
- `MixinScratchpad` (mixin_scratchpad.dfy) and `PolymixExample` (polymix_example.dfy)
  model each constructor, the scripts' top-level statements and what they leave on
  the heap.
- `ModuleLoad` (module_load.dfy) models the top-level statements of polymix.js
  running as a CommonJS module. This is where a `const` binding's temporal dead zone
  matters (see Findings).

Class prototypes are values held in each object's chain, not heap objects; the
scenarios never write to a prototype. Methods are opaque function tokens.

## Notes on the code

makeMixable is sometimes read as a no-op self-assignment. As written, it is not one:

- `ctx[name]` reads through ctx's prototype chain.
- Inside a donor's own constructor, that chain runs through `className.prototype`.
  So the net effect is the intended `ctx[name] = className.prototype[name]`
  (`Mixable.MakeMixableFromPrototype`).
- The effect differs only when a subclass overrides the name, or when ctx already
  owns it. Then the override or the existing own value is what gets hoisted
  (`Mixable.MakeMixableOverridden`).

The model follows the code.

## Model

| member | source | states |
|---|---|---|
| `JsValues.TypeOf` | polymix.js:14 | `typeof` gives "undefined" exactly for undefined, "number" exactly for numbers, "function" exactly for functions, and "object" exactly for null and objects |
| `Assign.AssignFrom` | polymix.js:7 | Copying one source onto a target has these effects: every own enumerable source property arrives with the source's value; every other target property is untouched; no other key appears; new keys follow the target's, in the source's order; the result is well formed |
| `Assign.AssignKeysIsOverlay` | polymix.js:7 | The per-key copy loop equals the loop-free overlay definition for any list of distinct keys |
| `Assign.SelfAssign` | polymix.js:7 | Copying an object onto itself changes nothing, so a per-source snapshot equals the live reads Object.assign does |
| `Assign.AssignOntoEmpty` | polymix.js:7 | Copying a table whose properties are all enumerable onto an empty object reproduces the table exactly, keys in order |
| `Assign.AssignAllKeeps` | polymix.js:7 | With several sources, a key that none of them copies keeps the target's property, or stays absent |
| `Assign.AssignAllLastWins` | polymix.js:7 | With several sources, a key takes its value from the last source that copies it |
| `Assign.MixinInto` | polymix.js:7 | The heap-level copy loop changes only the target: same addresses, every other object unchanged, and the target keeps its prototype chain |
| `Assign.Mixin` | polymix.js:7 | `Mixin(target, ...sources)` throws a TypeError exactly when the target is undefined or null. Otherwise it returns the target itself and leaves every other object, the sources included, unchanged |
| `Assign.MixinIntoIsAssignAll` | polymix.js:7 | When no source is the target, the heap copy equals copying the sources' tables, as they were before the call, one after another |
| `Assign.MixinLastWriteWins` | polymix.js:7 | On the heap, a key copied by several sources ends up with the value of the last one |
| `Assign.MixinKeepsUncopied` | polymix.js:7 | On the heap, a key that no source copies keeps the target's property, or stays absent |
| `Assign.MixinSelf` | polymix.js:7 | `Mixin(t, t)` returns t and leaves the heap as it was |
| `Assign.MixinOne` | polymix.js:7 | `Mixin(t, src)` with one distinct source runs the copy loop over the source's own keys onto t's table and changes nothing else |
| `Assign.MixinOntoEmpty` | polymix.js:7 | Mixing a fully enumerable object into one that owns nothing gives the target exactly the source's table |
| `Mixable.OnlyConstructorFiltered` | polymix.js:14 | The loop's filter rejects exactly the name "constructor"; the `typeof` test never fails on a property name |
| `Mixable.HoistAllIsHoisted` | polymix.js:13-17 | makeMixable's loop over distinct prototype names equals the loop-free definition: owned properties untouched, each new name appended in prototype order holding what it resolved to on the chain |
| `Mixable.MakeMixable` | polymix.js:9-18 | Only ctx changes, and its chain is kept. Every prototype name other than "constructor" becomes an own property holding what `ctx[name]` resolved to before the call. Every key still resolves to the same value. Owned properties keep place, value and attributes. New names follow in prototype order, and no other key appears |
| `Mixable.MakeMixableIdempotent` | polymix.js:9-18 | Calling makeMixable twice with the same class gives the same heap as calling it once |
| `Mixable.MakeMixableUnresolved` | polymix.js:15 | A prototype name that neither ctx nor its chain provides is hoisted as an own enumerable undefined |
| `Mixable.MakeMixableFromPrototype` | polymix.js:15 | When `className.prototype` is on ctx's chain and nothing before it provides the name, the hoisted value is the prototype's own method |
| `Mixable.MakeMixableOverridden` | polymix.js:15 | When an earlier link of ctx's chain overrides the name, the hoisted value is the override, not `className.prototype`'s method |
| `Mixable.NewNamesOfClass` | polymix.js:13-14 | For a class prototype listing "constructor" first, the names added to a fresh instance are exactly the class's methods, in order |
| `ListMethods.FunctionNames` | examples/mixin_scratchpad.js:18-20 | The filter keeps exactly the names whose value on the object is a function, in their original order |
| `ListMethods.OwnPropertyNames` | examples/mixin_scratchpad.js:18 | `Object.getOwnPropertyNames` throws exactly on undefined and null; on an object it gives all own keys, enumerable or not, in order |
| `ListMethods.ListMethodsOf` | examples/mixin_scratchpad.js:15-27 | Undefined gives the "was undefined or not set" text. Null passes the `typeof` test, and its caught TypeError gives the longer diagnostic. An object gives exactly its own names holding functions, in own-key order. Other primitives give an empty list. The copy at examples/polymix_example.js:13-23 is the same |
| `Composition.NewInstance` | examples/mixin_scratchpad.js:124 | `new C` allocates a fresh address that owns nothing and carries C's prototype chain; nothing else changes |
| `Composition.AddNamespace` | examples/mixin_scratchpad.js:92 | `this.key = {}` allocates an empty object at the next address and appends a reference to it under `key`; nothing else changes |
| `Composition.MixinIntoEmpty` | examples/mixin_scratchpad.js:92-93 | Mixing a fully enumerable donor into a fresh namespace object gives the namespace the donor's table and changes nothing else |
| `Composition.MixinFrom` | examples/mixin_scratchpad.js:94 | Mixing a donor directly into the host overlays the donor's table on the host's own properties and changes nothing else |
| `MixinScratchpad.RadiusOr1` | examples/mixin_scratchpad.js:33-36 | A number radius is used, scaled; anything else gives 1 (Eukaryote doubles, Bacteria at lines 56-57 does not) |
| `MixinScratchpad.BorgCapability1` | examples/mixin_scratchpad.js:74-76 | The closure returns its input plus one for numbers and every other value unchanged |
| `MixinScratchpad.EukaryoteInit` | examples/mixin_scratchpad.js:32-44 | The Eukaryote constructor leaves `foo`, radius, nucleus flag, a fresh nucleus object, `hasNanoProbe` false and the hoisted `cellImportinTransport`, in that order; the private field is not an own property |
| `MixinScratchpad.NewBacteria` | examples/mixin_scratchpad.js:55-61 | `new Bacteria(radius)` owns radius, nucleus flag, a fresh cell-wall object and the hoisted `createHydrocarbon` and `gurgle` |
| `MixinScratchpad.NewNanoProbe` | examples/mixin_scratchpad.js:71-78 | `new NanoProbe()` owns the probe flag, `borgProperty1`, the closure and the hoisted `beep` and `logCellActivity` |
| `MixinScratchpad.NanoProbeTableCopied` | examples/mixin_scratchpad.js:77 | A NanoProbe's own properties, hoisted methods included, are all enumerable, so Object.assign copies every one |
| `MixinScratchpad.AnimalInheritsTransport` | examples/mixin_scratchpad.js:89 | On an Animal, `cellImportinTransport` resolves on Eukaryote.prototype |
| `MixinScratchpad.MixinProbeDirect` | examples/mixin_scratchpad.js:94 | Mixing a NanoProbe straight into the host overwrites its `hasNanoProbe` in place and appends the probe's four other properties |
| `MixinScratchpad.NewAnimal` | examples/mixin_scratchpad.js:90-97 | `new Animal(name, radius)` leaves eight objects at fixed addresses: the instance, its nucleus, both NanoProbes, the NP namespace (the probe's table), the Bacteria, its wall, and the Bact namespace (the Bacteria's table) |
| `MixinScratchpad.AnimalOwnReads` | examples/mixin_scratchpad.js:109-112 | An Animal reads its name, its doubled radius, `foo` and its nucleus flag |
| `MixinScratchpad.AnimalIdentify` | examples/mixin_scratchpad.js:99-103 | `identify` stays on Animal.prototype. The direct mixin's `hasNanoProbe` true has overwritten Eukaryote's false: the collision the comment warns about |
| `MixinScratchpad.NamespaceReads` | examples/mixin_scratchpad.js:115-118 | The NP namespace holds the probe flag and resolves `beep`. The Bact namespace resolves `gurgle` and keeps the Bacteria's own radius 1 |
| `MixinScratchpad.NewSeven` | examples/mixin_scratchpad.js:124 | `new Animal("Seven", 5)` has name "Seven" and radius 10, inherits `identify`, and has NP and Bact namespaces that answer what `identify` asks of them |
| `MixinScratchpad.CellImportinTransport` | examples/mixin_scratchpad.js:46-51 | An undefined `rna` returns undefined and changes nothing. Otherwise the call throws a TypeError exactly when the nucleus is neither an object nor a function. On an object nucleus, `rna` is written under "importedRna", only that object changes, and reading it back gives `rna`. The report is "RNA <rna> was imported" |
| `MixinScratchpad.ImportIntoEmptyNucleus` | examples/mixin_scratchpad.js:47-49 | Importing into a still-empty nucleus leaves it owning exactly "importedRna", holding `rna`; no other object changes |
| `MixinScratchpad.AnimalIdentifies` | examples/mixin_scratchpad.js:105-112 | `new Animal(name, radius)` then `identify()`: the instance is as constructed, its nucleus holds exactly the imported RNA, and every earlier object is unchanged |
| `MixinScratchpad.SevenIdentifies` | examples/mixin_scratchpad.js:124-125 | After `seven.identify()`, seven resolves `cellImportinTransport` to Eukaryote's method and its nucleus to the object that now owns exactly `importedRna: "CAGTA"`; the call reports "RNA CAGTA was imported" |
| `PolymixExample.OwnOrFalse` | examples/polymix_example.js:56 | `initVars.hasOwnProperty(k) ? initVars[k] : false` throws a TypeError exactly on undefined, null, or an object whose `hasOwnProperty` does not resolve to a function (one made by `Object.create(null)`). Otherwise it gives the own value when the argument owns k, and false |
| `PolymixExample.LaserWavelength` | examples/polymix_example.js:95-100 | The wavelength is the configured value exactly when the argument owns a number under that key; otherwise it is false. It throws a TypeError exactly on undefined, null, or an object without a `hasOwnProperty` function |
| `PolymixExample.ConfigWriteBack` | examples/polymix_example.js:29 | The value read is written back into an object argument under `foo`. It succeeds exactly on functions and on objects whose `hasOwnProperty` resolves to a function; otherwise it throws a TypeError: the strict-mode write on booleans, numbers and strings, the read on the rest |
| `PolymixExample.WriteBackKeepsConfig` | examples/polymix_example.js:29 | The write-back succeeds exactly when the object's `hasOwnProperty` resolves to a function. It then leaves the heap unchanged exactly when the argument already owns `foo`, and otherwise appends `foo: false` to the argument |
| `PolymixExample.AncestorInit` | examples/polymix_example.js:27-39 | The Ancestor constructor leaves the configured `foo`, two fixed strings and the hoisted `speak`, in that order |
| `PolymixExample.BeeperKeysPublic` | examples/polymix_example.js:73-81 | No own key of a Beeper is empty or begins with '#', so none names a private field and Object.assign copies none |
| `PolymixExample.BeeperPrivateFieldsHidden` | examples/polymix_example.js:60-81 | No own key of a Beeper is a private name, yet the two results computed from the private fields are public: 5 times the hidden 3, and a string that starts with the hidden prefix and an underscore and ends with the configuration's stringification |
| `PolymixExample.BeeperInit` | examples/polymix_example.js:54-71 | The Beeper constructor leaves the configuration, two strings, 5 × 3 and the prefixed string, then the hoisted `beep`; private fields are not own properties |
| `PolymixExample.LaserSharkInit` | examples/polymix_example.js:93-111 | The LaserShark constructor leaves the wavelength, two strings, its own `lastPropertyToSetup` and the hoisted `bite` |
| `PolymixExample.KillerAppInherits` | examples/polymix_example.js:126 | On a KillerApp, `speak` resolves on Ancestor.prototype and `showCapabilities` on KillerApp.prototype |
| `PolymixExample.NewKillerApp` | examples/polymix_example.js:128-175 | `new KillerApp(initVars)` throws, with a TypeError, exactly when the `foo` write-back throws: on anything but a function or an object with a `hasOwnProperty` function. Otherwise it leaves the instance, both configuration literals, both donors and both namespace objects (each holding its donor's table) at fixed addresses |
| `PolymixExample.KillerAppOwnReads` | examples/polymix_example.js:130-143 | A KillerApp reads the configured `foo` and Ancestor's `lastPropertyToSetup`; `speak` is own, `showCapabilities` is inherited |
| `PolymixExample.BeeperKeptApart` | examples/polymix_example.js:157 | No Beeper property name is owned by the KillerApp instance |
| `PolymixExample.LaserSharkKeptApart` | examples/polymix_example.js:158 | `lastPropertyToSetup` is the only LaserShark property name the KillerApp instance also owns |
| `PolymixExample.BeeperReads` | examples/polymix_example.js:60-62 | The Beeper namespace holds 15, "secretPrefix_boopmode", the configuration and `beep` |
| `PolymixExample.LaserSharkReads` | examples/polymix_example.js:104-106 | The LaserShark namespace holds the wavelength 450, its own `lastPropertyToSetup` and `bite` |
| `PolymixExample.SnapSharkApp` | examples/polymix_example.js:192-193 | The script's app has foo "barBatBaz", Ancestor's `lastPropertyToSetup`, own `speak`, inherited `showCapabilities`, and both configured donors in their namespaces; its configuration literal is unchanged |
| `PolymixExample.FlatMixinPitfall` | examples/polymix_example.js:165-167 | Without a namespace, a LaserShark overwrites Ancestor's `lastPropertyToSetup` in place and adds its other properties after the host's; every other host property keeps its value |
| `ModuleLoad.InitialScope` | polymix.js:4-9 | When the module body starts, every `const` is an uninitialised binding and every function declaration already holds its function |
| `ModuleLoad.RunThrowsIff` | polymix.js:4-7 | Running the body throws exactly when some export reads a binding not yet initialised; the error is a ReferenceError |
| `ModuleLoad.LoadAsWrittenThrows` | polymix.js:4-7 | As written, loading the module throws a ReferenceError at its first statement |
| `ModuleLoad.LoadCorrectedExports` | polymix.js:4-7 | With the declaration first, loading exports Object.assign as `Mixin` and the function `makeMixable`, and no export reads too early |

## Left out

- Assign.Mixin: requires the target to be an object, undefined or null. ToObject's wrapping of a boolean, number, string or function target is not modelled.
- Assign.MixinInto: sources must not be strings. A string source contributes its index properties, and integer-like keys follow their own ordering; neither is modelled.
- PolymixExample.OwnOrFalse: is stated only for the three configuration keys the constructors read. It requires that a `hasOwnProperty` function the argument resolves is the built-in one (`KeepsHasOwnProperty`). An argument that shadows or overrides it with another function is not modelled, since the call's result would then be whatever that function returns.
- PolymixExample.LaserWavelength: requires, like OwnOrFalse, that the argument's `hasOwnProperty`, when a function, is the built-in one.
- PolymixExample.ConfigWriteBack: requires, like OwnOrFalse, that the argument's `hasOwnProperty`, when a function, is the built-in one. The same holds for `PolymixExample.WriteBackKeepsConfig` and `PolymixExample.NewKillerApp`.
- PolymixExample.ConfigWriteBack: on a function argument the read succeeds, but the write to the function object is not recorded, because function objects' own properties are not modelled.
- ListMethods.ListMethodsOf: returns the message's variable parts (the stringified argument and the error kind) rather than the assembled message text. The engine's error text is not modelled. A function argument yields an empty list, because the own properties of functions are not modelled; a class with a static method, or `Object` itself, would in fact list those methods.
- Mixable.MakeMixable: takes `className.prototype`'s own table as a parameter. A `className` that is undefined or has no prototype makes the source throw a TypeError; that path is not modelled.
- Numbers are mathematical integers. Fractions, NaN and infinities are not modelled, and the scripts do not use them.
- Property attributes other than enumerable (writable, configurable), accessors, symbol keys and integer-index key ordering are not modelled. Nothing in the scripts uses them.
- Function objects are opaque tokens known by name. Their own properties (`length`, `name`, `prototype`) and method bodies are left out. The exception is `borgCapability1`, whose body is small and pure.
- console.log output is left out: `identify`, `showCapabilities`, `speak`, `beep`, `bite`, `createHydrocarbon`, `logCellActivity` and the LaserShark warning. What `identify` reads is modelled (`MixinScratchpad.NewSeven`), and so is the one write it causes, through `this.cellImportinTransport("CAGTA")` (`MixinScratchpad.SevenIdentifies`); what it prints is not.
- The call `snapSharkApp.showCapabilities()` only prints, so it is not modelled.
- Closure identity is not modelled. Every NanoProbe holds the same token `Fun("borgCapability1")`, while each `new NanoProbe()` creates a distinct closure; no script compares them.
- Template-literal stringification (`JsValues.Display`) renders every object as "[object Object]" without consulting a `toString` on its chain, and a function as its name rather than its source text.
- Private fields are modelled only as never being own properties. Their values enter as constants: 3 and "secretPrefix".
- The commented-out override of `lastPropertyToSetup` in KillerApp (examples/polymix_example.js:143) is not modelled. The commented-out flat mixin (line 167) is modelled as `PolymixExample.FlatMixinPitfall`.
- The `try`/`catch` in listMethodsOf is modelled only for the TypeError that `Object.getOwnPropertyNames(null)` throws. No other value makes it throw.

## Findings

| source | as written | input that shows it | evidently intended | confidence | as-written member | corrected member |
|---|---|---|---|---|---|---|
| polymix.js:4-7 | `exports.Mixin = Mixin;` runs before `const Mixin = Object.assign;`, while `Mixin` is still in its temporal dead zone | `require` of polymix.js: the first statement throws a ReferenceError, so nothing is exported | declare `const Mixin` before the exports, so the module exports Object.assign and makeMixable | not executed | `ModuleLoad.LoadAsWrittenThrows` | `ModuleLoad.LoadCorrectedExports` |

The rest of the model uses the corrected export: `Assign.Mixin` is Object.assign.
