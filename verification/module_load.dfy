/** Loading polymix.js as a CommonJS module. Its body exports `Mixin` before the
    `const` declaration that initialises it. A `const` binding exists from the start
    of the module but stays uninitialised (in its temporal dead zone, ECMA-262
    section 14.3.1) until its declaration runs, and reading it earlier throws a
    ReferenceError; function declarations such as makeMixable are initialised before
    the body starts. */
module ModuleLoad {
  import opened JsValues

  /** The top-level statements polymix.js uses. */
  datatype Stmt =
    /** `const name = init;` */
    | ConstDecl(name: string, init: Value)
    /** `exports.key = name;` */
    | ExportAs(key: string, name: string)

  /** A binding of the module scope. */
  datatype Binding = Uninitialized | Initialized(value: Value)

  /** `s` is the `const` declaration of `n`. */
  predicate IsConstOf(s: Stmt, n: string)
  {
    s.ConstDecl? && s.name == n
  }

  /** Some statement of `body` declares `n` as a `const`. */
  predicate DeclaresConst(body: seq<Stmt>, n: string)
  {
    exists i :: 0 <= i < |body| && IsConstOf(body[i], n)
  }

  /** The module scope when the body starts: every `const` of the body is uninitialised,
      and every hoisted function declaration already holds its function. */
  function InitialScope(body: seq<Stmt>, functions: map<string, Value>): (r: map<string, Binding>)
    ensures forall n :: n in r <==> n in functions || DeclaresConst(body, n)
    ensures forall n :: DeclaresConst(body, n) ==> r[n] == Uninitialized
    ensures forall n :: n in functions && !DeclaresConst(body, n) ==> r[n] == Initialized(functions[n])
  {
    var consts := set i | 0 <= i < |body| && body[i].ConstDecl? :: body[i].name;
    assert forall n :: n in consts <==> DeclaresConst(body, n) by {
      forall n ensures n in consts <==> DeclaresConst(body, n) {
        if DeclaresConst(body, n) {
          var i :| 0 <= i < |body| && IsConstOf(body[i], n);
          assert body[i].name in consts;
        }
      }
    }
    map n | n in functions.Keys + consts :: if n in consts then Uninitialized else Initialized(functions[n])
  }

  /** Runs the statements in order. An export reads its binding and throws a
      ReferenceError when the binding is missing or still uninitialised; a `const`
      declaration initialises its binding. The result is the exports object. */
  function Run(scope: map<string, Binding>, exports: map<string, Value>, body: seq<Stmt>): Completion<map<string, Value>>
    decreases |body|
  {
    if |body| == 0 then Normal(exports)
    else
      match body[0]
      case ConstDecl(n, v) => Run(scope[n := Initialized(v)], exports, body[1..])
      case ExportAs(k, n) =>
        if n in scope && scope[n].Initialized? then Run(scope, exports[k := scope[n].value], body[1..])
        else Throw(ReferenceError)
  }

  /** The binding `n` is initialised by the time statement `i` runs: it was initialised
      in the starting scope, or a `const` declaration before statement `i` declares it. */
  predicate InitialisedBefore(scope: map<string, Binding>, body: seq<Stmt>, i: nat, n: string)
    requires i <= |body|
  {
    (n in scope && scope[n].Initialized?) || DeclaresConst(body[..i], n)
  }

  /** Statement `i` is an export that reads a binding before it is initialised. */
  predicate ReadsTooEarly(scope: map<string, Binding>, body: seq<Stmt>, i: nat)
    requires i < |body|
  {
    body[i].ExportAs? && !InitialisedBefore(scope, body, i, body[i].name)
  }

  /** Loading throws exactly when some export reads its binding too early, and the
      only error it throws is a ReferenceError. */
  lemma {:induction false} RunThrowsIff(scope: map<string, Binding>, exports: map<string, Value>, body: seq<Stmt>)
    ensures Run(scope, exports, body).Throw? <==> exists i :: 0 <= i < |body| && ReadsTooEarly(scope, body, i)
    ensures Run(scope, exports, body).Throw? ==> Run(scope, exports, body).error == ReferenceError
    decreases |body|
  {
    if |body| > 0 {
      var tail := body[1..];
      var scope1 := match body[0]
        case ConstDecl(n, v) => scope[n := Initialized(v)]
        case ExportAs(_, _) => scope;
      forall i | 1 <= i < |body|
        ensures ReadsTooEarly(scope, body, i) <==> ReadsTooEarly(scope1, tail, i - 1)
      {
        InitialisedShift(scope, body, i, body[i].name);
      }
      match body[0]
      case ConstDecl(n, v) =>
        assert !ReadsTooEarly(scope, body, 0);
        RunThrowsIff(scope1, exports, tail);
        if Run(scope, exports, body).Throw? {
          var j :| 0 <= j < |tail| && ReadsTooEarly(scope1, tail, j);
          assert ReadsTooEarly(scope, body, j + 1);
        }
      case ExportAs(k, n) =>
        assert body[..0] == [];
        if n in scope && scope[n].Initialized? {
          assert !ReadsTooEarly(scope, body, 0);
          RunThrowsIff(scope, exports[k := scope[n].value], tail);
          if Run(scope, exports, body).Throw? {
            var j :| 0 <= j < |tail| && ReadsTooEarly(scope1, tail, j);
            assert ReadsTooEarly(scope, body, j + 1);
          }
        } else {
          assert ReadsTooEarly(scope, body, 0);
        }
    }
  }

  /** Moving past the first statement: a binding is initialised before statement `i`
      of the body exactly when it is initialised before statement `i - 1` of the rest,
      run from the scope the first statement leaves. */
  lemma InitialisedShift(scope: map<string, Binding>, body: seq<Stmt>, i: nat, n: string)
    requires 1 <= i <= |body|
    ensures var scope1 := match body[0]
        case ConstDecl(m, v) => scope[m := Initialized(v)]
        case ExportAs(_, _) => scope;
      InitialisedBefore(scope, body, i, n) <==> InitialisedBefore(scope1, body[1..], i - 1, n)
  {
    assert body[..i] == [body[0]] + body[1..][..i - 1];
    if DeclaresConst(body[1..][..i - 1], n) {
      var j :| 0 <= j < i - 1 && IsConstOf(body[1..][..i - 1][j], n);
      assert IsConstOf(body[..i][j + 1], n);
    }
    if DeclaresConst(body[..i], n) && !IsConstOf(body[0], n) {
      var j :| 0 <= j < i && IsConstOf(body[..i][j], n);
      assert j > 0;
      assert IsConstOf(body[1..][..i - 1][j - 1], n);
    }
    if IsConstOf(body[0], n) {
      assert IsConstOf(body[..i][0], n);
    }
  }

  // ---------------------------------------------------------------------------
  // polymix.js.

  /** The function `Mixin` is bound to: Object.assign, whose behaviour module Assign
      models. */
  const ObjectAssign: Value := Fun("assign")

  /** polymix.js has one function declaration, makeMixable. */
  const PolymixFunctions: map<string, Value> := map["makeMixable" := Fun("makeMixable")]

  /** The statements of polymix.js as written: both exports, then the `const`. */
  const PolymixAsWritten: seq<Stmt> :=
    [ExportAs("Mixin", "Mixin"), ExportAs("makeMixable", "makeMixable"), ConstDecl("Mixin", ObjectAssign)]

  /** The same statements with the `const` declaration first. */
  const PolymixCorrected: seq<Stmt> :=
    [ConstDecl("Mixin", ObjectAssign), ExportAs("Mixin", "Mixin"), ExportAs("makeMixable", "makeMixable")]

  /** `require`-ing polymix.js: its body runs from the scope its declarations create,
      with an empty exports object. */
  function Load(body: seq<Stmt>): Completion<map<string, Value>>
  {
    Run(InitialScope(body, PolymixFunctions), map[], body)
  }

  /** As written, loading the module throws a ReferenceError at its first statement,
      which reads `Mixin` in its temporal dead zone; nothing is exported. */
  lemma LoadAsWrittenThrows()
    ensures Load(PolymixAsWritten) == Throw(ReferenceError)
    ensures ReadsTooEarly(InitialScope(PolymixAsWritten, PolymixFunctions), PolymixAsWritten, 0)
  {
  }

  /** With the declaration first, loading succeeds and exports Object.assign as
      `Mixin` and the makeMixable function as `makeMixable`. */
  lemma LoadCorrectedExports()
    ensures Load(PolymixCorrected) == Normal(map["Mixin" := ObjectAssign, "makeMixable" := Fun("makeMixable")])
    ensures forall i :: 0 <= i < |PolymixCorrected| ==>
      !ReadsTooEarly(InitialScope(PolymixCorrected, PolymixFunctions), PolymixCorrected, i)
  {
    var body := PolymixCorrected;
    var scope := InitialScope(body, PolymixFunctions);
    assert IsConstOf(body[0], "Mixin");
    assert DeclaresConst(body, "Mixin");
    assert !DeclaresConst(body, "makeMixable");
    assert scope["makeMixable"] == Initialized(Fun("makeMixable"));
    var scope1 := scope["Mixin" := Initialized(ObjectAssign)];
    var ex := map["Mixin" := ObjectAssign];
    assert body[1..] == [ExportAs("Mixin", "Mixin"), ExportAs("makeMixable", "makeMixable")];
    assert Run(scope, map[], body) == Run(scope1, map[], body[1..]);
    assert Run(scope1, map[], body[1..]) == Run(scope1, ex, body[2..]);
    assert body[2..] == [ExportAs("makeMixable", "makeMixable")];
    assert Run(scope1, ex, body[2..]) == Run(scope1, ex["makeMixable" := Fun("makeMixable")], []);
    assert IsConstOf(body[..1][0], "Mixin");
    assert IsConstOf(body[..2][0], "Mixin");
    RunThrowsIff(scope, map[], body);
  }
}
