/** `listMethodsOf(obj)`, the diagnostic helper defined identically in both example
    scripts: the own property names of `obj` whose value is a function, in own-key
    order, or a descriptive string when `obj` is undefined or cannot be enumerated. */
module ListMethods {
  import opened JsValues
  import opened JsObjects

  /** The two shapes of the helper's return value. The diagnostic text is the
      message template filled with the stringified argument and, on the caught path,
      the caught error, whose engine-specific text is kept as its kind. */
  datatype Listing =
    | Methods(names: seq<string>)
    | NotSet(subject: string)
    | EnumerationFailed(subject: string, error: ErrorKind)

  /** The `filter` step: the names of `ks`, in order, whose value on `o` is a
      function. */
  function FunctionNames(o: Obj, ks: seq<string>): (r: seq<string>)
    ensures forall k :: k in r <==> k in ks && TypeOf(Get(o, k)) == "function"
    ensures IsSubsequence(r, ks)
    decreases |ks|
  {
    if |ks| == 0 then []
    else
      var rest := FunctionNames(o, ks[1..]);
      if TypeOf(Get(o, ks[0])) == "function" then
        assert ([ks[0]] + rest)[1..] == rest;
        [ks[0]] + rest
      else
        SubsequenceDrop(rest, ks);
        rest
  }

  /** `Object.getOwnPropertyNames(v)` (ECMA-262 section 20.1.2.10) for the values the
      helper can meet: ToObject throws a TypeError on undefined and null. An object
      yields its own keys, enumerable or not. */
  function OwnPropertyNames(h: Heap, v: Value): (r: Completion<seq<string>>)
    requires v.Ref? ==> v.addr in h.objs
    requires v.Undefined? || v.Null? || v.Ref?
    ensures r.Throw? <==> v.Undefined? || v.Null?
    ensures r.Normal? ==> r.value == h.objs[v.addr].own.keys
  {
    if v.Ref? then Normal(h.objs[v.addr].own.keys) else Throw(TypeError)
  }

  /** listMethodsOf. undefined yields the "was undefined or not set" string without
      enumerating; null passes the `typeof` test (its type is "object"), makes the
      enumeration throw, and the caught TypeError yields the longer diagnostic; an
      object yields exactly its own names whose value is a function, as a subsequence
      of its own-key order. Booleans, numbers and strings enumerate as wrapper
      objects none of whose own properties holds a function, so they yield an empty
      list. A function is an object too and can own function-valued properties (a
      class with a static method, `Object` itself); the own properties of functions
      are not modelled, so a function yields an empty list as well. */
  function ListMethodsOf(h: Heap, v: Value): (r: Listing)
    requires WfHeap(h) && (v.Ref? ==> v.addr in h.objs)
    ensures v.Undefined? <==> r.NotSet?
    ensures v.Undefined? ==> r == NotSet("undefined")
    ensures v.Null? <==> r.EnumerationFailed?
    ensures v.Null? ==> r == EnumerationFailed("null", TypeError)
    ensures r.Methods? <==> !v.Undefined? && !v.Null?
    ensures v.Ref? ==> r.Methods?
    ensures v.Ref? ==> forall k :: k in r.names <==>
      k in h.objs[v.addr].own.slots && Get(h.objs[v.addr], k).Fun?
    ensures v.Ref? ==> IsSubsequence(r.names, h.objs[v.addr].own.keys)
    ensures !v.Ref? && r.Methods? ==> r.names == []
  {
    if TypeOf(v) != "undefined" then
      if v.Ref? || v.Null? then
        match OwnPropertyNames(h, v)
        case Throw(e) => EnumerationFailed(Display(v), e)
        case Normal(ks) => AllocatedAt(h, v.addr); Methods(FunctionNames(h.objs[v.addr], ks))
      else
        Methods([])
    else
      NotSet(Display(v))
  }
}
