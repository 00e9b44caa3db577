/**
 The `ReactiveParamGetter` combinators. Each builds, from parameter names
 and a reactive getter, a zero-argument function suitable as a reactive
 subscription argument. Each names container is shallow-copied at
 construction, so the combinator is modelled as an immutable value holding
 the names. Calling it reads the getter that is current at call time.
 */
module ParamGetter {
  import opened Common

  /** A built parameter getter: the captured names and its result shape. */
  datatype ParamGetter =
    | FromArrayToArray(names: seq<string>)
    | FromArrayToObj(names: seq<string>)
    | FromObjToObj(params: map<string, string>)
    | FromName(name: string)

  /** `_.object(pairs)` for the pairs `[k, get(k)]` of `names`, taken in
      order so that a later pair overwrites an earlier one with the same key. */
  function ObjectOf(names: seq<string>, get: string -> Value): (fields: map<string, Value>)
    ensures forall k :: k in fields <==> k in names
    ensures forall k :: k in fields ==> fields[k] == get(k)
  {
    if names == [] then map[]
    else
      var init := names[..|names| - 1];
      assert forall k :: k in names <==> k in init || k == names[|names| - 1];
      ObjectOf(init, get)[names[|names| - 1] := get(names[|names| - 1])]
  }

  /** A call of the built function with the getter as it reads now. */
  function Call(g: ParamGetter, get: string -> Value): (v: Value)
    ensures g.FromArrayToArray? ==>
      && v.Arr? && |v.items| == |g.names|
      && forall i :: 0 <= i < |g.names| ==> v.items[i] == get(g.names[i])
    ensures g.FromArrayToObj? ==>
      && v.Obj?
      && (forall k :: k in v.fields <==> k in g.names)
      && forall k :: k in v.fields ==> v.fields[k] == get(k)
    ensures g.FromObjToObj? ==>
      && v.Obj? && v.fields.Keys == g.params.Keys
      && forall k :: k in v.fields ==> v.fields[k] == get(g.params[k])
    ensures g.FromName? ==> v == get(g.name)
  {
    match g
    case FromArrayToArray(names) => Arr(seq(|names|, i requires 0 <= i < |names| => get(names[i])))
    case FromArrayToObj(names) => Obj(ObjectOf(names, get))
    case FromObjToObj(params) => Obj(map k | k in params :: get(params[k]))
    case FromName(name) => get(name)
  }

  /** The object form holds, under each name, the value the array form
      holds at that name's position, and it is the renaming form with every
      name mapped to itself. */
  lemma ArrayAndObjectFormsAgree(names: seq<string>, get: string -> Value)
    ensures var a := Call(FromArrayToArray(names), get);
            var o := Call(FromArrayToObj(names), get);
            forall i :: 0 <= i < |names| ==> names[i] in o.fields && o.fields[names[i]] == a.items[i]
    ensures Call(FromArrayToObj(names), get) == Call(FromObjToObj(map k | k in names :: k), get)
  {
    var o := Call(FromArrayToObj(names), get);
    var r := Call(FromObjToObj(map k | k in names :: k), get);
    assert o.fields.Keys == r.fields.Keys;
  }

  /** A single name behaves as a one-element array. */
  lemma FromNameIsSingletonArray(name: string, get: string -> Value)
    ensures Call(FromArrayToArray([name]), get) == Arr([Call(FromName(name), get)])
  {
    assert Call(FromArrayToArray([name]), get).items == [get(name)];
  }
}
