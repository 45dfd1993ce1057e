/** The variables filter and the action filter (src/filters.js). Both are
    curried in the source, a setup call returning a closure; here the setup
    argument and the closure's argument are given together. */
module Filters {
  import opened Js

  /** What a caller can pass as a filter specification: a function, an array,
      or any other value (null and undefined included). A variables predicate
      is called as `spec(key, value)` and its result is read for truthiness. */
  datatype Spec =
    | Fn(pick: (string, Value) -> Value)
    | List(items: seq<Value>)
    | Plain(v: Value)

  /** Functions and arrays are always truthy. */
  predicate SpecTruthy(spec: Spec) {
    !spec.Plain? || Truthy(spec.v)
  }

  /** Whether `filterVariables` logs its "must be function or array"
      diagnostic: the guard tests `!spec && !isFunction && !isArray`. */
  function FilterWarns(spec: Spec): (warns: bool)
    ensures warns <==> spec.Plain? && Falsy(spec.v)
  {
    !SpecTruthy(spec) && !spec.Fn? && !spec.List?
  }

  /** Whether the picker built from a function or array spec keeps an entry.
      `includes` compares the key string with every array element. */
  predicate Keeps(spec: Spec, key: string, value: Value)
    requires !spec.Plain?
  {
    match spec
    case Fn(pick) => Truthy(pick(key, value))
    case List(items) => Str(key) in items
  }

  /** `filterVariables(spec)(variables)`. Without a picker (spec neither a
      function nor an array) the variables come back as they are; otherwise
      `pickBy` builds a new object, empty when `variables` is not an object. */
  function FilterVariables(spec: Spec, variables: Value): (r: Value)
    ensures spec.Plain? ==> r == variables
    ensures !spec.Plain? ==> r.Obj? && (!variables.Obj? ==> r.fields == map[])
    ensures !spec.Plain? && variables.Obj? ==>
      forall k :: k in r.fields <==> k in variables.fields && Keeps(spec, k, variables.fields[k])
    ensures variables.Obj? ==> r.Obj? && forall k :: k in r.fields ==> k in variables.fields && r.fields[k] == variables.fields[k]
  {
    if spec.Plain? then variables
    else Obj(PickBy(Spread(variables), (k, v) => Keeps(spec, k, v)))
  }

  /** With an allow-list, the result holds exactly the listed keys that the
      input has, each with its original value. */
  lemma AllowListKeepsListedKeys(items: seq<Value>, m: map<string, Value>)
    ensures FilterVariables(List(items), Obj(m)).fields.Keys == set k | k in m && Str(k) in items
    ensures forall k :: k in m && Str(k) in items ==> FilterVariables(List(items), Obj(m)).fields[k] == m[k]
  {
    var r := FilterVariables(List(items), Obj(m));
    assert forall k :: k in r.fields <==> k in m && Str(k) in items;
  }

  /** With a predicate, an entry is kept iff `pick(key, value)` is truthy:
      the key is the first argument. */
  lemma PredicateKeepsAccepted(pick: (string, Value) -> Value, m: map<string, Value>, k: string)
    requires k in m
    ensures k in FilterVariables(Fn(pick), Obj(m)).fields <==> Truthy(pick(k, m[k]))
  {
  }

  /** `filterAction(type)(payloadFilter)({payload})`. Without a payload filter
      every action passes; with one, the closure calls the name `filter`,
      which is bound nowhere, so the call throws a ReferenceError whatever the
      payload is. */
  function FilterAction(payloadFilter: Spec, payload: Value): (r: Result<bool>)
    ensures !SpecTruthy(payloadFilter) ==> r == Ok(true)
    ensures SpecTruthy(payloadFilter) ==> r == Throw(ReferenceError)
  {
    if !SpecTruthy(payloadFilter) then Ok(true) else Throw(ReferenceError)
  }

  /** The action filter never looks at the payload, and never answers false. */
  lemma FilterActionIgnoresPayload(payloadFilter: Spec, a: Value, b: Value)
    ensures FilterAction(payloadFilter, a) == FilterAction(payloadFilter, b)
    ensures FilterAction(payloadFilter, a) != Ok(false)
  {
  }
}
