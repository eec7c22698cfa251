/**
 * The slice of Python's data model that the admission bot relies on:
 * JSON values as `json.load` builds them, truthiness, `dict.get`,
 * iteration, `len`, and the numeric reading of a value in a comparison.
 * A Python exception is modelled as the `Raised` outcome of a `Result`.
 */
module Py {

  datatype Option<+T> = None | Some(value: T)

  /** The outcome of evaluating a Python expression: a value, or an exception (its message is not kept). */
  datatype Result<+T> = Ok(value: T) | Raised {
    predicate IsFailure() { Raised? }
    function PropagateFailure<U>(): Result<U>
      requires Raised?
    {
      Raised
    }
    function Extract(): T
      requires Ok?
    {
      value
    }
  }

  /**
   * A value built by `json.load`. Integers and floats are both `Num`;
   * an object lists its fields in insertion order, with distinct keys.
   */
  datatype Json =
    | Null
    | Bool(b: bool)
    | Num(x: real)
    | Str(s: string)
    | Arr(items: seq<Json>)
    | Obj(fields: seq<(string, Json)>)

  /** Python's `bool(v)`. */
  predicate Truthy(v: Json) {
    match v
    case Null => false
    case Bool(b) => b
    case Num(x) => x != 0.0
    case Str(s) => s != []
    case Arr(items) => items != []
    case Obj(fields) => fields != []
  }

  /** The number `v` is in arithmetic and comparisons (`bool` is a subtype of `int`); `None` where Python raises TypeError. */
  function AsReal(v: Json): (r: Option<real>)
    ensures r.Some? <==> v.Num? || v.Bool?
    ensures v.Num? ==> r == Some(v.x)
  {
    match v
    case Num(x) => Some(x)
    case Bool(b) => Some(if b then 1.0 else 0.0)
    case _ => None
  }

  /** Python's `v == n` for an int literal `n`: only numbers (and bools) can equal it. */
  predicate EqualsInt(v: Json, n: int) {
    AsReal(v) == Some(n as real)
  }

  /** The value bound to `key`, if any. */
  function Lookup(fields: seq<(string, Json)>, key: string): (r: Option<Json>)
    ensures r.Some? <==> exists i :: 0 <= i < |fields| && fields[i].0 == key
    ensures r.Some? ==> exists i :: 0 <= i < |fields| && fields[i] == (key, r.value)
  {
    if fields == [] then None
    else if fields[0].0 == key then Some(fields[0].1)
    else
      var r := Lookup(fields[1..], key);
      assert r.Some? ==> exists i :: 0 <= i < |fields[1..]| && fields[1..][i] == (key, r.value);
      r
  }

  /** `d.get(key, default)` on a value known to be a dict. */
  function Field(d: Json, key: string, default: Json): (r: Json)
    requires d.Obj?
    ensures Lookup(d.fields, key).None? ==> r == default
    ensures Lookup(d.fields, key).Some? ==> exists i :: 0 <= i < |d.fields| && d.fields[i] == (key, r)
  {
    match Lookup(d.fields, key)
    case Some(x) => x
    case None => default
  }

  /** `v.get(key, default)`: AttributeError unless `v` is a dict. */
  function Get(v: Json, key: string, default: Json): (r: Result<Json>)
    ensures r.Ok? <==> v.Obj?
    ensures r.Ok? ==> r.value == Field(v, key, default)
  {
    if v.Obj? then Ok(Field(v, key, default)) else Raised
  }

  /** `len(v)`: TypeError for numbers, bools and None. */
  function Len(v: Json): (r: Result<nat>)
    ensures r.Ok? <==> v.Str? || v.Arr? || v.Obj?
  {
    match v
    case Str(s) => Ok(|s|)
    case Arr(items) => Ok(|items|)
    case Obj(fields) => Ok(|fields|)
    case _ => Raised
  }

  /**
   * What `for x in v` visits: the items of a list, the keys of a dict,
   * the one-character strings of a string; TypeError for the rest.
   */
  function Iter(v: Json): (r: Result<seq<Json>>)
    ensures r.Ok? <==> v.Str? || v.Arr? || v.Obj?
    ensures v.Arr? ==> r == Ok(v.items)
    ensures v.Obj? ==> r.Ok? && |r.value| == |v.fields| && forall i :: 0 <= i < |v.fields| ==> r.value[i] == Str(v.fields[i].0)
    ensures v.Str? ==> r.Ok? && |r.value| == |v.s| && forall i :: 0 <= i < |v.s| ==> r.value[i] == Str([v.s[i]])
  {
    match v
    case Arr(items) => Ok(items)
    case Obj(fields) => Ok(seq(|fields|, i requires 0 <= i < |fields| => Str(fields[i].0)))
    case Str(s) => Ok(seq(|s|, i requires 0 <= i < |s| => Str([s[i]])))
    case _ => Raised
  }
}
