/**
 * The JSON values the system passes around (configuration trees, tool calls,
 * memory files), seen through Python's eyes: `dict` objects keep key order,
 * `bool` is a kind of number, and every value has a truth value.
 */
module Json {
  import opened Wrappers
  import Dict

  datatype Json =
    | JNull
    | JBool(b: bool)
    | JInt(i: int)
    | JFloat(f: real)
    | JStr(s: string)
    | JArr(items: seq<Json>)
    | JObj(fields: seq<(string, Json)>)

  /** Python's `bool(x)`: None, False, zero, and empty strings, lists and dicts are false. */
  predicate Truthy(j: Json) {
    match j
    case JNull => false
    case JBool(b) => b
    case JInt(i) => i != 0
    case JFloat(f) => f != 0.0
    case JStr(s) => s != []
    case JArr(xs) => xs != []
    case JObj(fs) => fs != []
  }

  /** Python's `type(x).__name__`. */
  function TypeName(j: Json): string {
    match j
    case JNull => "NoneType"
    case JBool(_) => "bool"
    case JInt(_) => "int"
    case JFloat(_) => "float"
    case JStr(_) => "str"
    case JArr(_) => "list"
    case JObj(_) => "dict"
  }

  predicate IsNumber(j: Json) {
    j.JBool? || j.JInt? || j.JFloat?
  }

  /** The numeric value Python compares: `True == 1` and `1 == 1.0`. */
  function NumVal(j: Json): real
    requires IsNumber(j)
  {
    match j
    case JBool(b) => if b then 1.0 else 0.0
    case JInt(i) => i as real
    case JFloat(f) => f
  }

  /** Python's `d.get(k)` on a JSON value; a non-dict value has no keys. */
  function Field(j: Json, k: string): Option<Json> {
    if j.JObj? then Dict.Get(j.fields, k) else None
  }

  /** Every dict in the tree has unique keys, as every value Python builds does. */
  predicate WellFormed(j: Json) {
    match j
    case JArr(xs) => forall i :: 0 <= i < |xs| ==> WellFormed(xs[i])
    case JObj(fs) =>
      && Dict.UniqueKeys(fs)
      && forall i :: 0 <= i < |fs| ==> WellFormed(fs[i].1)
    case _ => true
  }

  /**
   * Python's `a == b` on JSON values: numbers compare by value across bool,
   * int and float; lists compare element by element; dicts compare by size and
   * by the value stored under each key, whatever the key order.
   */
  predicate PyEq(a: Json, b: Json)
    decreases a
  {
    match a
    case JNull => b.JNull?
    case JBool(_) => IsNumber(b) && NumVal(a) == NumVal(b)
    case JInt(_) => IsNumber(b) && NumVal(a) == NumVal(b)
    case JFloat(_) => IsNumber(b) && NumVal(a) == NumVal(b)
    case JStr(s) => b.JStr? && b.s == s
    case JArr(xs) =>
      && b.JArr? && |xs| == |b.items|
      && forall i :: 0 <= i < |xs| ==> PyEq(xs[i], b.items[i])
    case JObj(fs) =>
      && b.JObj? && |fs| == |b.fields|
      && forall i :: 0 <= i < |fs| ==>
           var other := Dict.Get(b.fields, fs[i].0);
           other.Some? && PyEq(fs[i].1, other.value)
  }

  /** Python's `a == b` where either side may be a missing key (`None` from `.get`). */
  predicate PyEqOpt(a: Option<Json>, b: Option<Json>) {
    match a
    case None => b == None || b == Some(JNull)
    case Some(x) =>
      match b
      case None => x == JNull
      case Some(y) => PyEq(x, y)
  }

  /** Equality on well-formed values is reflexive, so an unchanged value is never reported as changed. */
  lemma {:induction false} PyEqRefl(a: Json)
    requires WellFormed(a)
    ensures PyEq(a, a)
    decreases a
  {
    match a
    case JArr(xs) =>
      forall i | 0 <= i < |xs| ensures PyEq(xs[i], xs[i]) {
        PyEqRefl(xs[i]);
      }
    case JObj(fs) =>
      forall i | 0 <= i < |fs|
        ensures Dict.Get(fs, fs[i].0) == Some(fs[i].1) && PyEq(fs[i].1, fs[i].1)
      {
        Dict.GetEntry(fs, i);
        PyEqRefl(fs[i].1);
      }
    case _ =>
  }
}
