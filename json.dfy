/**
 * Decoded JSON values, as both sides of the wire handle them: Python dicts and lists in the
 * backend, parsed JavaScript objects in the client. The text form is not modelled.
 */
module Json {
  import opened Wrappers

  datatype Json =
    | JNull
    | JBool(b: bool)
    | JInt(i: int)
    | JStr(s: string)
    | JArr(items: seq<Json>)
    | JObj(fields: map<string, Json>)

  /** `value.get(key)` on a dict / `value[key]` on a JavaScript object; `None` when absent. */
  function Get(j: Json, key: string): (r: Option<Json>)
    ensures r.Some? <==> j.JObj? && key in j.fields
  {
    if j.JObj? && key in j.fields then Some(j.fields[key]) else None
  }

  /** The string stored under `key`, when there is one. */
  function GetStr(j: Json, key: string): (r: Option<string>)
    ensures r.Some? <==> Get(j, key).Some? && Get(j, key).value.JStr?
  {
    match Get(j, key)
    case Some(JStr(s)) => Some(s)
    case _ => None
  }

  /** Python truthiness: null, false, 0, "", [] and {} are false. */
  predicate PyTruthy(j: Json) {
    match j
    case JNull => false
    case JBool(b) => b
    case JInt(i) => i != 0
    case JStr(s) => s != []
    case JArr(items) => items != []
    case JObj(fields) => fields != map[]
  }

  /** JavaScript truthiness: arrays and objects are always true. */
  predicate JsTruthy(j: Json) {
    match j
    case JNull => false
    case JBool(b) => b
    case JInt(i) => i != 0
    case JStr(s) => s != []
    case JArr(_) => true
    case JObj(_) => true
  }

  function Strs(items: seq<string>): (r: seq<Json>)
    ensures |r| == |items|
    ensures forall k | 0 <= k < |r| :: r[k] == JStr(items[k])
  {
    if items == [] then [] else [JStr(items[0])] + Strs(items[1..])
  }
}
