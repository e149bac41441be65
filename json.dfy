/** A decoded JSON document, with the Python operations the pipeline applies to it:
    `dict.get`, truthiness, and `[0]` indexing. Objects keep their key order, as a
    Python dict keeps insertion order; they are taken to have distinct keys, as
    `json.loads` produces them. Numbers are kept as integers: no operation of the
    core computes with them. */
module JsonValue {
  import opened Text

  datatype Json =
    | JNull
    | JBool(b: bool)
    | JNum(n: int)
    | JStr(s: string)
    | JArr(items: seq<Json>)
    | JObj(fields: seq<(string, Json)>)

  /** `d.get(key)` on a dict with string keys, kept as its entries in order: the
      value stored under key, if any. Used for decoded JSON objects and for the
      string dicts the catalog scraper builds. */
  function Get<V>(fields: seq<(string, V)>, key: string): (r: Option<V>)
    ensures r.Some? <==> exists i :: 0 <= i < |fields| && fields[i].0 == key
    ensures r.Some? ==> exists i :: 0 <= i < |fields| && fields[i] == (key, r.value)
  {
    if fields == [] then None
    else if fields[0].0 == key then Some(fields[0].1)
    else Get(fields[1..], key)
  }

  /** Python truthiness: None, False, 0, "", [] and {} are false. */
  predicate Truthy(j: Json): (t: bool)
    ensures !t <==> j in {JNull, JBool(false), JNum(0), JStr(""), JArr([]), JObj([])}
  {
    match j
    case JNull => false
    case JBool(b) => b
    case JNum(n) => n != 0
    case JStr(s) => s != ""
    case JArr(items) => items != []
    case JObj(fields) => fields != []
  }

  /** `v[0]`: the first element of a non-empty list, or the first character of a
      non-empty string; anything else raises (IndexError, KeyError or TypeError). */
  function IndexZero(v: Json): (r: Option<Json>)
    ensures r.Some? <==> (v.JArr? && v.items != []) || (v.JStr? && v.s != "")
    ensures v.JArr? && v.items != [] ==> r == Some(v.items[0])
  {
    match v
    case JArr(items) => if items == [] then None else Some(items[0])
    case JStr(s) => if s == "" then None else Some(JStr([s[0]]))
    case _ => None
  }

  /** Python's str() of a value: a string is itself; the text of any other value
      is left to the caller-supplied `repr`. */
  function PyStr(v: Json, repr: Json -> string): (r: string)
    ensures v.JStr? ==> r == v.s
  {
    if v.JStr? then v.s else repr(v)
  }
}
