/** JSON values as they travel between the browser and the prediction service,
    and the JavaScript notion of truthiness that the views apply to them. */
module Json {
  import opened Wrappers

  /** An object is the sequence of its entries in insertion order, which is the
      order `Object.entries` reports for the non-numeric keys the service uses. */
  datatype Json =
    | JNull
    | JBool(b: bool)
    | JNum(n: real)
    | JStr(s: string)
    | JArr(items: seq<Json>)
    | JObj(fields: seq<(string, Json)>)

  /** JavaScript truthiness of a parsed JSON value: null, false, 0 and "" are falsy,
      every array and object (even an empty one) is truthy. */
  predicate Truthy(v: Json) {
    match v
    case JNull => false
    case JBool(b) => b
    case JNum(n) => n != 0.0
    case JStr(s) => s != ""
    case JArr(_) => true
    case JObj(_) => true
  }

  /** The keys of a parsed object are pairwise distinct. */
  ghost predicate DistinctKeys(fields: seq<(string, Json)>) {
    forall i, j :: 0 <= i < j < |fields| ==> fields[i].0 != fields[j].0
  }

  /** Property access `obj[key]`: the value of the entry named `key`, or None
      (JavaScript `undefined`) when there is no such entry. */
  function Lookup(fields: seq<(string, Json)>, key: string): (r: Option<Json>)
    ensures r.None? <==> forall i :: 0 <= i < |fields| ==> fields[i].0 != key
    ensures r.Some? ==> exists i :: 0 <= i < |fields| && fields[i] == (key, r.value)
    ensures r.Some? && DistinctKeys(fields) ==>
              forall i :: 0 <= i < |fields| && fields[i].0 == key ==> fields[i].1 == r.value
  {
    if fields == [] then None
    else if fields[0].0 == key then Some(fields[0].1)
    else Lookup(fields[1..], key)
  }

  /** Property access on an arbitrary value: only objects have properties here. */
  function Member(v: Json, key: string): (r: Option<Json>)
    ensures r.Some? ==> v.JObj?
  {
    if v.JObj? then Lookup(v.fields, key) else None
  }
}
