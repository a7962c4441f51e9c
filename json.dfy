/**
 * The shape of a decoded JSON value, standing for the `Any` trees that
 * `JSONSerialization` produces and consumes: dictionaries become objects,
 * arrays become arrays, `NSNumber` becomes a number, `NSNull` becomes null.
 */
module JsonValues {
  import opened Wrappers

  datatype Json =
    | JNull
    | JBool(boolValue: bool)
    | JNumber(numberValue: real)
    | JString(text: string)
    | JArray(items: seq<Json>)
    | JObject(fields: map<string, Json>)

  /** One step of a path into a JSON value: an object key or an array position. */
  datatype Step = Key(name: string) | Index(position: nat)

  /** The value found by following `path` from `j`, or None when a step does not apply. */
  function Get(j: Json, path: seq<Step>): Option<Json>
    decreases |path|
  {
    if path == [] then Some(j)
    else
      match path[0]
      case Key(k) =>
        if j.JObject? && k in j.fields then Get(j.fields[k], path[1..]) else None
      case Index(p) =>
        if j.JArray? && p < |j.items| then Get(j.items[p], path[1..]) else None
  }

  /** Swift's `as? [[String: Any]]` succeeds only when every element is a dictionary. */
  predicate AllObjects(items: seq<Json>) {
    forall i :: 0 <= i < |items| ==> items[i].JObject?
  }
}
