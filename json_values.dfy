/**
 * Decoded JSON values, as `json.loads` hands them to the server, and the
 * Python dictionary operations the server performs on them.
 *
 * Numbers are integers only. Objects keep their members in insertion
 * order, as Python dictionaries do; a decoded object has distinct keys.
 */
module JsonValues {
  import opened Wrappers

  datatype Json =
    | JNull
    | JBool(b: bool)
    | JInt(i: int)
    | JStr(s: string)
    | JArray(items: seq<Json>)
    | JObject(members: Object)

  /** A Python dict of JSON values: (key, value) pairs in insertion order. */
  type Object = seq<(string, Json)>

  /** The outcome of decoding one input (a stdio line or an HTTP body). */
  datatype Decoded = Parsed(value: Json) | Unparsable(message: string)

  /** `key in obj` */
  predicate HasKey(obj: Object, key: string) {
    exists k :: 0 <= k < |obj| && obj[k].0 == key
  }

  /** `obj.get(key)`: the value bound to `key`, or None when the key is absent. */
  function Get(obj: Object, key: string): (r: Option<Json>)
    ensures r.Some? <==> HasKey(obj, key)
    ensures r.Some? ==> (key, r.value) in obj
  {
    if |obj| == 0 then None
    else if obj[0].0 == key then Some(obj[0].1)
    else
      assert HasKey(obj, key) <==> HasKey(obj[1..], key) by {
        if HasKey(obj[1..], key) {
          var k :| 0 <= k < |obj[1..]| && obj[1..][k].0 == key;
          assert obj[k + 1].0 == key;
        }
        if HasKey(obj, key) {
          var k :| 0 <= k < |obj| && obj[k].0 == key;
          assert k > 0 && obj[1..][k - 1].0 == key;
        }
      }
      Get(obj[1..], key)
  }

  /** `obj.get(key, default)` */
  function GetOr(obj: Object, key: string, default: Json): (r: Json)
    ensures !HasKey(obj, key) ==> r == default
    ensures HasKey(obj, key) ==> (key, r) in obj
  {
    Get(obj, key).GetOr(default)
  }

  /** The Python class name of the value json.loads produces for `j` (used in exception texts). */
  function TypeName(j: Json): string {
    match j
    case JNull => "NoneType"
    case JBool(_) => "bool"
    case JInt(_) => "int"
    case JStr(_) => "str"
    case JArray(_) => "list"
    case JObject(_) => "dict"
  }
}
