/**
 * JSON values as Python's `json.loads` returns them (dict, list, str, number,
 * bool, None). The parser itself is not modelled: every operation that parses
 * takes a `JsonParser` argument, and `None` stands for `json.JSONDecodeError`.
 */
module JsonValue {
  import opened Wrappers

  datatype Json =
    | JNull
    | JBool(b: bool)
    | JNumber(n: real)
    | JString(s: string)
    | JArray(items: seq<Json>)
    | JObject(fields: map<string, Json>)

  /** `json.loads`: a parse result, or `None` when the text is not JSON. */
  type JsonParser = string -> Option<Json>

  /** `d.get(key, default)` on a dict. */
  function Get(fields: map<string, Json>, key: string, default: Json): Json {
    if key in fields then fields[key] else default
  }

  /** A Python list of strings as a JSON array. */
  function Strings(ss: seq<string>): (j: Json)
    ensures j.JArray? && |j.items| == |ss|
    ensures forall i :: 0 <= i < |ss| ==> j.items[i] == JString(ss[i])
  {
    JArray(seq(|ss|, i requires 0 <= i < |ss| => JString(ss[i])))
  }
}
