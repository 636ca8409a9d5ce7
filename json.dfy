/**
 * JSON values as Python's `json` module produces them, and the library calls the
 * core makes on them. `json.loads`, `json.dumps` and the fenced-block `re.search`
 * are not modelled: they are fields of a `Library` value handed to the core.
 */
module JsonValues {
  import opened Optional

  datatype Json =
    | JNull
    | JBool(b: bool)
    | JNumber(literal: string)
    | JString(s: string)
    | JArray(items: seq<Json>)
    | JObject(fields: map<string, Json>)

  /** A Python `dict` with string keys. */
  type JsonObject = map<string, Json>

  /** What `json.loads(text)` does: return a value, raise `JSONDecodeError`, or raise anything else. */
  datatype Loaded = Parsed(value: Json) | DecodeError | OtherFailure

  /**
   * The library calls: `json.loads`, `json.dumps`, and the search for a fenced
   * code block holding a tool call (`group(1)` of the match, or None).
   */
  datatype Library = Library(
    loads: string -> Loaded,
    dumps: Json -> string,
    fencedBlock: string -> Option<string>)

  /** Python's `d.get(key, default)`. */
  function Get(d: JsonObject, key: string, default: Json): Json {
    if key in d then d[key] else default
  }
}
