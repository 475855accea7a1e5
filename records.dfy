/** Records of the resource fixtures as parsed JSON objects, and lookup by id. */
module Records {
  import opened Common

  datatype Json =
    | JNull
    | JBool(b: bool)
    | JNumber(n: real)
    | JString(s: string)
    | JArray(items: seq<Json>)
    | JObject(fields: map<string, Json>)

  /** A parsed fixture record: field name to value. */
  type Record = map<string, Json>

  /** `record.id === id`: the record has an `id` field holding exactly this string. */
  predicate HasId(r: Record, id: string)
  {
    "id" in r && r["id"] == JString(id)
  }

  /** The position of the first record with this id. */
  function FindById(records: seq<Record>, id: string): Option<nat>
  {
    FindFirst(records, (r: Record) => HasId(r, id))
  }
}
