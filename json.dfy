/** Decoded JSON values.  The text encoding and decoding of JSON is done by
    library code (Python's json module, Go's encoding/json) that is not part
    of this model: a message on the wire is modelled by the value it encodes. */
module Json {

  datatype Json =
    | JNull
    | JBool(b: bool)
    | JNumber(n: int)
    | JString(s: string)
    | JArray(items: seq<Json>)
    | JObject(fields: map<string, Json>)

  /** The two-member object `{"success": ..., key: value}` both workers reply with. */
  function Reply(success: bool, key: string, value: string): (j: Json)
    requires key != "success"
    ensures j.JObject? && j.fields.Keys == {"success", key}
    ensures j.fields["success"] == JBool(success) && j.fields[key] == JString(value)
  {
    JObject(map["success" := JBool(success), key := JString(value)])
  }
}
