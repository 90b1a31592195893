/** The dynamic values an action payload can carry before validation. A key
    missing from an object stands for a field that is `undefined`. */
module Json {
  datatype Json =
    | JNull
    | JBool(b: bool)
    | JNumber(n: int)
    | JString(s: string)
    | JArray(items: seq<Json>)
    | JObject(fields: map<string, Json>)

  /** The object with only the keys in `keys` kept: what a non-strict object
      schema returns from `parse`, which drops keys it does not declare. */
  function Restrict(j: Json, keys: set<string>): (r: Json)
    requires j.JObject?
    ensures r.JObject?
    ensures forall k :: k in r.fields <==> k in j.fields && k in keys
    ensures forall k :: k in r.fields ==> r.fields[k] == j.fields[k]
  {
    JObject(map k | k in j.fields && k in keys :: j.fields[k])
  }
}
