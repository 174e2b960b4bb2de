/** JSON-like configuration values, as read from and written to the text
    databases (nested dictionaries, lists and scalars). Values are immutable,
    so a deep copy of a value is the value itself. */
module Json {
  datatype Json =
    | JNull
    | JBool(b: bool)
    | JInt(i: int)
    | JStr(s: string)
    | JList(items: seq<Json>)
    | JObject(fields: map<string, Json>)
}
