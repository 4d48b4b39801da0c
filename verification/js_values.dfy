/** The JavaScript values that flow through the adapter: query parameters, the
    extra cache-key properties, and request responses. Their structure matters
    only to the opaque collaborators (key derivation and JSON); the adapter
    itself never looks inside them. */
module JsValues {

  datatype Value =
    | Undefined
    | Null
    | Bool(b: bool)
    | Number(n: int)
    | Str(s: string)
    | Array(items: seq<Value>)
    | Object(properties: map<string, Value>)

}
