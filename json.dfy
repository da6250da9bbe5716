/**
 * JSON values as in section 3 of RFC 8259: null, true/false, numbers, strings, arrays and
 * objects. The writers build such values and a JSON text encoder (not modelled) prints them;
 * the reader receives them from a JSON text decoder (not modelled). Numbers are modelled as
 * reals; an object is a map from member names to values, as a Python dict compares.
 */
module Json {

  datatype Json =
    | JNull
    | JBool(b: bool)
    | JNumber(n: real)
    | JString(s: string)
    | JArray(items: seq<Json>)
    | JObject(fields: map<string, Json>)
}
