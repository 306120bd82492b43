/** JSON-shaped values: the arguments and responses passed to the
    function-call prompts, and the parameter schemas of function
    descriptions. */
module JsonValues {

  datatype Json =
    | JNull
    | JBool(b: bool)
    | JNumber(n: real)
    | JString(s: string)
    | JArray(items: seq<Json>)
    | JObject(members: seq<(string, Json)>)
}
