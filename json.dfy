/**
 * The JSON values the deployment client inspects, as an already-built tree
 * (no text is parsed here). An object keeps its members by key, an array its
 * elements in order; numbers, booleans and JSON null are all `JOther`, since
 * the client treats them alike.
 */
module Json {

  datatype JsonValue =
    | JObject(members: map<string, JsonValue>)
    | JArray(elements: seq<JsonValue>)
    | JString(text: string)
    | JOther
}
