/** Value types shared by the whole model: an optional value, a result with a
    failure, and the JSON-like values that documents, index actions and search
    queries are made of. */
module Values {

  datatype Option<+T> = None | Some(value: T)

  datatype Result<+T, +E> = Ok(value: T) | Err(error: E)

  /** A scalar the model carries without interpreting it (a float, a timestamp). */
  datatype Opaque = Opaque(token: int)

  /** A JSON-like value, as produced by the encoders and serialised by `json.dumps`. */
  datatype Json =
    | JNull
    | JBool(b: bool)
    | JInt(i: int)
    | JStr(s: string)
    | JOpaque(o: Opaque)
    | JArray(items: seq<Json>)
    | JObject(fields: map<string, Json>)

  /** An encoded document: a dictionary from field names to values. */
  type Doc = map<string, Json>
}
