/** Values shared by the log consumer and the ingestion task. */
module Values {

  /** A Java reference that may be null. */
  datatype Option<+T> = None | Some(value: T)

  /** The outcome of an operation that may throw instead of returning. */
  datatype Result<+R, +E> = Success(value: R) | Failure(error: E)

  /**
   * A Java `Object` held in an outputs map or in a recipe document: the
   * shapes a JSON or YAML parser produces.
   */
  datatype Value =
    | Null
    | Bool(b: bool)
    | Number(n: int)
    | Str(s: string)
    | List(items: seq<Value>)
    | Object(fields: map<string, Value>)

  /** A `Map<String, Object>`: a recipe document or a set of outputs. */
  type Document = map<string, Value>
}
