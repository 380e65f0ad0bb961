/** Values shared by the backend and the front-end models: optional values,
    results that carry either a value or an error, and JSON documents as a
    JSON library decodes them. */
module Common {

  /** A value that may be absent: Java's `null`, JavaScript's `null`/`undefined`. */
  datatype Option<+T> = None | Some(value: T)

  /** Either a value or the error that stopped the computation. Supports `:-`,
      which models an exception propagating out of the rest of a Java or
      JavaScript block. */
  datatype Result<+T, +E> = Ok(value: T) | Err(error: E) {
    predicate IsFailure() { Err? }

    function PropagateFailure<U>(): Result<U, E>
      requires Err?
    {
      Err(error)
    }

    function Extract(): T
      requires Ok?
    {
      value
    }
  }

  /** A JSON document as decoded into maps, lists and boxed scalars. Numbers
      with a fraction are not represented. */
  datatype Json =
    | JNull
    | JBool(b: bool)
    | JInt(n: int)
    | JStr(s: string)
    | JList(items: seq<Json>)
    | JObj(fields: map<string, Json>)

  /** `Map.get`: the value stored under `key`, or `null` when there is none. */
  function Get(fields: map<string, Json>, key: string): Json
  {
    if key in fields then fields[key] else JNull
  }
}
