/** Vocabulary shared by every part of the dashboard backend model:
    optional values, fields of a request that may be left out, the error
    results of the HTTP endpoints, and the scalar types the records use. */
module Common {

  /** Python's `None` or a value. */
  datatype Option<+T> = None | Some(value: T) {
    function GetOr(default: T): T {
      match this
      case Some(v) => v
      case None => default
    }
  }

  /** One field of a request body: left out by the client (Pydantic's
      "unset"), or given a value. An update touches only given fields;
      a create request falls back to the schema default. */
  datatype Field<+T> = Omitted | Provided(value: T) {
    function GetOr(current: T): T {
      match this
      case Provided(v) => v
      case Omitted => current
    }
  }

  /** The ways an endpoint fails: an HTTP 404 carrying the handler's
      detail text, or the database rejecting a second row with the same
      primary key (an integrity error the handlers do not catch). */
  datatype Error = NotFound(detail: string) | DuplicateKey(key: string)

  datatype Result<+T> = Ok(value: T) | Err(error: Error)

  /** A point in time, as read from the server clock (`datetime.utcnow()`),
      in whole seconds. */
  type Time = int

  /** A dollar amount. The backend only stores and copies costs. */
  type Cost = real

  /** A JSON column or request body, kept as its serialised text. */
  type Json = string

  /** Python truthiness of an optional string query parameter:
      `None` and `""` are both false. */
  predicate Truthy(s: Option<string>) {
    s.Some? && s.value != ""
  }
}
