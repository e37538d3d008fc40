/** Failure-carrying results shared by every service of the backend.
    Each constructor of `Error` stands for one exception class the services
    throw; the message is the text the exception carries. */
module Common {

  datatype Option<T> = None | Some(value: T)

  /** The exceptions the services and controllers raise. `PlainError` is a
      bare `Error` (an HTTP 500 once it reaches the framework), and
      `QueryFailed` a statement the database refuses, with its SQLSTATE. */
  datatype Error =
    | NotFound(message: string)
    | Conflict(message: string)
    | Forbidden(message: string)
    | BadRequest(message: string)
    | Unauthorized(message: string)
    | PayloadTooLarge(message: string)
    | PlainError(message: string)
    | QueryFailed(code: string)

  /** The SQLSTATE of a unique or primary key violation. */
  const UNIQUE_VIOLATION := "23505"

  datatype Result<T> = Ok(value: T) | Err(error: Error)

  /** The `{ok, message}` body a delete returns. */
  datatype Mensaje = Mensaje(ok: bool, message: string)

  /** A check that either passes or raises. */
  datatype Outcome = Pass | Fail(error: Error)

  /** JavaScript truthiness of an optional string: present and non-empty. */
  predicate TruthyStr(s: Option<string>)
  {
    s.Some? && s.value != ""
  }

  /** JavaScript truthiness of an optional number: present and not zero. */
  predicate TruthyInt(n: Option<int>)
  {
    n.Some? && n.value != 0
  }

  /** `a || b` on optional strings: the supplied value when truthy, else `b`. */
  function OrStr(a: Option<string>, b: string): (r: string)
    ensures TruthyStr(a) ==> r == a.value
    ensures !TruthyStr(a) ==> r == b
  {
    if TruthyStr(a) then a.value else b
  }

  /** The value a partial payload writes into a column: a supplied key
      overwrites it, an absent key keeps the old value. */
  function Patch<T>(supplied: Option<T>, current: T): (r: T)
    ensures supplied.Some? ==> r == supplied.value
    ensures supplied.None? ==> r == current
  {
    if supplied.Some? then supplied.value else current
  }

  /** The value a nullable column takes on insert: the supplied value, or
      `null` when the key is absent. */
  function Nullable<T>(supplied: Option<Option<T>>): (r: Option<T>)
    ensures supplied.Some? ==> r == supplied.value
    ensures supplied.None? ==> r == None
  {
    if supplied.Some? then supplied.value else None
  }
}
