/** Shared value types of the voice presence service: optional values, the
    failures a service or the database can raise, and results carrying either. */
module Common {

  /** A value that may be absent (the source's `null` / `undefined`). */
  datatype Option<+T> = None | Some(value: T) {
    /** The value, or `default` when absent (the source's `x ?? default`). */
    function GetOr(default: T): T {
      match this
      case Some(v) => v
      case None => default
    }
  }

  /** What a handler can fail with. `ApiError` is the service layer's own
      error class; `StoreError` stands for an error raised by the database
      driver (a duplicate key, a lost connection); `ValidationError` is a
      request body rejected by the schema validator. */
  datatype Failure =
    | ApiError(status: int, message: string)
    | StoreError(code: string)
    | ValidationError
  {
    /** The HTTP status the server's error handler answers with. */
    function Status(): int {
      match this
      case ApiError(s, _) => s
      case StoreError(_) => 500
      case ValidationError => 400
    }
  }

  datatype Result<+T> = Ok(value: T) | Err(error: Failure)

  /** The answer of an HTTP route: the status, the body (if any) and the
      state of the tables and the bus after it. */
  datatype Reply<B, S> = Reply(status: int, body: Option<B>, state: S)

  /** The answer to a rejected request: the error's status, no body, and
      nothing changed. */
  function Reject<B, S>(failure: Failure, st: S): (r: Reply<B, S>)
    requires failure.Status() >= 400
    ensures r.status >= 400 && r.state == st && r.body.None?
  {
    Reply(failure.Status(), None, st)
  }

  /** The MySQL driver's error code for a primary-key violation. */
  const DuplicateEntry: string := "ER_DUP_ENTRY"

  /** An `UPDATE` whose `SET` list is empty: no table here has a column
      that sets itself on update, so the statement has nothing to set and
      fails before any row is looked at. It is not an `ApiError`, so it is
      answered with 500. */
  const EmptyUpdate: Failure := StoreError("empty SET list")

  /** The smaller of two integers (the source's `Math.min`). */
  function Min(a: int, b: int): int {
    if a <= b then a else b
  }

  /** The larger of two integers (the source's `Math.max`). */
  function Max(a: int, b: int): int {
    if a >= b then a else b
  }

  /** A JavaScript value received from a client, as far as the handlers
      inspect it: a string, or anything else (a number, an object,
      `undefined`). */
  datatype JsValue = JsString(s: string) | JsOther {
    /** `typeof v === "string" && v` — a non-empty string. */
    predicate IsNonEmptyString() {
      JsString? && s != ""
    }
  }
}
