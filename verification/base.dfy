/** Small shared vocabulary: optional values, partial-update fields,
    identifiers and the HTTP outcomes the endpoint layer produces. */
module Base {

  /** A value that may be absent (Python's `Optional`, TypeScript's `?`). */
  datatype Option<+T> = None | Some(value: T) {
    function GetOr(default: T): T {
      match this
      case Some(v) => v
      case None => default
    }
  }

  /** A field of a partial-update payload: either left out of the request
      (pydantic "unset") or given explicitly with a value. */
  datatype Patch<+T> = Unset | Given(value: T) {
    function Or(current: T): T {
      match this
      case Given(v) => v
      case Unset => current
    }
  }

  /** Row identifiers; the database's UUIDs are modelled as naturals. */
  type Id = nat

  function Min(a: int, b: int): int { if a <= b then a else b }
}

/** The outcomes the HTTP handlers map their results to. */
module Http {

  datatype Response<+T> =
    | Created(body: T)          // 201
    | Ok(body: T)               // 200
    | NoContent                 // 204
    | BadRequest(detail: string) // 400
    | NotFound(detail: string)  // 404
    | Unprocessable             // 422, request body failed schema validation
}
