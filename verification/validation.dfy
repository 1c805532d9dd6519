/** The shape of a request-validation report: for each field, the first
    declared constraint it fails. An empty report means the request body
    is accepted; a non-empty one is answered with 422. */
module Validation {
  import opened Base

  datatype Constraint = MinLength(min: nat) | MaxLength(max: nat) | AtLeast(bound: int) | Pattern

  datatype Violation = Violation(field: string, constraint: Constraint)

  /** Report of a string field with length bounds (first failing bound only). */
  function LengthCheck(field: string, s: string, min: nat, max: Option<nat>): seq<Violation> {
    if |s| < min then [Violation(field, MinLength(min))]
    else if max.Some? && |s| > max.value then [Violation(field, MaxLength(max.value))]
    else []
  }

  /** Report of an optional string field with an upper length bound. */
  function OptionalLengthCheck(field: string, s: Option<string>, max: nat): seq<Violation> {
    if s.Some? then LengthCheck(field, s.value, 0, Some(max)) else []
  }
}
