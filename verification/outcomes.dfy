/** Errors raised by the test-matrix planner, and the two shapes its results take. */
module Outcomes {

  /** The exceptions the planner raises, one constructor per raise site. */
  datatype Error =
    | NoTestObjects(spec: string)            // ValueError: an object spec without keys
    | UnknownSpec(spec: string)              // KeyError: no promises for this object spec
    | UnknownFixture(fixture: string)        // KeyError: a selected id that has no promise
    | EmptySelection(which: string)          // ValueError: a `which` pattern that selects nothing
    | SpecNotFound(master: string, spec: string)  // Exception raised by get_objspec

  /** What a procedure without a return value ends with: normally, or by raising. */
  datatype Status = Done | Failed(error: Error)

  /** A value, or the error raised instead of returning it. */
  datatype Result<T> = Ok(value: T) | Err(error: Error)
}
