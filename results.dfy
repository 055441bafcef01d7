/** Error-carrying results shared by the store client, the entity layer and
    the context accessors. */
module Results {

  /** A value or the error that prevented computing it. */
  datatype Result<+T, +E> = Ok(value: T) | Err(error: E)

  /** Success, or the error of an operation that returns nothing else. */
  datatype Outcome<+E> = Pass | Fail(error: E)
}
