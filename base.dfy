/** Values shared by the command modules: optional values, results with an
    error message, and the module records the listing provider returns. */
module Base {

  datatype Option<+T> = None | Some(value: T)

  /** A completion-callback outcome: `done(err)` or `done(null, value)`. */
  datatype Result<+T> = Failure(error: string) | Success(value: T)

  /** One module found under the root directory. */
  datatype ModuleRecord = ModuleRecord(name: string, directory: string)

  /** JavaScript truthiness of a value that is either undefined or a string:
      undefined and the empty string are falsy. */
  predicate Truthy(s: Option<string>)
  {
    s.Some? && s.value != ""
  }
}
