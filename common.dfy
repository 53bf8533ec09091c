/** Values shared by the session layer: optional values and JavaScript
    truthiness, the objects the code throws, and the user profile. */
module Common {

  datatype Option<+T> = None | Some(value: T)

  datatype Result<+T, +E> = Success(value: T) | Failure(error: E)

  /** The result of an operation that returns nothing or throws. */
  datatype Outcome<+E> = Pass | Fail(error: E)

  /** A string-or-null is truthy exactly when it is a non-empty string. */
  predicate Truthy(s: Option<string>)
  {
    s.Some? && s.value != ""
  }

  /** A thrown value, as far as the code inspects it: `name` (present on
      built-in errors), `message`, and `statusCode` (present only on the
      HTTP errors the API client raises). A built-in error always has a
      `message` (the empty string when none was given), so `message == None`
      stands only for a plain object thrown without that property or with
      `message: null`. A thrown `null` or `undefined` and a `message` that
      is not a string are not represented. */
  datatype Thrown = Thrown(name: Option<string>, message: Option<string>, statusCode: Option<int>)

  /** `new Error(message)`. */
  function ErrorObject(message: string): Thrown
  {
    Thrown(Some("Error"), Some(message), None)
  }

  /** The profile the backend returns (the `User` interface of the API client).
      The optional nested contractor record is never read by the session layer. */
  datatype User = User(id: string, name: string, email: string, role: string, isActive: bool, createdAt: string)

  const CONTRACTOR := "CONTRACTOR"

  /** A setting resolved once at start-up as `extra || fallback`: the build-time
      value wins when it is a non-empty string. */
  function ResolveSetting(extra: Option<string>, fallback: string): (r: string)
    ensures Truthy(extra) ==> r == extra.value
    ensures !Truthy(extra) ==> r == fallback
  {
    if Truthy(extra) then extra.value else fallback
  }
}
