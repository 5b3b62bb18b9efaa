/** Values shared by every controller: identifiers, request fields, failures and the token claims. */
module Records {

  /** Document identifiers, kept as the strings the schemas declare. */
  type UserId = string
  type ProductId = string

  datatype Option<+T> = None | Some(value: T)

  /** A controller's error response: the HTTP status and the text it sends. */
  datatype Failure = Failure(status: nat, message: string)

  /** A controller's outcome: the success payload, or the error response. */
  datatype Result<+T> = Ok(value: T) | Err(failure: Failure)

  /**
   * A request field as the controllers test it: `None` stands for null or undefined,
   * and the empty string counts as missing too.
   */
  predicate Present(field: Option<string>)
  {
    field.Some? && field.value != ""
  }

  /** The claims carried by an access token and attached to the request as `req.user`. */
  datatype Claims = Claims(id: UserId, email: string, isAdmin: bool)

  /** A stored user document; `password` holds the one-way hash. */
  datatype User = User(
    id: UserId,
    firstName: string,
    lastName: string,
    email: string,
    mobileNo: string,
    password: string,
    isAdmin: bool)

  const ACCESS_FORBIDDEN := Failure(403, "Access Forbidden")
  const INVALID_INPUT := Failure(400, "Invalid input")
}
