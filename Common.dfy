/** Values shared by every part of the marketplace model: optional values,
    the principal that the authentication gate hands to each request handler,
    and the outcome of a request handler. */
module Common {

  /** Identifier of a user document (customer, seller or admin). */
  type UserId = nat

  datatype Option<T> = None | Some(value: T)

  datatype Role = Customer | Seller | Admin

  /** The authenticated caller of a request handler. */
  datatype Principal = Principal(id: UserId, role: Role)

  /** Why a request handler refused a request, by the HTTP status it answers with. */
  datatype Failure =
    | BadRequest(message: string)   // 400: input or state not acceptable
    | Forbidden(message: string)    // 403: the caller does not own the document
    | NotFound(message: string)     // 404: a referenced document does not exist
    | ServerError(message: string)  // 500: the document store refused to save (schema validation)

  /** The result of a request handler: a value on success, a failure otherwise. */
  datatype Outcome<T> = Success(value: T) | Fail(failure: Failure)

  /** The result of a validation step that either lets a request through or
      rejects it with a user-facing message. */
  datatype Verdict = Accept | Reject(message: string)
}
