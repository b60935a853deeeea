/** The client-error responses the views return instead of raising. */
module Http {

  /** A 404 (`NotFound`) or a 400 (`BadRequest`) response carrying the view's
      `{"error": message}` body. */
  datatype ApiError = NotFound(message: string) | BadRequest(message: string)
}
