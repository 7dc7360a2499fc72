/** The back end's error discipline: an HTTPException carries a status and a
    detail; an endpoint re-raises HTTPExceptions unchanged and turns every
    other exception into a 500 whose detail is a fixed prefix followed by the
    exception's message. */
module Http {

  datatype HttpError = HttpError(status: nat, detail: string)

  /** What a `try` block in an endpoint can raise. */
  datatype Raised = HttpRaised(error: HttpError) | OtherRaised(message: string)

  /** `except HTTPException: raise` / `except Exception as e: raise
      HTTPException(500, prefix + str(e))`. */
  function ToHttpError(r: Raised, prefix: string): (e: HttpError)
    ensures r.HttpRaised? ==> e == r.error
    ensures r.OtherRaised? ==> e.status == 500 && e.detail == prefix + r.message
  {
    match r
    case HttpRaised(err) => err
    case OtherRaised(msg) => HttpError(500, prefix + msg)
  }
}
