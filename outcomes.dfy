/** Optional values and the outcome of a call that may raise, as the analyzer's
    Python code sees them. */
module Outcomes {

  datatype Option<+T> = None | Some(value: T)

  /** The exceptions the `/analyze` path distinguishes: FastAPI's `HTTPException`
      (carrying a status code and a detail string) and every other exception
      (carrying `str(e)`). */
  datatype Exception =
    | HttpException(status: nat, detail: string)
    | OtherException(message: string)

  /** What a call returned, or the exception it raised. */
  datatype Outcome<+T> = Returned(value: T) | Raised(error: Exception)
}
