/**
 * Values shared by every service of the model: optional values, the
 * exceptions the services throw (as data), and the outcome of an operation
 * that only changes the store.
 */
module Common {

  datatype Option<T> = None | Some(value: T)
  {
    function GetOr(default: T): T
    {
      if Some? then value else default
    }
  }

  /** The kinds of exception the services raise (NestJS HTTP exceptions and plain JS errors). */
  datatype Error =
    | NotFound(what: string)          // NotFoundException
    | BadRequest(reason: string)      // BadRequestException
    | InternalError(reason: string)   // InternalServerErrorException or a plain Error
    | TypeError(reason: string)       // a JS TypeError (property of undefined or null)

  datatype Result<T> = Ok(value: T) | Err(error: Error)

  /** The outcome of an operation whose effect is on the store only. */
  datatype Outcome = Pass | Fail(error: Error)
}
