/** Option and Result types shared by the CRM model, and the errors its
    operations report. */
module Results {

  datatype Option<+T> = None | Some(value: T) {
    /** The wrapped value, or `default` when there is none. */
    function GetOr(default: T): T {
      match this
      case Some(v) => v
      case None => default
    }
  }

  /** The ways a service call fails: a `BadRequestException` carrying its
      message, a Mongoose validation failure naming the paths that failed,
      or the database refusing a second document with an existing `_id`. */
  datatype Error =
    | BadRequest(message: string)
    | ValidationFailed(paths: seq<string>)
    | DuplicateKey(id: string)

  datatype Result<+T> = Ok(value: T) | Err(error: Error)
}
