// Failure-carrying results shared by every module.
module Wrappers {

  datatype Option<+T> = None | Some(value: T) {
    function GetOr(default: T): T {
      if Some? then value else default
    }
  }

  // A thrown exception. Inside an interactive transaction it rolls every write back.
  datatype Error =
    | NotFound
    | BadRequest
    | Conflict
    | Unauthorized
    | Unavailable
    | Internal

  datatype Result<+T> = Success(value: T) | Failure(error: Error) {
    function GetOr(default: T): T {
      if Success? then value else default
    }
  }
}
