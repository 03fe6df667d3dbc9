/** Small value wrappers shared by the other modules. */
module Wrappers {

  /** A value that may be absent: a JavaScript `null`, `undefined` or missing property. */
  datatype Option<+T> = None | Some(value: T) {
    function GetOr(default: T): T {
      match this
      case Some(v) => v
      case None => default
    }
  }

  /** The outcome of one HTTP request: the decoded response body, or a failure
      carrying the server's `message` field when the failure response had one. */
  datatype Reply<+T> = Received(body: T) | RequestFailed(message: Option<string>)
}
