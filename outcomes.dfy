/** The abstract outcome of an outbound HTTP call made by the relay. */
module Outcomes {

  datatype Option<+T> = None | Some(value: T)

  /**
   * What a caught error exposes to the relay's handlers: the HTTP status of
   * the upstream response, when there was one (`err.response?.status`), and
   * the error's code, when it has one (`err.code`, such as "ECONNREFUSED").
   */
  datatype CallError = CallError(status: Option<int>, code: Option<string>)

  /** A call either returns its response data or throws a `CallError`. */
  datatype Outcome<+T> = Ok(value: T) | Err(error: CallError)

  /** A call whose response data the relay does not read: `Some` is the error it threw. */
  type Fault = Option<CallError>
}
