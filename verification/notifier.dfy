/** The notifier client: one POST request to the push-notification service
    with a bearer token. Its outcome is an input here. */
module Notifier {
  import opened Wrappers

  /** The outcome of dispatch: the bearer token did not form a valid header
      value, the request failed in transport, or the service answered with
      an HTTP status. */
  datatype Delivery = HeaderRejected | TransportFailed | Responded(status: nat)

  /** The only error `Send` returns. */
  datatype SendError = InvalidHeaderValue

  /** Sends a notification. Transport failures and error statuses are
      logged inside and reported as success; only an unusable token header
      is an error. */
  function Send(delivery: Delivery): (r: Result<(), SendError>)
    ensures r.Err? <==> delivery.HeaderRejected?
  {
    if delivery.HeaderRejected? then Err(InvalidHeaderValue) else Ok(())
  }

  /** Sends a notification and swallows the error: the result is the error
      that is logged, if any, and nothing is returned to the caller to act
      on. */
  function GetMsg(delivery: Delivery): (logged: Option<SendError>)
    ensures logged.Some? <==> delivery.HeaderRejected?
  {
    match Send(delivery)
    case Ok(_) => None
    case Err(e) => Some(e)
  }
}
