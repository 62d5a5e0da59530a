/** The link shortener client: one GET request to the shortening service,
    whose reply is an input here, and the fallback to the original link. */
module Shortener {
  import opened Wrappers

  /** What reading and parsing the body of a successful reply gave: the
      body could not be read, it was not the expected JSON object, or it
      held the `shorturl` field. */
  datatype Body = BodyUnreadable | Malformed | Parsed(shorturl: string)

  /** The outcome of the request: it failed in transport, or the service
      answered with an HTTP status and a body. */
  datatype Reply = RequestFailed | Replied(status: nat, body: Body)

  /** Why shortening failed; the caller does not distinguish them. */
  datatype ShortenError = TransportError | BodyReadError | JsonError

  /** An HTTP status in the 2xx range. */
  predicate IsSuccess(status: nat)
  {
    200 <= status <= 299
  }

  /** A reply that carries a short link. */
  predicate Shortened(reply: Reply)
  {
    reply.Replied? && IsSuccess(reply.status) && reply.body.Parsed?
  }

  /** Shortens `url`: the parsed short link on a successful reply, the
      original URL on a non-success status, and an error when the request
      or the body fails. */
  function Shorten(url: string, reply: Reply): (r: Result<string, ShortenError>)
    ensures r.Err? <==> reply.RequestFailed? || (IsSuccess(reply.status) && !reply.body.Parsed?)
    ensures Shortened(reply) ==> r == Ok(reply.body.shorturl)
    ensures reply.Replied? && !IsSuccess(reply.status) ==> r == Ok(url)
  {
    match reply
    case RequestFailed => Err(TransportError)
    case Replied(status, body) =>
      if IsSuccess(status) then
        match body
        case BodyUnreadable => Err(BodyReadError)
        case Malformed => Err(JsonError)
        case Parsed(s) => Ok(s)
      else
        Ok(url)
  }

  /** The link the handler puts into the notification: the result of
      `Shorten`, or the original link when it fails. Every failure of the
      shortener degrades to the unshortened link. */
  function MessageUrl(link: string, reply: Reply): (url: string)
    ensures Shortened(reply) ==> url == reply.body.shorturl
    ensures !Shortened(reply) ==> url == link
  {
    match Shorten(link, reply)
    case Ok(shortened) => shortened
    case Err(_) => link
  }
}
