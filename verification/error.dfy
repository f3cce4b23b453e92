/** The broker's error taxonomy and its client-facing messages. */
module Errors {

  /** The kinds of error a handler reports to clients. */
  datatype HTTPError =
    | BadRequest
    | Unauthorized
    | Forbidden
    | FileNotFound
    | ServerError
    | RemoteServiceUnavailable
    | AuthorizationTokenMissMatch
    | NotAValidHost
    | SessionExpired

  /** The message sent to clients for each kind of error. */
  function Message(e: HTTPError): (m: string)
    ensures |m| > 0
  {
    match e
    case BadRequest => "This request is incorrect. Please check your request."
    case Unauthorized => "You have to be authorized to access this api."
    case Forbidden => "You have no premission to access this api."
    case FileNotFound => "Cannot found api. Please check your api path."
    case ServerError => "Our server is unreachable this time."
    case RemoteServiceUnavailable => "Remote service is unavailable"
    case AuthorizationTokenMissMatch => "This authorization token is not for this api"
    case NotAValidHost => "This is not a valid host"
    case SessionExpired => "This login session is expired, please login again"
  }

  /** The length of each message; only Unauthorized and FileNotFound share one. */
  function MessageLength(e: HTTPError): nat
  {
    match e
    case BadRequest => 53
    case Unauthorized => 45
    case Forbidden => 42
    case FileNotFound => 45
    case ServerError => 36
    case RemoteServiceUnavailable => 29
    case AuthorizationTokenMissMatch => 44
    case NotAValidHost => 24
    case SessionExpired => 49
  }

  lemma LengthOfMessage(e: HTTPError)
    ensures |Message(e)| == MessageLength(e)
  {
  }

  /** No two kinds of error share a message, so a client can tell them apart by message alone. */
  lemma MessagesDistinct(a: HTTPError, b: HTTPError)
    ensures Message(a) == Message(b) ==> a == b
  {
    LengthOfMessage(a);
    LengthOfMessage(b);
    assert Message(Unauthorized) != Message(FileNotFound);
  }

  /** Why fetching the short profile failed. */
  datatype FetchError = AuthError | FetchFailed
}
