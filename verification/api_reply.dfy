/** The replies the persistence routes send: a status with a value, or one of the
    route failures with its status and message. */
module ApiReply {
  import opened Options
  import MediaStore

  datatype Failure = Unauthorized | MissingFields | MissingId | NotFound | ServerError(message: string)

  function Status(f: Failure): (code: nat)
    ensures 400 <= code < 600
    ensures code == 401 <==> f.Unauthorized?
    ensures code == 404 <==> f.NotFound?
    ensures code == 500 <==> f.ServerError?
  {
    match f
    case Unauthorized => 401
    case MissingFields => 400
    case MissingId => 400
    case NotFound => 404
    case ServerError(_) => 500
  }

  /** The `error` text of the JSON body. */
  function Message(f: Failure): string
  {
    match f
    case Unauthorized => "User is unauthorized"
    case MissingFields => "Missing required fields"
    case MissingId => "Image ID is required"
    case NotFound => "Image not found"
    case ServerError(m) => m
  }

  datatype Reply<T> = Ok(status: nat, value: T) | Fail(failure: Failure)

  /** A reply together with the store after the request. */
  datatype Step<T> = Step(reply: Reply<T>, store: MediaStore.Store)

  /** `session && session.user?.email`: a session with a non-empty email. */
  predicate Authorized(sessionEmail: Option<string>)
  {
    sessionEmail.Some? && |sessionEmail.value| > 0
  }
}
