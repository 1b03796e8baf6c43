/**
 * Which stream and session events the bridge treats as fatal, and the HTTP status codes that
 * count as an authorisation failure.
 */
module Errors {
  import opened Wrappers
  import Text

  /** The fatal conditions a stream or session can report (`Http2Error`). */
  datatype Http2Error = Closed | Failure | Timeout | Reset | Idle | GoAway | Unauthorized

  /** Who reports an error: a GET/PUT stream, the SSE stream, the session, or the keep-alive check of the bridge itself. */
  datatype ListenerKind = ContentListener | EventListener | SessionListener | BridgeSelf

  /** The lifecycle callbacks Jetty delivers to a listener. */
  datatype Signal = OnClose | OnFailure | OnGoAway | OnReset | OnIdleTimeout | OnTimeout

  const UNAUTHORIZED_401: int := 401
  const FORBIDDEN_403: int := 403

  /**
   * The error a listener reports for a lifecycle callback, or None when it ignores the callback:
   * a GET/PUT stream reports its idle timeout and its timeout; the SSE stream reports being
   * closed or reset and ignores idle timeouts; the session reports close, failure, GOAWAY and
   * reset and ignores idle timeouts.
   */
  function Classify(kind: ListenerKind, signal: Signal): (r: Option<Http2Error>)
    ensures signal == OnIdleTimeout ==> (r.Some? <==> kind == ContentListener)
    ensures r == Some(GoAway) <==> kind == SessionListener && signal == OnGoAway
    ensures r != Some(Unauthorized)
    ensures kind == BridgeSelf ==> r.None?
    ensures kind == ContentListener ==> (r.Some? <==> signal in {OnIdleTimeout, OnTimeout})
    ensures kind == EventListener ==> (r.Some? <==> signal in {OnClose, OnReset})
    ensures kind == SessionListener ==> (r.Some? <==> signal in {OnClose, OnFailure, OnGoAway, OnReset})
  {
    match kind
    case ContentListener =>
      (match signal
       case OnIdleTimeout => Some(Idle)
       case OnTimeout => Some(Timeout)
       case _ => None)
    case EventListener =>
      (match signal
       case OnClose => Some(Closed)
       case OnReset => Some(Reset)
       case _ => None)
    case SessionListener =>
      (match signal
       case OnClose => Some(Closed)
       case OnFailure => Some(Failure)
       case OnGoAway => Some(GoAway)
       case OnReset => Some(Reset)
       case _ => None)
    case BridgeSelf => None
  }

  /** The error a received HEADERS frame reports: only a response with status 401 or 403 is fatal. */
  function HeaderError(isResponse: bool, status: int): (r: Option<Http2Error>)
    ensures r.Some? <==> isResponse && (status == UNAUTHORIZED_401 || status == FORBIDDEN_403)
    ensures r.Some? ==> r.value == Unauthorized
  {
    if isResponse && (status == UNAUTHORIZED_401 || status == FORBIDDEN_403) then Some(Unauthorized) else None
  }

  /** The name of the enum constant, which is what `toString` returns for it. */
  function ConstantName(error: Http2Error): string {
    match error
    case Closed => "CLOSED"
    case Failure => "FAILURE"
    case Timeout => "TIMEOUT"
    case Reset => "RESET"
    case Idle => "IDLE"
    case GoAway => "GO_AWAY"
    case Unauthorized => "UNAUTHORIZED"
  }

  /** The text of the exception an error is wrapped in: "HTTP 2 stream " followed by the lower-case constant name. */
  function ErrorMessage(error: Http2Error): (m: string)
    ensures m == "HTTP 2 stream " + Text.ToLower(ConstantName(error))
    ensures |m| > |"HTTP 2 stream "| && m[..|"HTTP 2 stream "|] == "HTTP 2 stream "
  {
    "HTTP 2 stream " +
    match error
    case Closed => "closed"
    case Failure => "failure"
    case Timeout => "timeout"
    case Reset => "reset"
    case Idle => "idle"
    case GoAway => "go_away"
    case Unauthorized => "unauthorized"
  }

  /** Distinct errors give distinct messages, so the message identifies the error. */
  lemma ErrorMessageInjective(a: Http2Error, b: Http2Error)
    requires ErrorMessage(a) == ErrorMessage(b)
    ensures a == b
  {
    var n := |"HTTP 2 stream "|;
    assert ErrorMessage(a)[n..] == ErrorMessage(b)[n..];
  }
}
