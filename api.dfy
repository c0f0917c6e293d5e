/** The response interceptor of the HTTP client: a successful response passes through; a
    failure is classified by its shape into the message the user is shown, and is rejected
    again unchanged so that the caller still sees it. */
module Api {
  import opened JsValues

  /** The parts of `error.response.data` the interceptor reads. */
  datatype ErrorBody = ErrorBody(error: Option<string>, message: Option<string>)

  /** The shapes a failed request can have, in the order the interceptor tests them:
      cancelled, answered with an error status, sent without an answer, or failed before
      being sent. */
  datatype RequestError =
    | Cancelled
    | ResponseError(status: int, data: ErrorBody)
    | NoResponse
    | SetupFailure

  /** A request as it settles, before or after the interceptor. */
  datatype Settled<R> = Resolved(response: R) | Rejected(error: RequestError)

  /** What the interceptor hands back, with the notification it shows, if any. */
  datatype Intercepted<R> = Intercepted(settled: Settled<R>, toast: Option<string>)

  /** The error classes the messages stand for. */
  datatype ErrorKind = CancelledKind | AuthKind | NotFoundKind | ServerKind | NetworkKind | SetupKind

  const SessionExpiredMessage: string := "Session expired. Please log in again."
  const NotFoundMessage: string := "Resource not found."
  const ApiErrorPrefix: string := "API Error: "
  const UnexpectedErrorMessage: string := "An unexpected error occurred."
  // The two longest messages are written in two parts so that the verifier can read their
  // first characters (see FixedMessagesAreNotApiErrors); the text is unchanged.
  const NetworkErrorMessage: string := "Network Error: " + "Please check your internet connection."
  const SetupErrorMessage: string := "An error occurred" + " while setting up the request."

  function Kind(e: RequestError): ErrorKind {
    match e
    case Cancelled => CancelledKind
    case ResponseError(status, _) =>
      if status == 401 then AuthKind else if status == 404 then NotFoundKind else ServerKind
    case NoResponse => NetworkKind
    case SetupFailure => SetupKind
  }

  /** `data.error || data.message || "An unexpected error occurred."` */
  function ServerDetail(data: ErrorBody): (d: string)
    ensures d != ""
    ensures Truthy(data.error) ==> d == data.error.value
    ensures !Truthy(data.error) && Truthy(data.message) ==> d == data.message.value
    ensures !Truthy(data.error) && !Truthy(data.message) ==> d == UnexpectedErrorMessage
  {
    Or(data.error, Or(data.message, UnexpectedErrorMessage))
  }

  /** The notification for a failed request; a cancelled request shows none. */
  function ErrorToast(e: RequestError): (t: Option<string>)
    ensures t.None? <==> e.Cancelled?
    ensures t.Some? ==> t.value != ""
    ensures Kind(e) == AuthKind ==> t == Some(SessionExpiredMessage)
    ensures Kind(e) == NotFoundKind ==> t == Some(NotFoundMessage)
    ensures Kind(e) == ServerKind ==> t == Some(ApiErrorPrefix + ServerDetail(e.data))
    ensures Kind(e) == NetworkKind ==> t == Some(NetworkErrorMessage)
    ensures Kind(e) == SetupKind ==> t == Some(SetupErrorMessage)
  {
    match e
    case Cancelled => None
    case ResponseError(status, data) =>
      if status == 401 then Some(SessionExpiredMessage)
      else if status == 404 then Some(NotFoundMessage)
      else Some(ApiErrorPrefix + ServerDetail(data))
    case NoResponse => Some(NetworkErrorMessage)
    case SetupFailure => Some(SetupErrorMessage)
  }

  /** The interceptor: a response passes through untouched and shows nothing; every failure is
      rejected again with the very same error, after its notification. */
  function Intercept<R>(s: Settled<R>): (r: Intercepted<R>)
    ensures r.settled == s
    ensures s.Resolved? ==> r.toast == None
    ensures s.Rejected? ==> r.toast == ErrorToast(s.error)
  {
    match s
    case Resolved(_) => Intercepted(s, None)
    case Rejected(e) => Intercepted(s, ErrorToast(e))
  }

  /** Only the server-error notifications start with "AP". */
  lemma FixedMessagesAreNotApiErrors(e: RequestError)
    requires Kind(e) != ServerKind && Kind(e) != CancelledKind
    ensures |ErrorToast(e).value| >= 2 && ErrorToast(e).value[..2] != "AP"
  {
    var t := ErrorToast(e).value;
    if Kind(e) == AuthKind {
      assert t == SessionExpiredMessage && t[0] == SessionExpiredMessage[0] == 'S';
    } else if Kind(e) == NotFoundKind {
      assert t == NotFoundMessage && t[0] == NotFoundMessage[0] == 'R';
    } else if Kind(e) == NetworkKind {
      assert t == NetworkErrorMessage && t[0] == NetworkErrorMessage[0] == 'N';
    } else {
      assert t == SetupErrorMessage && t[1] == SetupErrorMessage[1] == 'n';
    }
    assert t[..2][0] == t[0] && t[..2][1] == t[1];
  }

  /** The notification tells the error classes apart: two failures that show the same
      message are of the same class. */
  lemma {:induction false} ToastDeterminesKind(e1: RequestError, e2: RequestError)
    requires ErrorToast(e1) == ErrorToast(e2)
    ensures Kind(e1) == Kind(e2)
  {
    if Kind(e1) == ServerKind && Kind(e2) != ServerKind && !e2.Cancelled? {
      FixedMessagesAreNotApiErrors(e2);
    } else if Kind(e2) == ServerKind && Kind(e1) != ServerKind && !e1.Cancelled? {
      FixedMessagesAreNotApiErrors(e1);
    }
  }
}
