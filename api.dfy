/**
 * The shared HTTP client's response interceptor (utils/api.js): successful
 * responses pass through, and every failure is turned into one rejection
 * value by three checks applied in a fixed order.
 */
module Api {
  import opened Wrappers

  /** A JSON error body, as far as callers read it (`.message`, `.error`). */
  datatype ServerData = ServerData(message: Option<string>, error: Option<string>)

  /** The HTTP response attached to a failed request; `data` is None when absent or falsy. */
  datatype ErrorResponse = ErrorResponse(status: nat, data: Option<ServerData>)

  /** The error the HTTP client raises for a failed request. */
  datatype ClientError = ClientError(message: string, code: Option<string>, response: Option<ErrorResponse>)

  const NetworkErrorMessage := "Network Error"
  const TimeoutCode := "ECONNABORTED"
  const ServerUnavailableText := "Server is unavailable. Please try again later."
  const TimedOutText := "Request timed out. Please try again."
  const UnexpectedText := "An unexpected error occurred"

  /** A rejection made by the interceptor itself: an object with only a message. */
  function LocalRejection(text: string): ServerData {
    ServerData(Some(text), None)
  }

  /**
   * The value the interceptor rejects with. Every rejection either carries a
   * message of the interceptor's own or is the server's payload, unchanged.
   */
  function OnRejected(e: ClientError): (r: ServerData)
    ensures r in {LocalRejection(ServerUnavailableText), LocalRejection(TimedOutText), LocalRejection(UnexpectedText)}
         || (e.response.Some? && e.response.value.data == Some(r))
    ensures e.response.None? || e.response.value.data.None? ==> r.message.Some?
  {
    if e.message == NetworkErrorMessage then
      LocalRejection(ServerUnavailableText)
    else if e.code == Some(TimeoutCode) then
      LocalRejection(TimedOutText)
    else if e.response.Some? && e.response.value.data.Some? then
      e.response.value.data.value
    else
      LocalRejection(UnexpectedText)
  }

  /**
   * The three checks apply in priority order: the network-error message wins
   * whatever the code and response, then the timeout code whatever the
   * response; only then is the server's payload passed on.
   */
  lemma RejectionPriority(e: ClientError)
    ensures e.message == NetworkErrorMessage ==> OnRejected(e) == LocalRejection(ServerUnavailableText)
    ensures e.message != NetworkErrorMessage && e.code == Some(TimeoutCode)
            ==> OnRejected(e) == LocalRejection(TimedOutText)
    ensures e.message != NetworkErrorMessage && e.code != Some(TimeoutCode)
            ==> OnRejected(e) == (if e.response.Some? && e.response.value.data.Some?
                                  then e.response.value.data.value
                                  else LocalRejection(UnexpectedText))
  {
  }

  /** The interceptor applied to a call's outcome: a success passes unchanged, every failure rejects. */
  function Intercept<T>(outcome: Result<T, ClientError>): (r: Result<T, ServerData>)
    ensures r.Success? <==> outcome.Success?
    ensures outcome.Success? ==> r.value == outcome.value
    ensures outcome.Failure? ==> r.error == OnRejected(outcome.error)
  {
    match outcome
    case Success(v) => Success(v)
    case Failure(e) => Failure(OnRejected(e))
  }

  /** `String(x)` for a possibly undefined string: JavaScript renders `undefined` as the word itself. */
  function Show(s: Option<string>): string {
    s.GetOr("undefined")
  }
}
