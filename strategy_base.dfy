/**
 * What src/auth/strategies/base.strategy.ts gives every provider strategy:
 * the HTTP helper with its error mapping, the choice between a supplied and
 * a generated `state`, and the shapes of requests and token responses.
 *
 * The HTTP client is a parameter: a `Transport` says what each request
 * leads to (the response data, an error that carries a provider response,
 * or an error without one).
 */
module StrategyBase {
  import opened Wrappers
  import opened JsText
  import opened Exceptions

  datatype Method = GET | POST

  /** What the helper hands to the HTTP client. */
  datatype Request = Request(verb: Method, url: string, headers: seq<(string, string)>, body: Option<string>)

  /** The client's outcome; `body` is the provider's error response as serialised JSON. */
  datatype HttpOutcome<T> = Ok(data: T) | ErrorWithResponse(body: string) | ErrorWithoutResponse

  type Transport<T> = Request -> HttpOutcome<T>

  /** A provider's token endpoint response (OAuthTokenResponse). */
  datatype TokenResponse = TokenResponse(
    access_token: string,
    token_type: string,
    refresh_token: Option<string>,
    expires_in: int,
    scope: Option<string>)

  /**
   * `httpRequest`: the response data unchanged on success; otherwise an
   * HttpException, 400 with the provider's body when the failure carries a
   * response and 500 'Unexpected error occurred' when it does not.
   */
  function HttpRequest<T>(send: Transport<T>, req: Request): (r: Result<T, Exception>)
    ensures r.Success? <==> send(req).Ok?
    ensures r.Success? ==> r.value == send(req).data
    ensures r.Failure? ==> r.error.Http? && (r.error.status == HTTP_BAD_REQUEST <==> send(req).ErrorWithResponse?)
    ensures r.Failure? ==> r.error.status in {HTTP_BAD_REQUEST, HTTP_INTERNAL_SERVER_ERROR}
    ensures send(req).ErrorWithResponse? ==> r.error.message == "OAuth request failed: " + send(req).body
    ensures send(req).ErrorWithoutResponse? ==> r.error.message == "Unexpected error occurred"
  {
    match send(req)
    case Ok(data) => Success(data)
    case ErrorWithResponse(body) => Failure(Http(HTTP_BAD_REQUEST, "OAuth request failed: " + body))
    case ErrorWithoutResponse => Failure(Http(HTTP_INTERNAL_SERVER_ERROR, "Unexpected error occurred"))
  }

  /**
   * `state || this.generateState()`: a non-empty supplied state is used
   * verbatim, otherwise the generated one (`Math.random` is a parameter).
   */
  function ChooseState(state: Option<string>, generated: string): (s: string)
    ensures Truthy(state) ==> s == state.value
    ensures !Truthy(state) ==> s == generated
  {
    if Truthy(state) then state.value else generated
  }

  /** The `Authorization` header of the bearer-authenticated calls. */
  function BearerHeader(accessToken: string): seq<(string, string)>
  {
    [("Authorization", "Bearer " + accessToken)]
  }
}
