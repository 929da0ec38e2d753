/** The application's last two middlewares: the unknown-route handler and
    the error handler that turns every `HttpError` into the response. */
module App {
  import opened Maybe
  import opened Http
  import opened Jwt
  import AuthGate
  import Users
  import Accounts

  const UnknownErrorMessage: string := "An unknown error occurred!"
  const RouteNotFoundMessage: string := "Could not find this route."

  /** What the error handler does: write a status and a `{ message }` body,
      or, once the headers are already out, pass the error on. An error that
      is not an `HttpError` arrives with code 0 (no `code`). */
  datatype Outcome = Respond(status: int, message: string) | Delegate(error: HttpError)

  function HandleError(e: HttpError, headersSent: bool): (r: Outcome)
    ensures r.Delegate? <==> headersSent
    ensures r.Delegate? ==> r.error == e
    ensures r.Respond? ==> r.status != 0 && r.message != ""
    ensures r.Respond? && e.code != 0 ==> r.status == e.code
    ensures r.Respond? && e.code == 0 ==> r.status == 500
    ensures r.Respond? && e.message != "" ==> r.message == e.message
    ensures r.Respond? && e.message == "" ==> r.message == UnknownErrorMessage
  {
    if headersSent then Delegate(e)
    else Respond(if e.code != 0 then e.code else 500,
                 if e.message != "" then e.message else UnknownErrorMessage)
  }

  /** The handler mounted after `/api/posts` and `/api/users`: a request no
      router answered ends as 404. */
  function UnknownRoute(): (e: HttpError)
    ensures HandleError(e, false) == Respond(404, RouteNotFoundMessage)
  {
    HttpError(RouteNotFoundMessage, 404)
  }

  /** An error with a code and a message reaches the client as it is. */
  lemma Verbatim(e: HttpError)
    requires e.code != 0 && e.message != ""
    ensures HandleError(e, false) == Respond(e.code, e.message)
  {
  }

  /** Every denial of the authorization gate reaches the client with the
      gate's own status and message. */
  lemma GateDenialReachesClient(header: Option<string>, verify: string -> Verdict)
    requires AuthGate.Gate(header, verify).Deny?
    ensures var e := AuthGate.Gate(header, verify).error;
      HandleError(e, false) == Respond(e.code, e.message) && e.code in {401, 404, 500}
  {
  }

  /** Every failure of a refresh reaches the client with the handler's own
      status and message. */
  lemma RefreshFailureReachesClient(users: seq<Accounts.User>, refreshToken: Option<string>,
                                    verify: string -> Verdict, lookupFault: bool)
    requires Users.RefreshAccessToken(users, refreshToken, verify, lookupFault).Failed?
    ensures var e := Users.RefreshAccessToken(users, refreshToken, verify, lookupFault).error;
      HandleError(e, false) == Respond(e.code, e.message) && e.code in {403, 404, 500}
  {
  }
}
