/** The route guard of src/components/ProtectedRoute.jsx. */
module ProtectedRoute {
  import opened UseAuth
  import opened Wrappers

  const ErrorPath: string := "/error"
  const UnauthenticatedMessage: string := "Unauthenticated. Please login."
  const UnverifiedMessage: string := "Your email is not verified. Please verify your email."

  /** What the guard renders: a spinner, a replacing redirect to the error
      page with a status and message, or the protected outlet. */
  datatype RouteOutcome = Spinner | Redirect(path: string, status: int, message: string) | RenderOutlet

  /** The decision table: loading shows the spinner whatever the flags; then
      unauthenticated gives 401, authenticated but unverified gives 403, and
      authenticated and verified renders the outlet. */
  function Decide(f: AuthFlags): (r: RouteOutcome)
    ensures r.Spinner? <==> f.loading
    ensures r.Redirect? ==> r.path == ErrorPath
    ensures (r.Redirect? && r.status == 401) <==> !f.loading && !f.isAuthenticated
    ensures (r.Redirect? && r.status == 403) <==> !f.loading && f.isAuthenticated && !f.isVerified
    ensures r.RenderOutlet? <==> !f.loading && f.isAuthenticated && f.isVerified
    ensures r.Redirect? ==> r.status == 401 || r.status == 403
  {
    if f.loading then Spinner
    else if !f.isAuthenticated then Redirect(ErrorPath, 401, UnauthenticatedMessage)
    else if f.isAuthenticated && !f.isVerified then Redirect(ErrorPath, 403, UnverifiedMessage)
    else RenderOutlet
  }

  /** The guard after the session check, by case: no token, a non-403 error
      or a 2xx reply without data redirect with 401, a 403 redirects with
      403, and a successful `/me` renders the outlet. */
  lemma GuardAfterCheck(token: Option<string>, reply: MeReply)
    ensures var r := Decide(CheckSession(token, reply).flags);
      && (!JsText.TruthyText(token) ==> r == Redirect(ErrorPath, 401, UnauthenticatedMessage))
      && (JsText.TruthyText(token) && reply.MeOk? ==> r == RenderOutlet)
      && (JsText.TruthyText(token) && reply == MeError(Some(UnverifiedStatus)) ==>
            r == Redirect(ErrorPath, 403, UnverifiedMessage))
      && (JsText.TruthyText(token) && reply.MeError? && reply != MeError(Some(UnverifiedStatus)) ==>
            r == Redirect(ErrorPath, 401, UnauthenticatedMessage))
      && (JsText.TruthyText(token) && reply.MeNoData? ==> r == Redirect(ErrorPath, 401, UnauthenticatedMessage))
  {
  }

  /** With the intended session check every 2xx `/me` renders the outlet,
      and the 403 redirect comes exactly from a 403 reply. */
  lemma GuardAfterIntendedCheck(token: Option<string>, reply: MeReply)
    ensures var r := Decide(CheckSessionIntended(token, reply).flags);
      && (JsText.TruthyText(token) && (reply.MeOk? || reply.MeNoData?) ==> r == RenderOutlet)
      && (r == Redirect(ErrorPath, 403, UnverifiedMessage) <==>
            JsText.TruthyText(token) && reply == MeError(Some(UnverifiedStatus)))
  {
  }

  /** Before the check completes the guard shows only the spinner. */
  lemma GuardBeforeCheck()
    ensures Decide(InitialFlags) == Spinner
  {
  }
}
