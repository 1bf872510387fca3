/** The session check of src/hooks/useAuth.jsx: the token cookie and the
    outcome of `GET /me` become the flags `(isAuthenticated, isVerified,
    loading)`. */
module UseAuth {
  import opened Wrappers
  import opened JsText

  datatype AuthFlags = AuthFlags(isAuthenticated: bool, isVerified: bool, loading: bool)

  /** The flags before the effect has run. */
  const InitialFlags: AuthFlags := AuthFlags(false, false, true)

  /** The HTTP status that means "signed in but e-mail not verified". */
  const UnverifiedStatus: int := 403

  /** The answer to `GET /me`. `MeNoData` is a 2xx reply whose body has no
      `data` record: the `.then` sets both flags, then throws reading the
      name, and the `.catch` sees an error without a response. An error may
      carry an HTTP status. */
  datatype MeReply = MeOk(name: string, email: string) | MeNoData | MeError(httpStatus: Option<int>)

  /** The effect's outcome: the flags, and whether `/me` was requested. */
  datatype AuthCheck = AuthCheck(flags: AuthFlags, requested: bool)

  /** The `.then`/`.catch`/`.finally` chain on the `/me` reply, as written. A
      reply without data leaves the session verified but unauthenticated. */
  function CompleteMe(f: AuthFlags, reply: MeReply): (r: AuthFlags)
    ensures !r.loading
    ensures reply.MeOk? ==> r.isAuthenticated && r.isVerified
    ensures reply.MeNoData? ==> !r.isAuthenticated && r.isVerified
    ensures reply.MeError? ==> r.isVerified == f.isVerified
    ensures reply.MeError? ==> (r.isAuthenticated <==> reply.httpStatus == Some(UnverifiedStatus))
  {
    match reply
    case MeOk(_, _) => AuthFlags(true, true, false)
    case MeNoData =>
      // the `.then` got as far as both setters; the `.catch` then clears one
      AuthFlags(true, true, false).(isAuthenticated := false)
    case MeError(status) =>
      if status == Some(UnverifiedStatus) then f.(isAuthenticated := true, loading := false)
      else f.(isAuthenticated := false, loading := false)
  }

  /** The effect, as written: without a truthy token cookie nothing is
      requested and only loading ends; otherwise the `/me` reply decides. */
  function CheckSession(token: Option<string>, reply: MeReply): (r: AuthCheck)
    ensures r.requested <==> TruthyText(token)
    ensures !r.flags.loading
    ensures r.flags.isVerified <==> TruthyText(token) && (reply.MeOk? || reply.MeNoData?)
    ensures r.flags.isAuthenticated <==> TruthyText(token) && (reply.MeOk? || reply == MeError(Some(UnverifiedStatus)))
    ensures r.flags.isVerified && !r.flags.isAuthenticated <==> TruthyText(token) && reply.MeNoData?
  {
    if !TruthyText(token) then AuthCheck(InitialFlags.(loading := false), false)
    else AuthCheck(CompleteMe(InitialFlags, reply), true)
  }

  /** The states the hook can be in, as written: before the effect, or after it. */
  ghost predicate Reachable(f: AuthFlags)
  {
    f == InitialFlags || exists token: Option<string>, reply: MeReply :: f == CheckSession(token, reply).flags
  }

  /** As written, a 2xx `/me` without data reaches a state that is verified
      but not authenticated. */
  lemma MissingMeDataBreaksInvariant(token: Option<string>)
    requires TruthyText(token)
    ensures Reachable(CheckSession(token, MeNoData).flags)
    ensures CheckSession(token, MeNoData).flags == AuthFlags(false, true, false)
  {
    var f := CheckSession(token, MeNoData).flags;
    assert exists t: Option<string>, reply: MeReply :: f == CheckSession(t, reply).flags by {
      assert f == CheckSession(token, MeNoData).flags;
    }
  }

  /** The chain as evidently intended: a 2xx reply is a verified session
      whether or not its body can be copied into the cookies. */
  function CompleteMeIntended(f: AuthFlags, reply: MeReply): (r: AuthFlags)
    ensures !r.loading
    ensures reply.MeOk? || reply.MeNoData? ==> r.isAuthenticated && r.isVerified
    ensures reply.MeError? ==> r == CompleteMe(f, reply)
  {
    if reply.MeError? then CompleteMe(f, reply) else AuthFlags(true, true, false)
  }

  /** The effect with the intended chain. */
  function CheckSessionIntended(token: Option<string>, reply: MeReply): (r: AuthCheck)
    ensures r.requested <==> TruthyText(token)
    ensures !r.flags.loading
    ensures !TruthyText(token) ==> r == CheckSession(token, reply)
    ensures reply.MeError? ==> r == CheckSession(token, reply)
    ensures r.flags.isVerified ==> r.flags.isAuthenticated
  {
    if !TruthyText(token) then AuthCheck(InitialFlags.(loading := false), false)
    else AuthCheck(CompleteMeIntended(InitialFlags, reply), true)
  }

  /** The states the hook can be in with the intended chain. */
  ghost predicate ReachableIntended(f: AuthFlags)
  {
    f == InitialFlags || exists token: Option<string>, reply: MeReply :: f == CheckSessionIntended(token, reply).flags
  }

  /** With the intended chain, in every reachable state a verified session is
      an authenticated one. */
  lemma VerifiedImpliesAuthenticated(f: AuthFlags)
    requires ReachableIntended(f)
    ensures f.isVerified ==> f.isAuthenticated
  {
    if f != InitialFlags {
      var token: Option<string>, reply: MeReply :| f == CheckSessionIntended(token, reply).flags;
    }
  }

  /** `CompleteMe` alone does not keep that: a non-403 error on a state that
      was verified clears authentication only. It holds because the effect
      runs once, from the initial flags. */
  lemma CompleteMeNeedsInitialFlags()
    ensures var r := CompleteMe(AuthFlags(true, true, false), MeError(None));
      r.isVerified && !r.isAuthenticated
  {
  }
}
