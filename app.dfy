/**
 * The application shell: which screen it shows for the authentication state, and what
 * it dispatches when the hosted service reports a change of session.
 */
module App {
  import opened Wrappers
  import opened AuthSlice

  /** The four things the shell can show. */
  datatype Screen =
    | LoadingScreen
    | AuthScreen
    | OrganizationSetupScreen(userEmail: string)
    | MainRoutes

  /**
   * The screen for a state, by priority: loading first, then sign-in when nobody is
   * signed in, then organization setup when it is needed, and the routes otherwise.
   * Each of the four is shown under exactly the stated condition.
   */
  function SelectScreen(s: AuthState): (r: Screen)
    ensures r == LoadingScreen <==> s.loading
    ensures r == AuthScreen <==> !s.loading && s.user.None?
    ensures r.OrganizationSetupScreen? <==> !s.loading && s.user.Some? && s.needsOrgSetup
    ensures r.OrganizationSetupScreen? ==> r.userEmail == s.user.value.email.GetOr("")
    ensures r == MainRoutes <==> !s.loading && s.user.Some? && !s.needsOrgSetup
  {
    if s.loading then LoadingScreen
    else if s.user.None? then AuthScreen
    else if s.needsOrgSetup then OrganizationSetupScreen(s.user.value.email.GetOr(""))
    else MainRoutes
  }

  /**
   * The listener on session changes: with a session, store it and start the initialise
   * thunk (whose first action is its pending one); without one, sign out.
   */
  function OnAuthStateChange(session: Option<Session>): seq<Action> {
    if session.Some? then [SetSession(session), InitializePending] else [ClearAuth]
  }

  /**
   * After a session event, the store has that session and its user, is loading again
   * with no error, and keeps organization and setup flag: the loading screen shows.
   */
  lemma SessionEventShowsLoading(s: AuthState, session: Session)
    ensures var t := ReduceAll(s, OnAuthStateChange(Some(session)));
      && t == s.(session := Some(session), user := session.user, loading := true, error := None)
      && SelectScreen(t) == LoadingScreen
  {
    var trace := OnAuthStateChange(Some(session));
    var stored := Reduce(s, SetSession(Some(session)));
    assert trace[1..] == [InitializePending] && trace[1..][1..] == [];
    assert ReduceAll(s, trace) == ReduceAll(stored, [InitializePending]) == Reduce(stored, InitializePending);
  }

  /**
   * After a sign-out event, the store has no user, session, organization or error and
   * needs no setup; `loading` is as before, so the sign-in screen shows unless the store
   * was still loading.
   */
  lemma SignOutEventShowsAuth(s: AuthState)
    ensures var t := ReduceAll(s, OnAuthStateChange(None));
      && t == s.(user := None, session := None, organization := None, needsOrgSetup := false, error := None)
      && SelectScreen(t) == (if s.loading then LoadingScreen else AuthScreen)
  {
    assert OnAuthStateChange(None)[1..] == [];
    assert ReduceAll(s, OnAuthStateChange(None)) == Reduce(s, ClearAuth);
  }

  /**
   * Starting the initialise thunk and letting it settle decides the screen: sign-in when
   * the session has no user, organization setup when the organization lookup failed,
   * the routes when it succeeded; a failed session query keeps user, session,
   * organization and setup flag and stores the error.
   */
  lemma InitializeDecidesScreen(
    s: AuthState,
    getSession: Result<Option<Session>, string>,
    lookup: Result<OrganizationInfo, string>)
    ensures var t := ReduceAll(s, [InitializePending, InitializeSettlement(getSession, lookup)]);
      && !t.loading
      && (getSession.Ok? ==>
            SelectScreen(t) ==
              if SessionUser(getSession.value).None? then AuthScreen
              else if lookup.Err? then OrganizationSetupScreen(SessionUser(getSession.value).value.email.GetOr(""))
              else MainRoutes)
      && (getSession.Ok? ==> t.error.None?)
      && (getSession.Err? ==>
            t == s.(loading := false, error := Some(getSession.error)))
  {
    var settle := InitializeSettlement(getSession, lookup);
    var trace := [InitializePending, settle];
    var pending := Reduce(s, InitializePending);
    assert trace[1..] == [settle] && trace[1..][1..] == [];
    assert ReduceAll(s, trace) == ReduceAll(pending, [settle]) == Reduce(pending, settle);
  }

  /** The shell starts on the loading screen. */
  lemma StartsLoading()
    ensures SelectScreen(InitialState) == LoadingScreen
    ensures UserMatchesSession(InitialState)
  {
  }
}
