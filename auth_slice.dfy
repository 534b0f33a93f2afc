/**
 * The authentication slice of the application store: who is signed in, their session,
 * their organization, whether the first load is still running, whether the user still
 * has to create an organization, and the last error message.
 */
module AuthSlice {
  import opened Wrappers
  import opened Records

  /** A signed-in user; `email` may be missing. */
  datatype User = User(id: string, email: Option<string>)

  /** A session of the hosted authentication service; it may carry no user. */
  datatype Session = Session(accessToken: string, user: Option<User>)

  /**
   * What the slice stores as `organization`: the membership row the organization lookup
   * returns on start-up, or the organization row returned when one is created.
   */
  datatype OrganizationInfo =
    | Membership(organizationId: int, organization: Organization)
    | Created(organization: Organization)

  datatype AuthState = AuthState(
    user: Option<User>,
    session: Option<Session>,
    organization: Option<OrganizationInfo>,
    loading: bool,
    needsOrgSetup: bool,
    error: Option<string>)

  /** What a successful initialisation reports. */
  datatype InitPayload = InitPayload(
    session: Option<Session>,
    user: Option<User>,
    organization: Option<OrganizationInfo>,
    needsOrgSetup: bool)

  /** The actions the slice reacts to: its own reducers and the settled thunks. */
  datatype Action =
    | SetSession(session: Option<Session>)
    | SetOrganization(organization: Option<OrganizationInfo>)
    | SetNeedsOrgSetup(flag: bool)
    | ClearAuth
    | SetError(errorMessage: Option<string>)
    | InitializePending
    | InitializeFulfilled(payload: InitPayload)
    | InitializeRejected(message: string)
    | CreateOrganizationFulfilled(created: Organization)
    | CreateOrganizationRejected(message: string)

  /** The store before anything has happened: loading, and nobody signed in. */
  const InitialState := AuthState(None, None, None, true, false, None)

  /** `session?.user || null`. */
  function SessionUser(session: Option<Session>): Option<User> {
    if session.Some? then session.value.user else None
  }

  /**
   * How the initialise thunk settles, given what the session query returned and what
   * the organization lookup would return. A failed session query rejects with its
   * message; otherwise the payload carries the session and its user, and the
   * organization lookup is consulted only when there is a user: its failure is what
   * makes `needsOrgSetup` true.
   */
  function InitializeSettlement(
    getSession: Result<Option<Session>, string>,
    lookup: Result<OrganizationInfo, string>): (a: Action)
    ensures getSession.Err? ==> a == InitializeRejected(getSession.error)
    ensures getSession.Ok? ==> a.InitializeFulfilled?
    ensures a.InitializeFulfilled? ==>
      && getSession.Ok?
      && a.payload.session == getSession.value
      && a.payload.user == SessionUser(getSession.value)
      && (a.payload.needsOrgSetup <==> a.payload.user.Some? && lookup.Err?)
      && (a.payload.user.None? ==> a.payload.organization.None?)
      && (a.payload.user.Some? && lookup.Ok? ==> a.payload.organization == Some(lookup.value))
      && (a.payload.user.Some? && lookup.Err? ==> a.payload.organization.None?)
  {
    match getSession
    case Err(message) => InitializeRejected(message)
    case Ok(session) =>
      var user := SessionUser(session);
      var organization := if user.Some? && lookup.Ok? then Some(lookup.value) else None;
      var needsOrgSetup := user.Some? && lookup.Err?;
      InitializeFulfilled(InitPayload(session, user, organization, needsOrgSetup))
  }

  /** The slice's reducer: the state after one action. */
  function Reduce(s: AuthState, a: Action): AuthState {
    match a
    case SetSession(session) => s.(session := session, user := SessionUser(session))
    case SetOrganization(organization) => s.(organization := organization, needsOrgSetup := false)
    case SetNeedsOrgSetup(flag) => s.(needsOrgSetup := flag)
    case ClearAuth => s.(user := None, session := None, organization := None, needsOrgSetup := false, error := None)
    case SetError(message) => s.(error := message)
    case InitializePending => s.(loading := true, error := None)
    case InitializeFulfilled(p) =>
      s.(loading := false, user := p.user, session := p.session, organization := p.organization,
         needsOrgSetup := p.needsOrgSetup)
    case InitializeRejected(message) => s.(loading := false, error := Some(message))
    case CreateOrganizationFulfilled(created) => s.(organization := Some(Created(created)), needsOrgSetup := false)
    case CreateOrganizationRejected(message) => s.(error := Some(message))
  }

  /** The state after a sequence of actions, dispatched one after the other. */
  function ReduceAll(s: AuthState, trace: seq<Action>): AuthState
    decreases |trace|
  {
    if trace == [] then s else ReduceAll(Reduce(s, trace[0]), trace[1..])
  }

  /** The stored user is the stored session's user. */
  predicate UserMatchesSession(s: AuthState) {
    s.user == SessionUser(s.session)
  }

  /** An action that cannot break `UserMatchesSession`: a fulfilled payload must agree too. */
  predicate KeepsUserOfSession(a: Action) {
    a.InitializeFulfilled? ==> a.payload.user == SessionUser(a.payload.session)
  }

  /** Every payload the initialise thunk produces agrees with its own session. */
  lemma SettlementKeepsUserOfSession(
    getSession: Result<Option<Session>, string>,
    lookup: Result<OrganizationInfo, string>)
    ensures KeepsUserOfSession(InitializeSettlement(getSession, lookup))
  {
  }

  /**
   * Along any sequence of actions whose initialise payloads come from the thunk, the
   * stored user stays the session's user once it is (as it is in the initial state).
   */
  lemma {:induction false} UserMatchesSessionAlongTrace(s: AuthState, trace: seq<Action>)
    requires UserMatchesSession(s)
    requires forall i :: 0 <= i < |trace| ==> KeepsUserOfSession(trace[i])
    ensures UserMatchesSession(ReduceAll(s, trace))
    decreases |trace|
  {
    if trace != [] {
      assert KeepsUserOfSession(trace[0]);
      var next := Reduce(s, trace[0]);
      assert UserMatchesSession(next);
      forall i | 0 <= i < |trace[1..]| ensures KeepsUserOfSession(trace[1..][i]) {
        assert trace[1..][i] == trace[i + 1];
      }
      UserMatchesSessionAlongTrace(next, trace[1..]);
    }
  }

  /** Dispatching `a` and then `trace` is dispatching `[a] + trace`. */
  lemma ReduceAllCons(s: AuthState, a: Action, trace: seq<Action>)
    ensures ReduceAll(s, [a] + trace) == ReduceAll(Reduce(s, a), trace)
  {
    assert ([a] + trace)[1..] == trace;
  }

  /** The slice's mutable state, updated in place by its case reducers. */
  class AuthStore {
    var user: Option<User>
    var session: Option<Session>
    var organization: Option<OrganizationInfo>
    var loading: bool
    var needsOrgSetup: bool
    var error: Option<string>

    /** The six fields as one value. */
    function State(): AuthState
      reads this
    {
      AuthState(user, session, organization, loading, needsOrgSetup, error)
    }

    constructor ()
      ensures State() == InitialState
    {
      user, session, organization := None, None, None;
      loading, needsOrgSetup, error := true, false, None;
    }

    /** Stores the session and its user (none when the session has none). */
    method SetSession(payload: Option<Session>)
      modifies this
      ensures State() == old(State()).(session := payload, user := SessionUser(payload))
    {
      session := payload;
      user := SessionUser(payload);
    }

    /** Stores the organization; setup is no longer needed. */
    method SetOrganization(payload: Option<OrganizationInfo>)
      modifies this
      ensures State() == old(State()).(organization := payload, needsOrgSetup := false)
    {
      organization := payload;
      needsOrgSetup := false;
    }

    method SetNeedsOrgSetup(payload: bool)
      modifies this
      ensures State() == old(State()).(needsOrgSetup := payload)
    {
      needsOrgSetup := payload;
    }

    /** Signs out: forgets user, session, organization and error; `loading` is kept. */
    method ClearAuth()
      modifies this
      ensures State() == old(State()).(user := None, session := None, organization := None,
                                       needsOrgSetup := false, error := None)
      ensures loading == old(loading)
    {
      user := None;
      session := None;
      organization := None;
      needsOrgSetup := false;
      error := None;
    }

    method SetError(payload: Option<string>)
      modifies this
      ensures State() == old(State()).(error := payload)
    {
      error := payload;
    }

    /** The initialise thunk has started: loading again, error cleared. */
    method InitializePending()
      modifies this
      ensures State() == old(State()).(loading := true, error := None)
    {
      loading := true;
      error := None;
    }

    /** The initialise thunk succeeded: its payload replaces four fields; `error` is kept. */
    method InitializeFulfilled(payload: InitPayload)
      modifies this
      ensures State() == old(State()).(loading := false, user := payload.user, session := payload.session,
                                       organization := payload.organization,
                                       needsOrgSetup := payload.needsOrgSetup)
      ensures error == old(error)
    {
      loading := false;
      user := payload.user;
      session := payload.session;
      organization := payload.organization;
      needsOrgSetup := payload.needsOrgSetup;
    }

    /** The initialise thunk failed: loading stops and the message is stored. */
    method InitializeRejected(message: string)
      modifies this
      ensures State() == old(State()).(loading := false, error := Some(message))
    {
      loading := false;
      error := Some(message);
    }

    /** An organization was created: it is stored and setup is no longer needed. */
    method CreateOrganizationFulfilled(created: Organization)
      modifies this
      ensures State() == old(State()).(organization := Some(Created(created)), needsOrgSetup := false)
    {
      organization := Some(Created(created));
      needsOrgSetup := false;
    }

    /** Creating an organization failed: only the error changes. */
    method CreateOrganizationRejected(message: string)
      modifies this
      ensures State() == old(State()).(error := Some(message))
    {
      error := Some(message);
    }

    /** Runs the case reducer an action selects; the new state is the reducer's. */
    method Dispatch(a: Action)
      modifies this
      ensures State() == Reduce(old(State()), a)
    {
      match a
      case SetSession(p) => this.SetSession(p);
      case SetOrganization(p) => this.SetOrganization(p);
      case SetNeedsOrgSetup(flag) => this.SetNeedsOrgSetup(flag);
      case ClearAuth => this.ClearAuth();
      case SetError(message) => this.SetError(message);
      case InitializePending => this.InitializePending();
      case InitializeFulfilled(p) => this.InitializeFulfilled(p);
      case InitializeRejected(message) => this.InitializeRejected(message);
      case CreateOrganizationFulfilled(created) => this.CreateOrganizationFulfilled(created);
      case CreateOrganizationRejected(message) => this.CreateOrganizationRejected(message);
    }
  }
}
