/** The session store (`useAuthStore`): `{user, loading}` driven by the
    initial session check, the auth-state listener, a 5 second timer, and
    the sign-in / sign-out actions. Every remote call is replaced by the
    outcome it settles with, delivered as an event. */
module AuthStore {
  import opened Values

  /** A row of the `profiles` table. */
  datatype Profile = Profile(id: string, email: string, fullName: Option<string>, role: string)

  /** The store's observable state. */
  datatype AuthState = AuthState(user: Option<Profile>, loading: bool)

  /** The state the store is created with. */
  const InitialState := AuthState(None, true)

  /** How a `profiles` lookup by id settles: a row, an error result, or a
      thrown exception. */
  datatype ProfileQuery = ProfileFound(profile: Profile) | ProfileError | ProfileThrew(message: string)

  /** How the `getSession()` promise settles: rejected, resolved with an
      error, resolved without a session, or resolved with a signed-in user. */
  datatype SessionCheck = SessionRejected | SessionQueryError | NoSession | SessionFor(userId: string)

  /** How the password sign-in at the identity provider ends. */
  datatype SignInAuth = AuthAccepted(userId: string) | AuthRejected(message: string)

  /** Everything that can happen to the store. Remote results arrive as the
      events that carry them; nothing ties a result to the request that
      caused it beyond the pending counters of `Store`. */
  datatype Event =
    | Initialize                                  // `initialize()`: listener, timer, `getSession()`
    | TimerFired                                  // the 5000 ms timeout elapses
    | SessionSettled(check: SessionCheck)         // `getSession()` settles
    | InitialProfileLoaded(query: ProfileQuery)   // the profile query of the initial check settles
    | AuthStateChanged(sessionUser: Option<string>) // the listener is called
    | ListenerProfileLoaded(query: ProfileQuery)  // a profile query started by the listener settles
    | SignIn(auth: SignInAuth, query: ProfileQuery)
    | SignOut(providerError: Option<string>)

  /** The store's state together with what `initialize` left in flight. */
  datatype Store = Store(
    auth: AuthState,
    initialized: bool,        // the listener is registered
    timerArmed: bool,         // the 5 s timer is set and not cleared
    sessionPending: bool,     // `getSession()` has not settled
    initialFetchPending: bool, // the initial check's profile query is in flight
    listenerFetches: nat)     // profile queries started by the listener, in flight

  const Created := Store(InitialState, false, false, false, false, 0)

  /** What an action returns to its caller. */
  datatype Reply = Done | Returned(profile: Profile) | Thrown(message: string)

  /** One step: the new store, the caller's reply, and whether a remote
      `auth.signOut()` was issued. */
  datatype Transition = Transition(store: Store, reply: Reply, remoteSignOut: bool)

  const ProfileNotFoundMessage := "User profile not found. Please contact support or sign up again."

  /** `e` delivers a successfully fetched profile `p` to the store. */
  predicate LoadsProfile(e: Event, p: Profile) {
    e == InitialProfileLoaded(ProfileFound(p)) || e == ListenerProfileLoaded(ProfileFound(p))
  }

  /** The state both fetch paths set once a profile query settles. */
  function AfterProfileQuery(q: ProfileQuery): AuthState {
    match q
    case ProfileFound(p) => AuthState(Some(p), false)
    case _ => AuthState(None, false)
  }

  /** `signIn`: its reply only; the store is not touched. A profile comes
      back only when both the password check and the profile query succeed;
      otherwise the first failure is thrown. */
  function SignInReply(auth: SignInAuth, query: ProfileQuery): (r: Reply)
    ensures !r.Done?
    ensures r.Returned? <==> auth.AuthAccepted? && query.ProfileFound?
    ensures r.Returned? ==> r.profile == query.profile
    ensures auth.AuthRejected? ==> r == Thrown(auth.message)
    ensures auth.AuthAccepted? && query.ProfileError? ==> r == Thrown(ProfileNotFoundMessage)
    ensures auth.AuthAccepted? && query.ProfileThrew? ==> r == Thrown(query.message)
  {
    match auth
    case AuthRejected(m) => Thrown(m)
    case AuthAccepted(_) =>
      match query
      case ProfileFound(p) => Returned(p)
      case ProfileError => Thrown(ProfileNotFoundMessage)
      case ProfileThrew(m) => Thrown(m)
  }

  /** The store's reaction to one event. Results for which nothing is in
      flight, and listener calls before `initialize`, change nothing. */
  function Step(s: Store, e: Event): (t: Transition)
    ensures !s.auth.loading ==> !t.store.auth.loading
    ensures t.store.auth.user.Some? ==>
              t.store.auth.user == s.auth.user || LoadsProfile(e, t.store.auth.user.value)
    ensures e.SignIn? ==> t.store == s
    ensures s.initialized ==> t.store.initialized
    ensures t.store.listenerFetches <= s.listenerFetches + 1
  {
    match e
    case Initialize =>
      if s.initialized then Transition(s, Done, false)
      else Transition(s.(initialized := true, timerArmed := true, sessionPending := true), Done, false)
    case TimerFired =>
      if s.timerArmed then Transition(s.(auth := AuthState(None, false), timerArmed := false), Done, false)
      else Transition(s, Done, false)
    case SessionSettled(c) =>
      if !s.sessionPending then Transition(s, Done, false)
      else
        var cleared := s.(sessionPending := false, timerArmed := false);
        if c.SessionFor? then Transition(cleared.(initialFetchPending := true), Done, false)
        else Transition(cleared.(auth := AuthState(None, false)), Done, false)
    case InitialProfileLoaded(q) =>
      if !s.initialFetchPending then Transition(s, Done, false)
      else Transition(s.(auth := AfterProfileQuery(q), initialFetchPending := false), Done, q.ProfileError?)
    case AuthStateChanged(u) =>
      if !s.initialized then Transition(s, Done, false)
      else if u.Some? then Transition(s.(listenerFetches := s.listenerFetches + 1), Done, false)
      else Transition(s.(auth := AuthState(None, false)), Done, false)
    case ListenerProfileLoaded(q) =>
      if s.listenerFetches == 0 then Transition(s, Done, false)
      else Transition(s.(auth := AfterProfileQuery(q), listenerFetches := s.listenerFetches - 1),
                      Done, !q.ProfileFound?)
    case SignIn(a, q) =>
      Transition(s, SignInReply(a, q), false)
    case SignOut(err) =>
      if err.Some? then Transition(s, Thrown(err.value), false)
      else Transition(s.(auth := s.auth.(user := None)), Done, false)
  }

  /** The store after a sequence of events, in order. Once initialised it
      stays initialised, once `loading` is false it stays false, and each event
      starts at most one listener profile query. */
  function Run(s: Store, es: seq<Event>): (r: Store)
    ensures s.initialized ==> r.initialized
    ensures !s.auth.loading ==> !r.auth.loading
    ensures r.listenerFetches <= s.listenerFetches + |es|
    decreases |es|
  {
    if es == [] then s else Run(Step(s, es[0]).store, es[1..])
  }

  /** Running a non-empty sequence is one step followed by the rest. */
  lemma RunCons(s: Store, e: Event, es: seq<Event>)
    ensures Run(s, [e] + es) == Run(Step(s, e).store, es)
  {
    assert ([e] + es)[1..] == es;
  }

  /** The store is created signed out and loading. */
  lemma CreatedSignedOutAndLoading()
    ensures Created.auth.user == None && Created.auth.loading
    ensures Run(Created, []) == Created
  {
  }

  /** Once `loading` is false no sequence of events makes it true again. */
  lemma {:induction false} LoadingNeverReturns(s: Store, es: seq<Event>)
    requires !s.auth.loading
    ensures !Run(s, es).auth.loading
    decreases |es|
  {
    if es != [] {
      LoadingNeverReturns(Step(s, es[0]).store, es[1..]);
    }
  }

  /** Fail-closed: a user present after a run was either present before it
      or delivered by a successful profile query during it. */
  lemma {:induction false} UserOnlyFromProfileQuery(s: Store, es: seq<Event>, p: Profile)
    requires Run(s, es).auth.user == Some(p)
    ensures s.auth.user == Some(p) || exists i :: 0 <= i < |es| && LoadsProfile(es[i], p)
    decreases |es|
  {
    if es != [] {
      var s1 := Step(s, es[0]).store;
      UserOnlyFromProfileQuery(s1, es[1..], p);
      if s1.auth.user == Some(p) {
        if s.auth.user != Some(p) {
          assert LoadsProfile(es[0], p);
        }
      } else {
        var i :| 0 <= i < |es[1..]| && LoadsProfile(es[1..][i], p);
        assert LoadsProfile(es[i + 1], p);
      }
    }
  }

  /** From the created store, any signed-in user came from a profile row. */
  lemma {:induction false} SignedInOnlyAfterProfileQuery(es: seq<Event>, p: Profile)
    requires Run(Created, es).auth.user == Some(p)
    ensures exists i :: 0 <= i < |es| && LoadsProfile(es[i], p)
  {
    UserOnlyFromProfileQuery(Created, es, p);
  }

  /** While `loading` is true, something that will end it is still pending:
      the store is not initialized yet, the timer is armed, or a profile
      query is in flight. */
  ghost predicate LoadingHasCause(s: Store) {
    s.auth.loading ==>
      !s.initialized || s.timerArmed || s.initialFetchPending || s.listenerFetches > 0
  }

  /** Every step keeps `LoadingHasCause`. */
  lemma StepKeepsLoadingCause(s: Store, e: Event)
    requires LoadingHasCause(s)
    requires s.timerArmed ==> s.sessionPending
    ensures LoadingHasCause(Step(s, e).store)
    ensures Step(s, e).store.timerArmed ==> Step(s, e).store.sessionPending
  {
  }

  /** No run from the created store leaves `loading` true with nothing
      pending that would clear it. */
  lemma {:induction false} RunKeepsLoadingCause(s: Store, es: seq<Event>)
    requires LoadingHasCause(s)
    requires s.timerArmed ==> s.sessionPending
    ensures LoadingHasCause(Run(s, es))
    decreases |es|
  {
    if es != [] {
      StepKeepsLoadingCause(s, es[0]);
      RunKeepsLoadingCause(Step(s, es[0]).store, es[1..]);
    }
  }

  /** The listener path: once its profile query settles, the user is the
      fetched row, or else the remote session is signed out and the user
      cleared; `loading` ends false either way. */
  lemma ListenerProfileFailClosed(s: Store, q: ProfileQuery)
    requires s.listenerFetches > 0
    ensures Step(s, ListenerProfileLoaded(q)).store.auth ==
              if q.ProfileFound? then AuthState(Some(q.profile), false) else AuthState(None, false)
    ensures Step(s, ListenerProfileLoaded(q)).remoteSignOut <==> !q.ProfileFound?
  {
  }

  /** The initial-check path: the same outcome, but only an error result
      (not a thrown exception) signs the remote session out. */
  lemma InitialProfileFailClosed(s: Store, q: ProfileQuery)
    requires s.initialFetchPending
    ensures Step(s, InitialProfileLoaded(q)).store.auth ==
              if q.ProfileFound? then AuthState(Some(q.profile), false) else AuthState(None, false)
    ensures Step(s, InitialProfileLoaded(q)).remoteSignOut <==> q.ProfileError?
  {
  }

  /** No session, a session error, or a rejected `getSession()` clear the
      user and end loading, and clear the timer. A session defers to the
      profile query, also clearing the timer. */
  lemma SessionSettledOutcome(s: Store, c: SessionCheck)
    requires s.sessionPending
    ensures var t := Step(s, SessionSettled(c)).store;
      && !t.timerArmed
      && (c.SessionFor? ==> t.auth == s.auth && t.initialFetchPending)
      && (!c.SessionFor? ==> t.auth == AuthState(None, false))
  {
  }

  /** The listener called without a session clears the user and ends loading. */
  lemma ListenerWithoutSession(s: Store)
    requires s.initialized
    ensures Step(s, AuthStateChanged(None)).store.auth == AuthState(None, false)
  {
  }

  /** The timer, while armed, clears the user and ends loading; once
      cleared it does nothing. */
  lemma TimerOutcome(s: Store)
    ensures s.timerArmed ==> Step(s, TimerFired).store.auth == AuthState(None, false)
    ensures !s.timerArmed ==> Step(s, TimerFired).store == s
  {
  }

  /** `signOut`: a provider error is rethrown with the state unchanged;
      success clears the user and leaves `loading` as it was. */
  lemma SignOutOutcome(s: Store, err: Option<string>)
    ensures err.Some? ==> Step(s, SignOut(err)) == Transition(s, Thrown(err.value), false)
    ensures err.None? ==> Step(s, SignOut(err)).store.auth == AuthState(None, s.auth.loading)
  {
  }

  /** `signIn` leaves the store alone; it returns the profile row only when
      both the credentials and the profile lookup succeed. */
  lemma SignInOutcome(s: Store, a: SignInAuth, q: ProfileQuery)
    ensures Step(s, SignIn(a, q)).store == s
    ensures Step(s, SignIn(a, q)).reply.Returned? <==> a.AuthAccepted? && q.ProfileFound?
    ensures a.AuthRejected? ==> Step(s, SignIn(a, q)).reply == Thrown(a.message)
    ensures a.AuthAccepted? && q.ProfileError? ==>
              Step(s, SignIn(a, q)).reply == Thrown(ProfileNotFoundMessage)
    ensures Step(s, SignIn(a, q)).reply.Returned? ==> Step(s, SignIn(a, q)).reply.profile == q.profile
  {
  }

  /** The timer is cleared when `getSession()` settles, before the profile
      query: a profile query that never settles leaves `loading` true. */
  lemma HungProfileQueryKeepsLoading(u: string)
    ensures Run(Created, [Initialize, SessionSettled(SessionFor(u)), TimerFired]).auth == InitialState
  {
    var s1 := Step(Created, Initialize).store;
    var s2 := Step(s1, SessionSettled(SessionFor(u))).store;
    RunCons(s2, TimerFired, []);
    RunCons(s1, SessionSettled(SessionFor(u)), [TimerFired]);
    RunCons(Created, Initialize, [SessionSettled(SessionFor(u)), TimerFired]);
  }

  /** The timer sets `user` to null unconditionally: a profile the listener
      loaded before it fires is discarded. */
  lemma TimerDiscardsListenerProfile(u: string, p: Profile)
    ensures Run(Created, [Initialize, AuthStateChanged(Some(u)), ListenerProfileLoaded(ProfileFound(p)),
                          TimerFired]).auth == AuthState(None, false)
  {
    var e1, e2, e3 := AuthStateChanged(Some(u)), ListenerProfileLoaded(ProfileFound(p)), TimerFired;
    var s1 := Step(Created, Initialize).store;
    var s2 := Step(s1, e1).store;
    var s3 := Step(s2, e2).store;
    assert s3.auth.user == Some(p);
    RunCons(s3, e3, []);
    RunCons(s2, e2, [e3]);
    RunCons(s1, e1, [e2, e3]);
    RunCons(Created, Initialize, [e1, e2, e3]);
  }

  /** Nothing marks a result as stale: a profile query still in flight at
      sign-out puts the user back when it settles. */
  lemma LateProfileAfterSignOut(u: string, p: Profile)
    ensures Run(Created, [Initialize, AuthStateChanged(Some(u)), SignOut(None),
                          ListenerProfileLoaded(ProfileFound(p))]).auth.user == Some(p)
  {
    var e1, e2, e3 := AuthStateChanged(Some(u)), SignOut(None), ListenerProfileLoaded(ProfileFound(p));
    var s1 := Step(Created, Initialize).store;
    var s2 := Step(s1, e1).store;
    var s3 := Step(s2, e2).store;
    assert s3.auth.user == None;
    RunCons(s3, e3, []);
    RunCons(s2, e2, [e3]);
    RunCons(s1, e1, [e2, e3]);
    RunCons(Created, Initialize, [e1, e2, e3]);
  }
}
