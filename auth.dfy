/** The authentication state hook: one record `{user, session, loading,
    initializing}` rewritten by provider events, by the one-shot pull of the
    stored session, and by `signOut`. */
module UseAuth {
  import opened Base
  import opened Provider

  datatype AuthState = AuthState(user: Option<User>, session: Option<Session>, loading: bool, initializing: bool)

  /** The events the provider's change stream reports. */
  datatype AuthEvent = InitialSession | SignedIn | SignedOut | TokenRefreshed | UserUpdated | PasswordRecovery

  const InitialState := AuthState(None, None, true, true)
  const SignedOutState := AuthState(None, None, false, false)

  /** `user` is the session's user: present exactly when a session is. */
  predicate Coherent(s: AuthState) {
    s.user == UserOf(s.session)
  }

  /** `updateAuthState(session, isInitial)`: adopt the session and its user,
      stop loading, and clear `initializing` on the initial pull only. */
  function Updated(prev: AuthState, session: Option<Session>, isInitial: bool): (r: AuthState)
    ensures Coherent(r) && r.session == session && !r.loading
    ensures isInitial ==> !r.initializing
    ensures !isInitial ==> r.initializing == prev.initializing
  {
    prev.(session := session, user := UserOf(session), loading := false,
          initializing := if isInitial then false else prev.initializing)
  }

  /** The listener registered with `onAuthStateChange`. */
  function AfterEvent(prev: AuthState, event: AuthEvent, session: Option<Session>): (r: AuthState)
    ensures Coherent(r) && !r.loading
    ensures r.initializing ==> prev.initializing
    ensures event == SignedOut ==> r == SignedOutState
    ensures event != SignedOut ==> r.session == session && r.initializing == prev.initializing
  {
    var s := Updated(prev, session, false);
    if event == SignedIn then s.(loading := false)
    else if event == SignedOut then AuthState(None, None, false, false)
    else s
  }

  /** The `getSession()` callback: overwrites the state with whatever the
      store answered, whatever events came before. */
  function AfterPull(prev: AuthState, session: Option<Session>): (r: AuthState)
    ensures Coherent(r) && r.session == session && !r.loading && !r.initializing
  {
    Updated(prev, session, true)
  }

  /** The first step of `signOut`. */
  function AfterSignOutStart(prev: AuthState): (r: AuthState)
    ensures r.loading && r.user == prev.user && r.session == prev.session && r.initializing == prev.initializing
  {
    prev.(loading := true)
  }

  /** `signOut` when the provider reports an error: only `loading` drops. */
  function AfterSignOutError(prev: AuthState): (r: AuthState)
    ensures !r.loading && r.user == prev.user && r.session == prev.session && r.initializing == prev.initializing
  {
    prev.(loading := false)
  }

  /** One state-changing step of the hook. */
  datatype Step =
    | Event(event: AuthEvent, session: Option<Session>)
    | Pull(session: Option<Session>)
    | SignOutStart
    | SignOutError

  function Apply(s: AuthState, step: Step): AuthState {
    match step
    case Event(e, session) => AfterEvent(s, e, session)
    case Pull(session) => AfterPull(s, session)
    case SignOutStart => AfterSignOutStart(s)
    case SignOutError => AfterSignOutError(s)
  }

  /** The state after a sequence of steps. */
  function Run(s: AuthState, steps: seq<Step>): AuthState
    decreases |steps|
  {
    if steps == [] then s else Run(Apply(s, steps[0]), steps[1..])
  }

  /** Whether a step settles the first answer: the pull, or a sign-out. */
  predicate Resolves(step: Step) {
    step.Pull? || (step.Event? && step.event == SignedOut)
  }

  /** Over any sequence of steps `user` keeps matching the session, and
      `initializing` never turns back on. */
  lemma {:induction false} RunPreserves(s: AuthState, steps: seq<Step>)
    requires Coherent(s)
    ensures Coherent(Run(s, steps))
    ensures Run(s, steps).initializing ==> s.initializing
    decreases |steps|
  {
    if steps != [] {
      RunPreserves(Apply(s, steps[0]), steps[1..]);
    }
  }

  /** Once a step that resolves the first answer has run, `initializing`
      stays false for the rest of the run. */
  lemma {:induction false} ResolvedStaysResolved(s: AuthState, steps: seq<Step>, k: nat)
    requires k < |steps| && Resolves(steps[k])
    ensures !Run(s, steps).initializing
    decreases |steps|
  {
    if k == 0 {
      RunAfterCleared(Apply(s, steps[0]), steps[1..]);
    } else {
      ResolvedStaysResolved(Apply(s, steps[0]), steps[1..], k - 1);
    }
  }

  lemma {:induction false} RunAfterCleared(s: AuthState, steps: seq<Step>)
    requires !s.initializing
    ensures !Run(s, steps).initializing
    decreases |steps|
  {
    if steps != [] {
      RunAfterCleared(Apply(s, steps[0]), steps[1..]);
    }
  }

  /** As written, a pull that answers "no session" after a `SIGNED_IN` event
      undoes the sign-in: the pull is not merged with earlier events. */
  lemma LateEmptyPullUndoesSignIn(s: AuthState, session: Session)
    ensures Run(s, [Event(SignedIn, Some(session)), Pull(None)]).user == None
    ensures Run(s, [Pull(None), Event(SignedIn, Some(session))]).user == Some(session.user)
  {
    assert Run(s, [Event(SignedIn, Some(session)), Pull(None)])
        == Run(AfterEvent(s, SignedIn, Some(session)), [Pull(None)]);
    var pulled := AfterPull(s, None);
    assert Run(s, [Pull(None), Event(SignedIn, Some(session))]) == Run(pulled, [Event(SignedIn, Some(session))]);
    assert Run(pulled, [Event(SignedIn, Some(session))]) == Run(AfterEvent(pulled, SignedIn, Some(session)), []);
  }

  /** The hook instance. `initialized` is the ref that makes setup run once;
      `subscribed` says whether the listener is registered with the
      provider; `pullsInFlight` counts `getSession` requests not yet
      answered. */
  class AuthController {
    var user: Option<User>
    var session: Option<Session>
    var loading: bool
    var initializing: bool
    var initialized: bool
    var subscribed: bool
    var pullsInFlight: nat

    function State(): AuthState
      reads this
    {
      AuthState(user, session, loading, initializing)
    }

    ghost predicate Valid()
      reads this
    {
      Coherent(State()) && subscribed == initialized
    }

    constructor ()
      ensures Valid() && State() == InitialState
      ensures !initialized && !subscribed && pullsInFlight == 0
    {
      user, session, loading, initializing := None, None, true, true;
      initialized, subscribed, pullsInFlight := false, false, 0;
    }

    /** `isAuthenticated` */
    function IsAuthenticated(): (r: bool)
      requires Valid()
      reads this
      ensures r <==> user.Some?
      ensures r ==> session.Some? && session.value.user == user.value
    {
      user.Some?
    }

    /** The effect body: skipped while the flag is set; otherwise sets the
        flag, subscribes first and then issues the pull. */
    method Setup() returns (ran: bool)
      requires Valid()
      modifies this
      ensures Valid()
      ensures ran == !old(initialized)
      ensures initialized && subscribed
      ensures State() == old(State())
      ensures pullsInFlight == old(pullsInFlight) + (if ran then 1 else 0)
    {
      if initialized {
        return false;
      }
      initialized := true;
      subscribed := true;
      pullsInFlight := pullsInFlight + 1;
      ran := true;
    }

    /** The effect's cleanup: unsubscribes and clears the flag together, so
        a following `Setup` runs again. Without a live subscription there
        is nothing to clean up. */
    method Teardown()
      requires Valid()
      modifies this
      ensures Valid()
      ensures !initialized && !subscribed
      ensures State() == old(State()) && pullsInFlight == old(pullsInFlight)
    {
      if subscribed {
        subscribed := false;
        initialized := false;
      }
    }

    method UpdateAuthState(s: Option<Session>, isInitial: bool)
      modifies this`user, this`session, this`loading, this`initializing
      ensures State() == Updated(old(State()), s, isInitial)
    {
      session := s;
      user := UserOf(s);
      loading := false;
      if isInitial {
        initializing := false;
      }
    }

    /** The provider emits an event; it reaches the hook only while the
        listener is registered. */
    method ProviderEmits(event: AuthEvent, s: Option<Session>)
      requires Valid()
      modifies this
      ensures Valid()
      ensures State() == if old(subscribed) then AfterEvent(old(State()), event, s) else old(State())
      ensures initialized == old(initialized) && subscribed == old(subscribed)
      ensures pullsInFlight == old(pullsInFlight)
    {
      if !subscribed {
        return;
      }
      UpdateAuthState(s, false);
      if event == SignedIn {
        loading := false;
      } else if event == SignedOut {
        user, session, loading, initializing := None, None, false, false;
      }
    }

    /** A pending `getSession()` answers. */
    method PullResolves(s: Option<Session>)
      requires Valid() && pullsInFlight > 0
      modifies this
      ensures Valid()
      ensures State() == AfterPull(old(State()), s)
      ensures initialized == old(initialized) && subscribed == old(subscribed)
      ensures pullsInFlight == old(pullsInFlight) - 1
    {
      UpdateAuthState(s, true);
      pullsInFlight := pullsInFlight - 1;
    }

    /** `signOut`, up to the provider call: loading is raised first. */
    method BeginSignOut()
      requires Valid()
      modifies this`loading
      ensures Valid()
      ensures State() == AfterSignOutStart(old(State()))
    {
      loading := true;
    }

    /** `signOut`, once the provider answered: on error `loading` drops and
        the error is rethrown (returned); on success nothing changes here,
        the provider's `SIGNED_OUT` event does the reset. */
    method FinishSignOut(providerError: Option<string>) returns (thrown: Option<string>)
      requires Valid()
      modifies this`loading
      ensures Valid()
      ensures thrown == providerError
      ensures State() == if providerError.Some? then AfterSignOutError(old(State())) else old(State())
    {
      if providerError.Some? {
        loading := false;
        return providerError;
      }
      thrown := None;
    }
  }

  /** A controller that is torn down and set up again subscribes once and
      issues a fresh pull, as a new instance would. */
  method RemountResubscribes(c: AuthController)
    requires c.Valid() && c.initialized
    modifies c
    ensures c.Valid() && c.initialized && c.subscribed
    ensures c.pullsInFlight == old(c.pullsInFlight) + 1
    ensures c.State() == old(c.State())
  {
    c.Teardown();
    var ran := c.Setup();
    assert ran;
  }
}
