/**
 * The authentication state kept by src/components/ClientUserProvider.tsx:
 * the `isAuthenticated` flag of the auth store, the `['user']` entry of the
 * query cache and the module-level `hasShownLoginToast` flag, moved by the
 * initial `getUser` check and by the `onAuthStateChange` callback. The
 * transition is a function on snapshots; the provider class applies it to
 * its fields.
 */
module UserProvider {
  import opened Wrappers

  /** The signed-in user; `createdAtMs` is `None` when `created_at` does not parse as a date. */
  datatype User = User(id: string, createdAtMs: Option<int>)

  datatype AuthEvent = SignedIn | TokenRefreshed | SignedOut | OtherEvent(name: string)

  datatype Toast = Welcome | LoginSuccess | LogoutInfo

  datatype AuthState = AuthState(isAuthenticated: bool, cachedUser: Option<User>, hasShownLoginToast: bool)

  /** One callback invocation: the event, `session?.user`, and the clock in milliseconds. */
  datatype Notification = Notification(event: AuthEvent, sessionUser: Option<User>, nowMs: int)

  datatype Step = Step(state: AuthState, toast: Option<Toast>)

  /** A user created less than this many milliseconds ago has just signed up. */
  const NewUserWindowMs: int := 10000

  /**
   * `now - new Date(created_at) < 10000`; an unparsable date gives `NaN`,
   * which compares false.
   */
  predicate IsNewUser(user: User, nowMs: int)
  {
    user.createdAtMs.Some? && nowMs - user.createdAtMs.value < NewUserWindowMs
  }

  /** The success toast of a first sign-in. */
  function LoginToast(user: User, nowMs: int): Toast
  {
    if IsNewUser(user, nowMs) then Welcome else LoginSuccess
  }

  /** The result of `initializeAuth`: the flag and the cache follow `getUser`; the toast flag is kept. */
  function Initialize(s: AuthState, user: Option<User>, error: bool): AuthState
  {
    if !error && user.Some? then AuthState(true, user, s.hasShownLoginToast)
    else AuthState(false, None, s.hasShownLoginToast)
  }

  /** The `onAuthStateChange` callback. */
  function Transition(s: AuthState, n: Notification): Step
  {
    if n.event == SignedIn && n.sessionUser.Some? && !s.hasShownLoginToast then
      Step(AuthState(true, n.sessionUser, true), Some(LoginToast(n.sessionUser.value, n.nowMs)))
    else if n.event == TokenRefreshed && n.sessionUser.Some? then
      Step(AuthState(true, n.sessionUser, s.hasShownLoginToast), None)
    else if n.event == SignedOut then
      Step(AuthState(false, None, false), Some(LogoutInfo))
    else
      Step(s, None)
  }

  /** The state after a sequence of callbacks and the toasts they showed, in order. */
  function Run(s: AuthState, ns: seq<Notification>): Step
  {
    if ns == [] then Step(s, None)
    else Transition(Run(s, ns[..|ns| - 1]).state, ns[|ns| - 1])
  }

  function Toasts(s: AuthState, ns: seq<Notification>): seq<Toast>
  {
    if ns == [] then []
    else
      var previous := Run(s, ns[..|ns| - 1]).state;
      var t := Transition(previous, ns[|ns| - 1]).toast;
      Toasts(s, ns[..|ns| - 1]) + (if t.Some? then [t.value] else [])
  }

  /** The number of sign-in success toasts (welcome or login) in a list. */
  function SuccessCount(ts: seq<Toast>): nat
  {
    if ts == [] then 0 else SuccessCount(ts[..|ts| - 1]) + (if ts[|ts| - 1] != LogoutInfo then 1 else 0)
  }

  // ---------------------------------------------------------------------------
  // One step

  /** The initial check authenticates exactly when there is a user and no error, and caches exactly that. */
  lemma InitializeFollowsGetUser(s: AuthState, user: Option<User>, error: bool)
    ensures Initialize(s, user, error).isAuthenticated <==> !error && user.Some?
    ensures Initialize(s, user, error).cachedUser == (if !error then user else None)
    ensures Initialize(s, user, error).hasShownLoginToast == s.hasShownLoginToast
  {
  }

  /** A first sign-in authenticates, caches the user, sets the flag and shows exactly one success toast. */
  lemma FirstSignIn(s: AuthState, user: User, nowMs: int)
    requires !s.hasShownLoginToast
    ensures var step := Transition(s, Notification(SignedIn, Some(user), nowMs));
      && step.state == AuthState(true, Some(user), true)
      && step.toast.Some? && step.toast.value != LogoutInfo
      && (step.toast == Some(Welcome) <==> user.createdAtMs.Some? && nowMs - user.createdAtMs.value < 10000)
  {
  }

  /** A sign-in while the flag is set, or without a user, changes nothing and shows nothing. */
  lemma RepeatedSignIn(s: AuthState, sessionUser: Option<User>, nowMs: int)
    requires s.hasShownLoginToast || sessionUser.None?
    ensures Transition(s, Notification(SignedIn, sessionUser, nowMs)) == Step(s, None)
  {
  }

  /** A token refresh with a user authenticates and caches it, keeps the flag and shows no toast. */
  lemma TokenRefreshKeepsFlag(s: AuthState, user: User, nowMs: int)
    ensures Transition(s, Notification(TokenRefreshed, Some(user), nowMs))
         == Step(AuthState(true, Some(user), s.hasShownLoginToast), None)
  {
  }

  /** A sign-out clears everything and shows the info toast, whatever the state. */
  lemma SignOutClears(s: AuthState, sessionUser: Option<User>, nowMs: int)
    ensures Transition(s, Notification(SignedOut, sessionUser, nowMs)) == Step(AuthState(false, None, false), Some(LogoutInfo))
  {
  }

  /** Only a sign-in can show a success toast, and only a sign-out sets the flag back. */
  lemma TransitionToasts(s: AuthState, n: Notification)
    ensures var step := Transition(s, n);
      && (step.toast.Some? && step.toast.value != LogoutInfo <==>
            n.event == SignedIn && n.sessionUser.Some? && !s.hasShownLoginToast)
      && (step.toast == Some(LogoutInfo) <==> n.event == SignedOut)
      && (n.event != SignedOut ==> (s.hasShownLoginToast ==> step.state.hasShownLoginToast))
      && (step.state.hasShownLoginToast <==>
            (s.hasShownLoginToast && n.event != SignedOut) || (step.toast.Some? && step.toast.value != LogoutInfo))
  {
  }

  // ---------------------------------------------------------------------------
  // Traces

  lemma SuccessCountAppend(ts: seq<Toast>, more: seq<Toast>)
    ensures SuccessCount(ts + more) == SuccessCount(ts) + SuccessCount(more)
    decreases |more|
  {
    if more == [] {
      assert ts + more == ts;
    } else {
      assert (ts + more)[..|ts + more| - 1] == ts + more[..|more| - 1];
      SuccessCountAppend(ts, more[..|more| - 1]);
    }
  }

  /**
   * Without a sign-out, the flag ends up set exactly when it was set at the
   * start or a success toast was shown, and at most one success toast is
   * shown, none if the flag was set at the start.
   */
  lemma {:induction false} OneToastPerSignIn(s: AuthState, ns: seq<Notification>)
    requires forall i :: 0 <= i < |ns| ==> ns[i].event != SignedOut
    ensures SuccessCount(Toasts(s, ns)) + (if s.hasShownLoginToast then 1 else 0)
         == (if Run(s, ns).state.hasShownLoginToast then 1 else 0)
  {
    if ns != [] {
      var prefix := ns[..|ns| - 1];
      var last := ns[|ns| - 1];
      OneToastPerSignIn(s, prefix);
      var previous := Run(s, prefix).state;
      var t := Transition(previous, last).toast;
      TransitionToasts(previous, last);
      SuccessCountAppend(Toasts(s, prefix), if t.Some? then [t.value] else []);
      if t.Some? {
        assert SuccessCount([t.value]) == SuccessCount([]) + (if t.value != LogoutInfo then 1 else 0);
      }
    }
  }

  /** Between two sign-outs at most one sign-in success toast is shown. */
  lemma AtMostOneLoginToast(s: AuthState, ns: seq<Notification>)
    requires forall i :: 0 <= i < |ns| ==> ns[i].event != SignedOut
    ensures SuccessCount(Toasts(s, ns)) <= 1
    ensures s.hasShownLoginToast ==> SuccessCount(Toasts(s, ns)) == 0
  {
    OneToastPerSignIn(s, ns);
  }

  /** The provider's mutable state, starting from the store's and the module's initial values. */
  class ClientUserProvider {
    var isAuthenticated: bool
    var cachedUser: Option<User>
    var hasShownLoginToast: bool

    function State(): AuthState
      reads this
    {
      AuthState(isAuthenticated, cachedUser, hasShownLoginToast)
    }

    constructor ()
      ensures State() == AuthState(false, None, false)
    {
      isAuthenticated, cachedUser, hasShownLoginToast := false, None, false;
    }

    /** `initializeAuth` once `getUser` has answered. */
    method InitializeAuth(user: Option<User>, error: bool)
      modifies this
      ensures State() == Initialize(old(State()), user, error)
    {
      if !error && user.Some? {
        isAuthenticated := true;
        cachedUser := user;
      } else {
        isAuthenticated := false;
        cachedUser := None;
      }
    }

    /** The `onAuthStateChange` callback: the new state and the toast it shows. */
    method OnAuthStateChange(n: Notification) returns (toast: Option<Toast>)
      modifies this
      ensures Step(State(), toast) == Transition(old(State()), n)
    {
      toast := None;
      if n.event == SignedIn && n.sessionUser.Some? && !hasShownLoginToast {
        var user := n.sessionUser.value;
        isAuthenticated := true;
        cachedUser := Some(user);
        hasShownLoginToast := true;
        var timeDiff := n.nowMs - (if user.createdAtMs.Some? then user.createdAtMs.value else 0);
        var isNewUser := user.createdAtMs.Some? && timeDiff < NewUserWindowMs;
        if isNewUser {
          toast := Some(Welcome);
        } else {
          toast := Some(LoginSuccess);
        }
      } else if n.event == TokenRefreshed && n.sessionUser.Some? {
        isAuthenticated := true;
        cachedUser := n.sessionUser;
      } else if n.event == SignedOut {
        isAuthenticated := false;
        cachedUser := None;
        hasShownLoginToast := false;
        toast := Some(LogoutInfo);
      }
    }
  }
}
