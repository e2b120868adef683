/**
 * The authentication slice (store/slices/authSlice.ts): its state record,
 * the three plain reducers, the pending/fulfilled/rejected case of each of
 * the four thunks, and how a thunk turns the outcome of its service call into
 * the payload of its action. The service calls themselves are not modelled:
 * their outcome is an input.
 */
module AuthSlice {
  import opened Wrappers
  import opened JsString
  import opened Constants

  datatype User = User(id: string, email: string, name: Option<string>, subscriptionTier: Option<string>)

  datatype AuthState = AuthState(
    user: Option<User>,
    token: Option<string>,
    isAuthenticated: bool,
    isLoading: bool,
    error: Option<string>)

  const Initial: AuthState := AuthState(None, None, false, false, None)

  /** The slice's invariant: signed in exactly when a user is stored. */
  predicate Consistent(s: AuthState)
    ensures s == Initial ==> Consistent(s)
  {
    s.isAuthenticated <==> s.user.Some?
  }

  datatype Thunk = SignUp | SignIn | SignOut | GetSession

  /** The `{ user, token }` a fulfilled sign-up, sign-in or session lookup carries. */
  datatype Payload = Payload(user: Option<User>, token: Option<string>)

  /** The actions the slice handles; a fulfilled sign-out carries `null`, so its payload is ignored. */
  datatype Action =
    | SetUser(newUser: Option<User>)
    | SetToken(newToken: Option<string>)
    | ClearError
    | Pending(thunk: Thunk)
    | Fulfilled(thunk: Thunk, payload: Payload)
    | Rejected(thunk: Thunk, message: string)

  /** What the slice's reducer makes of one action. */
  function Reduce(s: AuthState, a: Action): (t: AuthState)
    // the invariant
    ensures Consistent(s) ==> Consistent(t)
    // only `setUser` and the fulfilled cases write the user, and they set the flag from it
    ensures t.user != s.user ==> a.SetUser? || a.Fulfilled?
    ensures a.SetUser? ==> t.user == a.newUser && Consistent(t)
    // the plain reducers' frames
    ensures a.SetUser? ==> t.token == s.token && t.isLoading == s.isLoading && t.error == s.error
    ensures a.SetToken? ==> t == s.(token := a.newToken)
    ensures a.ClearError? ==> t == s.(error := None)
    // every pending case
    ensures a.Pending? ==> t.isLoading && t.error.None?
    ensures a.Pending? || a.Rejected? ==>
      t.user == s.user && t.token == s.token && t.isAuthenticated == s.isAuthenticated
    // every settled case
    ensures a.Fulfilled? || a.Rejected? ==> !t.isLoading
    ensures a.Rejected? ==> t.error == Some(a.message)
    ensures a.Fulfilled? ==> t.error == s.error
    ensures a.Fulfilled? && a.thunk != SignOut ==>
      t.user == a.payload.user && t.token == a.payload.token && Consistent(t)
    ensures a.Fulfilled? && a.thunk == SignOut ==> t.user.None? && t.token.None? && !t.isAuthenticated
  {
    match a
    case SetUser(u) => s.(user := u, isAuthenticated := u.Some?)
    case SetToken(tok) => s.(token := tok)
    case ClearError => s.(error := None)
    case Pending(_) => s.(isLoading := true, error := None)
    case Fulfilled(th, pl) =>
      if th == SignOut then s.(isLoading := false, user := None, token := None, isAuthenticated := false)
      else s.(isLoading := false, user := pl.user, token := pl.token, isAuthenticated := pl.user.Some?)
    case Rejected(_, m) => s.(isLoading := false, error := Some(m))
  }

  /** The state after a sequence of actions, dispatched one after another. */
  function Run(s: AuthState, actions: seq<Action>): (t: AuthState)
    // the slice's invariant holds after every dispatch
    ensures Consistent(s) ==> Consistent(t)
    // the last action dispatched decides the loading flag, and a last rejection shows its message
    ensures actions != [] && actions[|actions| - 1].Pending? ==> t.isLoading && t.error.None?
    ensures actions != [] && (actions[|actions| - 1].Fulfilled? || actions[|actions| - 1].Rejected?) ==> !t.isLoading
    ensures actions != [] && actions[|actions| - 1].Rejected? ==> t.error == Some(actions[|actions| - 1].message)
    decreases |actions|
  {
    if actions == [] then s else Run(Reduce(s, actions[0]), actions[1..])
  }

  /** Two actions in a row. */
  lemma RunTwo(s: AuthState, a: Action, b: Action)
    ensures Run(s, [a, b]) == Reduce(Reduce(s, a), b)
  {
    assert [a, b][1..] == [b];
    assert [b][1..] == [];
    assert Run(s, [a, b]) == Run(Reduce(s, a), [b]);
    assert Run(Reduce(s, a), [b]) == Run(Reduce(Reduce(s, a), b), []);
  }

  /** The initial state is consistent, and so is every state reached from it. */
  lemma {:induction false} RunKeepsConsistent(s: AuthState, actions: seq<Action>)
    requires Consistent(s)
    ensures Consistent(Run(s, actions))
    decreases |actions|
  {
    if actions != [] {
      RunKeepsConsistent(Reduce(s, actions[0]), actions[1..]);
    }
  }

  lemma ReachableIsConsistent(actions: seq<Action>)
    ensures Consistent(Run(Initial, actions))
  {
    RunKeepsConsistent(Initial, actions);
  }

  /** A failed sign-out leaves a signed-in user signed in, with the error shown. */
  lemma FailedSignOutKeepsUser(s: AuthState, message: string)
    requires Consistent(s) && s.isAuthenticated
    ensures var t := Run(s, [Pending(SignOut), Rejected(SignOut, message)]);
      t.isAuthenticated && t.user == s.user && t.token == s.token && !t.isLoading && t.error == Some(message)
  {
    RunTwo(s, Pending(SignOut), Rejected(SignOut, message));
  }

  /** The pending case of any thunk clears an earlier error, and only a later rejection sets one. */
  lemma RetryClearsError(s: AuthState, th: Thunk, p: Payload)
    requires s.error.Some?
    ensures Run(s, [Pending(th), Fulfilled(th, p)]).error.None?
  {
    RunTwo(s, Pending(th), Fulfilled(th, p));
  }

  // ------------------------------------------------------- payload shaping

  /** The part of a session the thunks read. */
  datatype Session = Session(accessToken: Option<string>)

  /** What `authService.signUp` and `authService.signIn` resolve to. */
  datatype AuthResponse = AuthResponse(user: Option<User>, session: Option<Session>)

  /** `session?.access_token || null`. */
  function TokenOf(session: Option<Session>): (token: Option<string>)
    ensures token.Some? <==> session.Some? && Truthy(session.value.accessToken)
    ensures token.Some? ==> token == session.value.accessToken && token.value != ""
  {
    match session
    case None => None
    case Some(sn) => if Truthy(sn.accessToken) then sn.accessToken else None
  }

  /** The payload of a fulfilled sign-up or sign-in. */
  function ResponsePayload(r: AuthResponse): (p: Payload)
    ensures p.user == r.user
    ensures p.token.Some? <==> r.session.Some? && Truthy(r.session.value.accessToken)
  {
    Payload(r.user, TokenOf(r.session))
  }

  /** The payload of a fulfilled `getSession`: nothing without a session, else the current user. */
  function SessionPayload(session: Option<Session>, currentUser: Option<User>): (p: Payload)
    ensures session.None? ==> p == Payload(None, None)
    ensures session.Some? ==> p.user == currentUser && p.token == TokenOf(session)
  {
    if session.None? then Payload(None, None) else Payload(currentUser, TokenOf(session))
  }

  /** `error.message || fallback`: the authentication message for sign-up and sign-in, the default otherwise. */
  function RejectionMessage(th: Thunk, message: Option<string>): (m: string)
    ensures Truthy(message) ==> m == message.value
    ensures !Truthy(message) && (th == SignUp || th == SignIn) ==> m == ErrorAuth
    ensures !Truthy(message) && (th == SignOut || th == GetSession) ==> m == ErrorDefault
    ensures m != ""
  {
    if Truthy(message) then message.value
    else if th == SignUp || th == SignIn then ErrorAuth
    else ErrorDefault
  }

  /** How a service call ended: with its result, or by throwing an error with an optional message. */
  datatype Outcome =
    | Resolved(payload: Payload)
    | Threw(errorMessage: Option<string>)

  /** The action a thunk dispatches when its service call ends. */
  function Settle(th: Thunk, outcome: Outcome): (a: Action)
    ensures a.Fulfilled? <==> outcome.Resolved?
    ensures a.Fulfilled? || a.Rejected?
    ensures a.thunk == th
    ensures a.Rejected? ==> a.message == RejectionMessage(th, outcome.errorMessage)
  {
    match outcome
    case Resolved(p) => Fulfilled(th, p)
    case Threw(m) => Rejected(th, RejectionMessage(th, m))
  }

  /** After any failed call the state holds a non-empty error and is no longer loading. */
  lemma FailureAlwaysShowsError(s: AuthState, th: Thunk, m: Option<string>)
    ensures Truthy(Run(s, [Pending(th), Settle(th, Threw(m))]).error)
    ensures !Run(s, [Pending(th), Settle(th, Threw(m))]).isLoading
  {
    RunTwo(s, Pending(th), Settle(th, Threw(m)));
  }

  /** Signing in with an account whose response carries no session stores the user without a token. */
  lemma SignInWithoutSession(s: AuthState, u: User)
    ensures var t := Reduce(s, Settle(SignIn, Resolved(ResponsePayload(AuthResponse(Some(u), None)))));
      t.isAuthenticated && t.user == Some(u) && t.token.None?
  {
  }

  /** `getSession` without a session signs the app out. */
  lemma NoSessionSignsOut(s: AuthState, currentUser: Option<User>)
    ensures var t := Reduce(s, Settle(GetSession, Resolved(SessionPayload(None, currentUser))));
      !t.isAuthenticated && t.user.None? && t.token.None?
  {
  }

  // ------------------------------------------------------- the store's draft

  /** The slice's state as the reducers mutate it, one field assignment at a time. */
  class AuthStore {
    var user: Option<User>
    var token: Option<string>
    var isAuthenticated: bool
    var isLoading: bool
    var error: Option<string>

    function State(): AuthState
      reads this
    {
      AuthState(user, token, isAuthenticated, isLoading, error)
    }

    constructor ()
      ensures State() == Initial
    {
      user := None;
      token := None;
      isAuthenticated := false;
      isLoading := false;
      error := None;
    }

    method SetUser(u: Option<User>)
      modifies this
      ensures State() == Reduce(old(State()), Action.SetUser(u))
    {
      user := u;
      isAuthenticated := u.Some?;
    }

    method SetToken(tok: Option<string>)
      modifies this
      ensures State() == Reduce(old(State()), Action.SetToken(tok))
    {
      token := tok;
    }

    method ClearError()
      modifies this
      ensures State() == Reduce(old(State()), Action.ClearError)
    {
      error := None;
    }

    method Pending(th: Thunk)
      modifies this
      ensures State() == Reduce(old(State()), Action.Pending(th))
    {
      isLoading := true;
      error := None;
    }

    method Fulfilled(th: Thunk, p: Payload)
      modifies this
      ensures State() == Reduce(old(State()), Action.Fulfilled(th, p))
    {
      isLoading := false;
      if th == SignOut {
        user := None;
        token := None;
        isAuthenticated := false;
      } else {
        user := p.user;
        token := p.token;
        isAuthenticated := p.user.Some?;
      }
    }

    method Rejected(th: Thunk, message: string)
      modifies this
      ensures State() == Reduce(old(State()), Action.Rejected(th, message))
    {
      isLoading := false;
      error := Some(message);
    }

    /** Dispatching an action runs the case the slice registers for it. */
    method Dispatch(a: Action)
      modifies this
      ensures State() == Reduce(old(State()), a)
      ensures Consistent(old(State())) ==> Consistent(State())
    {
      match a {
        case SetUser(u) => SetUser(u);
        case SetToken(tok) => SetToken(tok);
        case ClearError => ClearError();
        case Pending(th) => Pending(th);
        case Fulfilled(th, p) => Fulfilled(th, p);
        case Rejected(th, m) => Rejected(th, m);
      }
    }
  }
}
