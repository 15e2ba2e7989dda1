/** The client's session state of client/src/contexts/AuthContext.tsx: the
    reducer that every sign-in, sign-out and profile change goes through, the
    `login`/`register` sequences of actions it receives, and `updateUser`,
    which merges a partial profile into the signed-in user. */
module AuthContext {
  import opened Common

  datatype User = User(
    id: string,
    name: string,
    email: string,
    role: Role,
    avatar: Option<string>,
    phone: Option<string>,
    bio: Option<string>,
    isVerified: bool,
    createdAt: string,
    updatedAt: string)

  /** A `Partial<User>`: every field may be left out. */
  datatype UserPatch = UserPatch(
    id: Option<string>,
    name: Option<string>,
    email: Option<string>,
    role: Option<Role>,
    avatar: Option<string>,
    phone: Option<string>,
    bio: Option<string>,
    isVerified: Option<bool>,
    createdAt: Option<string>,
    updatedAt: Option<string>)

  datatype AuthState = AuthState(user: Option<User>, token: Option<string>, loading: bool, error: Option<string>)

  datatype Action =
    | LoginStart
    | LoginSuccess(user: User, token: string)
    | LoginFailure(message: string)
    | Logout
    | UpdateUser(payload: User)
    | ClearError
    | SetLoading(loading: bool)
      /** An action of any other type, which the reducer ignores. */
    | Unknown

  /** The state before anything is known: nobody signed in, loading while the
      stored token is checked. */
  const Initial: AuthState := AuthState(None, None, true, None)

  /** `authReducer`. */
  function Reduce(s: AuthState, a: Action): (r: AuthState)
  {
    match a
    case LoginStart => s.(loading := true, error := None)
    case LoginSuccess(u, t) => s.(loading := false, user := Some(u), token := Some(t), error := None)
    case LoginFailure(m) => s.(loading := false, error := Some(m))
    case Logout => Initial
    case UpdateUser(u) => s.(user := Some(u))
    case ClearError => s.(error := None)
    case SetLoading(b) => s.(loading := b)
    case Unknown => s
  }

  /** What each action changes and what it leaves alone: starting a sign-in
      and a failed sign-in keep the session, a success replaces it and clears
      the error, and the single-field actions touch only their own field. */
  lemma ReduceFrame(s: AuthState, a: Action)
    ensures var r := Reduce(s, a);
      && (a.LoginStart? ==> r.user == s.user && r.token == s.token && r.loading && r.error.None?)
      && (a.LoginSuccess? ==> r.user == Some(a.user) && r.token == Some(a.token) && !r.loading && r.error.None?)
      && (a.LoginFailure? ==> r.user == s.user && r.token == s.token && !r.loading && r.error == Some(a.message))
      && (a.UpdateUser? ==> r == s.(user := Some(a.payload)))
      && (a.ClearError? ==> r == s.(error := None))
      && (a.SetLoading? ==> r == s.(loading := a.loading))
      && (a.Logout? ==> r == Initial)
      && (a.Unknown? ==> r == s)
  {
  }

  /** Signing out returns to `initialState` (no user, no token, no error,
      and loading), whatever the state was, so doing it twice is doing it
      once. */
  lemma LogoutForgetsEverything(s: AuthState, t: AuthState)
    ensures Reduce(s, Logout) == Initial
    ensures Reduce(s, Logout).loading && Reduce(s, Logout).error.None?
    ensures Reduce(s, Logout) == Reduce(t, Logout)
    ensures Reduce(s, Logout).user.None? && Reduce(s, Logout).token.None?
    ensures Reduce(Reduce(s, Logout), Logout) == Reduce(s, Logout)
  {
  }

  /** Clearing the error, setting the loading flag and storing a user are
      idempotent. */
  lemma SingleFieldActionsIdempotent(s: AuthState, b: bool, u: User)
    ensures Reduce(Reduce(s, ClearError), ClearError) == Reduce(s, ClearError)
    ensures Reduce(Reduce(s, UpdateUser(u)), UpdateUser(u)) == Reduce(s, UpdateUser(u))
    ensures Reduce(Reduce(s, SetLoading(b)), SetLoading(b)) == Reduce(s, SetLoading(b))
  {
  }

  /** A user is present exactly when a token is: the session is either
      signed in with both or signed out with neither. */
  predicate SessionConsistent(s: AuthState) {
    s.user.Some? <==> s.token.Some?
  }

  lemma InitialConsistent()
    ensures SessionConsistent(Initial) && Initial.loading && Initial.user.None?
  {
  }

  /** Every action except a bare `UPDATE_USER` keeps the session consistent;
      the provider only dispatches that one through `updateUser`, which checks
      for a signed-in user first (`UpdateUserKeepsSession`). */
  lemma ReducePreservesSession(s: AuthState, a: Action)
    requires SessionConsistent(s)
    requires a.UpdateUser? ==> s.user.Some?
    ensures SessionConsistent(Reduce(s, a))
  {
  }

  /** A bare `UPDATE_USER` on a signed-out state yields a user without a
      token. */
  lemma BareUpdateUserBreaksSession(u: User)
    ensures SessionConsistent(Initial)
    ensures !SessionConsistent(Reduce(Initial, UpdateUser(u)))
  {
  }

  // ---------------------------------------------------------------------------
  // updateUser

  /** `{ ...user, ...patch }`: every field the patch carries overrides the
      user's. */
  function Merge(u: User, p: UserPatch): (r: User)
    ensures p.name.Some? ==> r.name == p.name.value
    ensures p.name.None? ==> r.name == u.name
    ensures p.role.Some? ==> r.role == p.role.value
    ensures p.role.None? ==> r.role == u.role
    ensures p.email.Some? ==> r.email == p.email.value
    ensures p.email.None? ==> r.email == u.email
    ensures p.id.Some? ==> r.id == p.id.value
    ensures p.id.None? ==> r.id == u.id
    ensures p.avatar.Some? ==> r.avatar == p.avatar
    ensures p.avatar.None? ==> r.avatar == u.avatar
    ensures p.phone.Some? ==> r.phone == p.phone
    ensures p.phone.None? ==> r.phone == u.phone
    ensures p.bio.Some? ==> r.bio == p.bio
    ensures p.bio.None? ==> r.bio == u.bio
    ensures p.isVerified.Some? ==> r.isVerified == p.isVerified.value
    ensures p.isVerified.None? ==> r.isVerified == u.isVerified
    ensures p.createdAt.Some? ==> r.createdAt == p.createdAt.value
    ensures p.createdAt.None? ==> r.createdAt == u.createdAt
    ensures p.updatedAt.Some? ==> r.updatedAt == p.updatedAt.value
    ensures p.updatedAt.None? ==> r.updatedAt == u.updatedAt
  {
    User(p.id.GetOr(u.id), p.name.GetOr(u.name), p.email.GetOr(u.email), p.role.GetOr(u.role),
         if p.avatar.Some? then p.avatar else u.avatar,
         if p.phone.Some? then p.phone else u.phone,
         if p.bio.Some? then p.bio else u.bio,
         p.isVerified.GetOr(u.isVerified), p.createdAt.GetOr(u.createdAt), p.updatedAt.GetOr(u.updatedAt))
  }

  const EmptyPatch: UserPatch := UserPatch(None, None, None, None, None, None, None, None, None, None)

  /** An empty patch changes nothing, and applying a patch twice is applying
      it once. */
  lemma MergeLaws(u: User, p: UserPatch)
    ensures Merge(u, EmptyPatch) == u
    ensures Merge(Merge(u, p), p) == Merge(u, p)
  {
  }

  /** The state after `updateUser(patch)`: nothing happens when nobody is
      signed in; otherwise the merged user replaces the signed-in one. */
  function UpdateUserEffect(s: AuthState, p: UserPatch): (r: AuthState)
    ensures s.user.None? ==> r == s
    ensures s.user.Some? ==> r == Reduce(s, UpdateUser(Merge(s.user.value, p)))
  {
    if s.user.Some? then Reduce(s, UpdateUser(Merge(s.user.value, p))) else s
  }

  /** `updateUser` keeps the session consistent, never signs anybody in, and
      changes only the user. */
  lemma UpdateUserKeepsSession(s: AuthState, p: UserPatch)
    requires SessionConsistent(s)
    ensures SessionConsistent(UpdateUserEffect(s, p))
    ensures UpdateUserEffect(s, p).user.Some? <==> s.user.Some?
    ensures UpdateUserEffect(s, p).(user := s.user) == s
  {
  }

  // ---------------------------------------------------------------------------
  // login and register

  /** What the server answered to a sign-in or registration request. */
  datatype Outcome = Succeeded(user: User, token: string) | Failed(serverMessage: Option<string>)

  /** `error.response?.data?.message || fallback`: an absent or empty server
      message is replaced by the fallback. */
  function FailureMessage(serverMessage: Option<string>, fallback: string): (m: string)
    ensures fallback != [] ==> m != []
    ensures serverMessage.Some? && serverMessage.value != [] ==> m == serverMessage.value
    ensures serverMessage.None? || serverMessage.value == [] ==> m == fallback
  {
    if serverMessage.Some? && serverMessage.value != [] then serverMessage.value else fallback
  }

  const LoginFallback: string := "Login failed"
  const RegisterFallback: string := "Registration failed"

  /** `login` and `register`: `LOGIN_START`, then `LOGIN_SUCCESS` or
      `LOGIN_FAILURE` with the message or the given fallback. */
  function SignIn(s: AuthState, o: Outcome, fallback: string): (r: AuthState)
  {
    var started := Reduce(s, LoginStart);
    match o
    case Succeeded(u, t) => Reduce(started, LoginSuccess(u, t))
    case Failed(m) => Reduce(started, LoginFailure(FailureMessage(m, fallback)))
  }

  /** A completed sign-in is never loading; a success signs the user in with
      no error, whatever the state before; a failure keeps the previous
      session and always shows a non-empty message. */
  lemma SignInOutcome(s: AuthState, o: Outcome, fallback: string)
    requires fallback != []
    ensures !SignIn(s, o, fallback).loading
    ensures o.Succeeded? ==> SignIn(s, o, fallback) == AuthState(Some(o.user), Some(o.token), false, None)
    ensures o.Failed? ==> var r := SignIn(s, o, fallback);
      && r.user == s.user && r.token == s.token
      && r.error == Some(FailureMessage(o.serverMessage, fallback)) && r.error.value != []
  {
  }

  /** Signing in keeps a consistent session consistent. */
  lemma SignInKeepsSession(s: AuthState, o: Outcome, fallback: string)
    requires SessionConsistent(s)
    ensures SessionConsistent(SignIn(s, o, fallback))
  {
    ReducePreservesSession(s, LoginStart);
    match o
    case Succeeded(u, t) =>
    case Failed(m) => ReducePreservesSession(Reduce(s, LoginStart), LoginFailure(FailureMessage(m, fallback)));
  }

  // ---------------------------------------------------------------------------
  // Restoring a stored session on start-up

  /** What start-up finds: a stored token and user that the server still
      accepts, a stored pair it rejects (or that does not parse), or
      nothing stored. */
  datatype Stored = Accepted(user: User, token: string) | Rejected | Nothing

  /** The actions the provider dispatches on start-up, applied in order. */
  function Restore(s: AuthState, st: Stored): (r: AuthState)
  {
    match st
    case Accepted(u, t) => Reduce(Reduce(s, SetLoading(true)), LoginSuccess(u, t))
    case Rejected => Reduce(Reduce(s, SetLoading(true)), SetLoading(false))
    case Nothing => Reduce(s, SetLoading(false))
  }

  /** From the initial state, start-up always stops loading, and it signs the
      user in exactly when the stored session is accepted. */
  lemma RestoreFromInitial(st: Stored)
    ensures var r := Restore(Initial, st);
      && !r.loading && SessionConsistent(r)
      && (r.user.Some? <==> st.Accepted?)
      && (st.Accepted? ==> r.user == Some(st.user) && r.token == Some(st.token))
  {
  }
}
