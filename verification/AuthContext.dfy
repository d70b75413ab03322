/** The session store (src/contexts/AuthContext.tsx): the `user`, `session` and
    `loading` state cells and the three things that update them. The outcomes of
    the remote auth and `profiles` calls are parameters. */
module AuthContext {
  import opened Wrappers
  import opened Types
  import App

  /** The signed-in session; only the user id it carries matters here. */
  datatype Session = Session(userId: UserId)

  /** What `profiles.select('*').eq('id', …).single()` resolves to: the row, or an `error`. */
  datatype ProfileResult = Row(profile: Profile) | Failed(message: string)

  /** The value the provider hands to `useAuth` callers. */
  datatype AuthValue = AuthValue(user: Option<Profile>, session: Option<Session>, loading: bool)

  /** `user` after a session has been set: no session means no user; with a session the
      profile query decides (its row, or null on an error), and a query that threw leaves
      `user` as it was. */
  function UserFor(session: Option<Session>, query: Call<ProfileResult>, previous: Option<Profile>): (r: Option<Profile>)
    ensures session.None? ==> r.None?
    ensures session.Some? && query.Returned? ==>
      (r.Some? <==> query.value.Row?) && (r.Some? ==> r.value == query.value.profile)
    ensures session.Some? && query.Threw? ==> r == previous
  {
    match session
    case None => None
    case Some(_) =>
      match query
      case Threw => previous
      case Returned(Row(p)) => Some(p)
      case Returned(Failed(_)) => None
  }

  /** `useAuth`: the provider's value, or a throw when no provider is above the caller. */
  function UseAuth(provided: Option<AuthValue>): (r: Call<AuthValue>)
    ensures r.Threw? <==> provided.None?
    ensures r.Returned? ==> r.value == provided.value
  {
    match provided
    case None => Threw
    case Some(v) => Returned(v)
  }

  /** The role `ProtectedRoute` and `AppRoutes` read from the store. */
  function RoleOf(user: Option<Profile>): (r: Option<Role>)
    ensures r.Some? <==> user.Some?
    ensures r.Some? ==> r.value == user.value.role
  {
    if user.Some? then Some(user.value.role) else None
  }

  class AuthProvider {
    var user: Option<Profile>
    var session: Option<Session>
    var loading: bool
    /** Whether the `onAuthStateChange` subscription is live. */
    var listening: bool

    /** A profile is only ever held together with a session. */
    predicate Valid()
      reads this
    {
      session.None? ==> user.None?
    }

    /** Mounting the provider: no user, no session, loading, not yet subscribed. */
    constructor ()
      ensures Valid()
      ensures user.None? && session.None? && loading && !listening
    {
      user := None;
      session := None;
      loading := true;
      listening := false;
    }

    /** The context value. In a valid store a caller never sees a role without a session. */
    function Value(): (v: AuthValue)
      reads this
      ensures v.user == user && v.session == session && v.loading == loading
      ensures Valid() ==> (RoleOf(v.user).Some? ==> v.session.Some?)
    {
      AuthValue(user, session, loading)
    }

    /** The screen `AppRoutes` renders for `path` in the current state. */
    function ScreenFor(path: App.Path): (s: App.Screen)
      reads this
      ensures loading <==> s == App.Loading
      ensures !loading && session.None? ==>
        (s.Show? <==> path in {App.Login, App.SignUp, App.ForgotPassword})
    {
      App.SignedOutArea(RoleOf(user), path);
      App.AppRoutes(loading, session.Some?, RoleOf(user), path)
    }

    /** `fetchInitialSession`: `got` is the outcome of `getSession`, `query` that of the
        profile query (made only when a session came back). `loading` ends false whatever
        happened; a throw from `getSession` leaves `user` and `session` as they were. */
    method FetchInitialSession(got: Call<Option<Session>>, query: Call<ProfileResult>)
      requires Valid()
      modifies this
      ensures Valid()
      ensures !loading
      ensures listening == old(listening)
      ensures got.Threw? ==> session == old(session) && user == old(user)
      ensures got.Returned? ==> session == got.value && user == UserFor(got.value, query, old(user))
    {
      if got.Returned? {
        session := got.value;
        if session.Some? {
          match query
          case Threw =>
          case Returned(Row(p)) => user := Some(p);
          case Returned(Failed(_)) => user := None;
        } else {
          user := None;
        }
      }
      loading := false;
    }

    /** `supabase.auth.onAuthStateChange(...)`: the subscription becomes live. */
    method Subscribe()
      requires Valid()
      modifies this
      ensures Valid()
      ensures listening
      ensures user == old(user) && session == old(session) && loading == old(loading)
    {
      listening := true;
    }

    /** One run of the auth-change callback for the event's session `next`. Nothing happens
        once unsubscribed; `loading` is never touched. */
    method OnAuthStateChange(next: Option<Session>, query: Call<ProfileResult>)
      requires Valid()
      modifies this
      ensures Valid()
      ensures loading == old(loading) && listening == old(listening)
      ensures !listening ==> user == old(user) && session == old(session)
      ensures listening ==> session == next && user == UserFor(next, query, old(user))
    {
      if listening {
        session := next;
        if next.Some? {
          match query
          case Threw =>
          case Returned(Row(p)) => user := Some(p);
          case Returned(Failed(_)) => user := None;
        } else {
          user := None;
        }
      }
    }

    /** `logout`: once `signOut` returns both cells are null; if it throws, the
        assignments after the `await` never run. */
    method Logout(signOut: Call<()>)
      requires Valid()
      modifies this
      ensures Valid()
      ensures loading == old(loading) && listening == old(listening)
      ensures signOut.Returned? ==> user.None? && session.None?
      ensures signOut.Threw? ==> user == old(user) && session == old(session)
    {
      if signOut.Returned? {
        user := None;
        session := None;
      }
    }

    /** The effect's cleanup: `authListener.subscription.unsubscribe()`. */
    method Teardown()
      requires Valid()
      modifies this
      ensures Valid()
      ensures !listening
      ensures user == old(user) && session == old(session) && loading == old(loading)
    {
      listening := false;
    }
  }
}
