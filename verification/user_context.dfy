/** The session holder: a provider that owns the current user, exposes
    `setUser`, `logout` and `isAuthenticated`, and the `useUser` hook that
    reads it and throws when no provider encloses the caller. */
module UserContext {
  import opened Wrappers
  import Js

  datatype Role = Tenant | Landlord

  datatype User = User(id: string, name: string, email: string, role: Role, profileImage: Option<string>)

  /** The provider's state: the current user, or `null`. */
  datatype Session = Session(user: Option<User>)

  /** What `setUser` accepts: a new value, or an updater applied to the previous one. */
  datatype SetStateAction = Replace(next: Option<User>) | Update(f: Option<User> -> Option<User>)

  /** The value the provider publishes to its consumers. */
  datatype ContextValue = ContextValue(user: Option<User>, isAuthenticated: bool)

  const UseUserError := "useUser must be used within a UserProvider"

  /** The provider mounts with no user. */
  const InitialSession := Session(None)

  function SetUser(s: Session, action: SetStateAction): (r: Session)
    ensures action.Replace? ==> r.user == action.next
    ensures action.Update? ==> r.user == action.f(s.user)
  {
    match action
    case Replace(next) => Session(next)
    case Update(f) => Session(f(s.user))
  }

  function Logout(s: Session): (r: Session)
    ensures r.user.None?
    ensures r == InitialSession
  {
    SetUser(s, Replace(None))
  }

  /** The published value, with `isAuthenticated` computed as `!!user`. */
  function Provide(s: Session): (v: ContextValue)
    ensures v.user == s.user
    ensures v.isAuthenticated <==> s.user.Some?
  {
    ContextValue(s.user, Js.TruthyObject(s.user))
  }

  /** `useUser`: `context` is `None` when no provider encloses the caller,
      in which case the hook throws. */
  function UseUser(context: Option<ContextValue>): (r: Result<ContextValue, string>)
    ensures r.Err? <==> context.None?
    ensures r.Err? ==> r.error == UseUserError
    ensures r.Ok? ==> r.value == context.value
  {
    match context
    case None => Err(UseUserError)
    case Some(v) => Ok(v)
  }

  lemma InitiallySignedOut()
    ensures InitialSession.user.None?
    ensures !Provide(InitialSession).isAuthenticated
  {}

  lemma SetUserAuthenticates(s: Session, u: User)
    ensures SetUser(s, Replace(Some(u))).user == Some(u)
    ensures Provide(SetUser(s, Replace(Some(u)))).isAuthenticated
  {}

  /** Corollaries of `Logout` always yielding the initial session. */
  lemma LogoutIdempotent(s: Session)
    ensures Logout(Logout(s)) == Logout(s)
    ensures !Provide(Logout(s)).isAuthenticated
  {}

  lemma SetUserThenLogout(s: Session, u: User)
    ensures Logout(SetUser(s, Replace(Some(u)))) == InitialSession
  {}

  /** Inside a provider the hook hands back exactly what the provider publishes. */
  lemma UseUserInsideProvider(s: Session)
    ensures UseUser(Some(Provide(s))) == Ok(Provide(s))
    ensures UseUser(Some(Provide(s))).value.isAuthenticated <==> s.user.Some?
  {}
}
