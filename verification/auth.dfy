/** The sign-in screen: a form of (selected role, email, password), a role
    picker that pre-fills demo credentials, and a guarded login that installs
    a demo user in the session and picks the home route of that user's role. */
module Auth {
  import opened Wrappers
  import opened UserContext
  import Js
  import Button

  /** The two screen trees login can send the user to. */
  datatype Route = TenantHome | LandlordHome

  function Path(r: Route): string {
    match r
    case TenantHome => "/(tenant)"
    case LandlordHome => "/(landlord)"
  }

  /** The home route of a role. */
  function HomeOf(role: Role): (r: Route)
    ensures r == TenantHome <==> role == Tenant
    ensures Path(r) == "/(tenant)" <==> role == Tenant
  {
    if role == Tenant then TenantHome else LandlordHome
  }

  const DemoUserId := "1"
  const DemoPassword := "123456"

  /** The credentials the role picker fills in. */
  function DemoEmail(role: Role): (r: string)
    ensures role == Tenant ==> r == "locatario@example.com"
    ensures role == Landlord ==> r == "locador@example.com"
  {
    match role
    case Tenant => "locatario@example.com"
    case Landlord => "locador@example.com"
  }

  /** The name the demo user of each role is given. */
  function DisplayName(role: Role): (r: string)
    ensures role == Tenant ==> r == "João Silva"
    ensures role == Landlord ==> r == "Imobiliária ABC"
  {
    if role == Tenant then "João Silva" else "Imobiliária ABC"
  }

  datatype AuthForm = AuthForm(selectedRole: Option<Role>, email: string, password: string)

  /** The form as the screen mounts it. */
  const InitialForm := AuthForm(None, "", "")

  /** Choosing a role selects it and overwrites both fields with that role's
      demo credentials. */
  function SelectRole(f: AuthForm, role: Role): (r: AuthForm)
    ensures r.selectedRole == Some(role)
    ensures r.email == DemoEmail(role) && r.password == DemoPassword
  {
    AuthForm(Some(role), DemoEmail(role), DemoPassword)
  }

  function EditEmail(f: AuthForm, text: string): (r: AuthForm)
    ensures r.email == text
    ensures r.selectedRole == f.selectedRole && r.password == f.password
  {
    f.(email := text)
  }

  function EditPassword(f: AuthForm, text: string): (r: AuthForm)
    ensures r.password == text
    ensures r.selectedRole == f.selectedRole && r.email == f.email
  {
    f.(password := text)
  }

  /** The login form (and its button) is on screen only once a role is chosen. */
  predicate FormVisible(f: AuthForm) {
    f.selectedRole.Some?
  }

  /** The login button is disabled while either field is empty. */
  predicate LoginDisabled(f: AuthForm) {
    !Js.Truthy(f.email) || !Js.Truthy(f.password)
  }

  /** What the login handler decides: nothing, or a user to install and a
      route to replace the screen with. */
  datatype LoginOutcome = Ignored | SignedIn(user: User, route: Route)

  function Login(f: AuthForm): (r: LoginOutcome)
    ensures r.SignedIn? <==> f.email != "" && f.password != "" && f.selectedRole.Some?
    ensures r.SignedIn? ==> r.user.id == DemoUserId
    ensures r.SignedIn? ==> r.user.role == f.selectedRole.value
    ensures r.SignedIn? ==> r.user.email == f.email
    ensures r.SignedIn? ==> r.user.name == DisplayName(r.user.role)
    ensures r.SignedIn? ==> r.user.profileImage.None?
    ensures r.SignedIn? ==> r.route == HomeOf(r.user.role)
  {
    if !Js.Truthy(f.email) || !Js.Truthy(f.password) || f.selectedRole.None? then
      Ignored
    else
      var role := f.selectedRole.value;
      SignedIn(User(DemoUserId, DisplayName(role), f.email, role, None), HomeOf(role))
  }

  /** Running the handler against the session: the new session and the
      navigation performed, if any. */
  function HandleLogin(f: AuthForm, s: Session): (r: (Session, Option<Route>))
    ensures Login(f).Ignored? ==> r == (s, None)
    ensures Login(f).SignedIn? ==> r == (Session(Some(Login(f).user)), Some(Login(f).route))
  {
    match Login(f)
    case Ignored => (s, None)
    case SignedIn(u, route) => (SetUser(s, Replace(Some(u))), Some(route))
  }

  /** The event the login button raises. */
  datatype LoginTap = LoginTap

  /** The login button as rendered: present only when the form is visible. */
  function LoginButton(f: AuthForm): (r: Option<Button.ButtonProps<LoginTap>>)
    ensures r.Some? <==> FormVisible(f)
    ensures r.Some? ==> (r.value.disabled <==> LoginDisabled(f))
    ensures r.Some? ==> !r.value.loading
  {
    if FormVisible(f) then Some(Button.ButtonProps("Entrar", LoginTap, LoginDisabled(f), false))
    else None
  }

  /** A tap where the login button would be: the handler runs only when the
      button is on screen and enabled. */
  function TapLoginButton(f: AuthForm, s: Session): (r: (Session, Option<Route>))
    ensures r.1.Some? <==> FormVisible(f) && !LoginDisabled(f)
    ensures r.1.None? ==> r.0 == s
    ensures r.1.Some? ==> r == HandleLogin(f, s)
  {
    match LoginButton(f)
    case None => (s, None)
    case Some(b) =>
      if Button.Press(b).Some? then HandleLogin(f, s) else (s, None)
  }

  lemma InitialFormIsEmpty()
    ensures InitialForm.selectedRole.None? && InitialForm.email == "" && InitialForm.password == ""
    ensures !FormVisible(InitialForm) && LoginDisabled(InitialForm)
    ensures Login(InitialForm).Ignored?
  {}

  /** Selecting a role forgets everything typed before. */
  lemma SelectRoleOverwrites(f1: AuthForm, f2: AuthForm, role: Role)
    ensures SelectRole(f1, role) == SelectRole(f2, role)
    ensures SelectRole(SelectRole(f1, role), role) == SelectRole(f1, role)
  {}

  /** Right after choosing a role, login is enabled and signs in as that role. */
  lemma SelectThenLogin(f: AuthForm, role: Role)
    ensures FormVisible(SelectRole(f, role)) && !LoginDisabled(SelectRole(f, role))
    ensures Login(SelectRole(f, role)).SignedIn?
    ensures Login(SelectRole(f, role)).user.role == role
    ensures Login(SelectRole(f, role)).user.email == DemoEmail(role)
    ensures Login(SelectRole(f, role)).route == HomeOf(role)
  {}

  /** The password is not kept: two forms that differ only in a non-empty
      password produce the same outcome. */
  lemma LoginIgnoresPassword(f: AuthForm, p: string, q: string)
    requires p != "" && q != ""
    ensures Login(f.(password := p)) == Login(f.(password := q))
  {}

  /** The outcome depends only on the role and the email. */
  lemma LoginDeterminedByRoleAndEmail(f1: AuthForm, f2: AuthForm)
    requires f1.selectedRole == f2.selectedRole && f1.email == f2.email
    requires f1.password != "" && f2.password != ""
    ensures Login(f1) == Login(f2)
  {}

  /** The route always lands in the signed-in user's own screen tree. */
  lemma RouteAgreesWithRole(f: AuthForm)
    ensures Login(f).SignedIn? ==>
      (Login(f).route == TenantHome <==> Login(f).user.role == Tenant)
    ensures Login(f).SignedIn? ==>
      (Path(Login(f).route) == "/(landlord)" <==> Login(f).user.role == Landlord)
  {}

  /** Logging in twice with the same form changes nothing the second time. */
  lemma LoginIdempotent(f: AuthForm, s: Session)
    ensures HandleLogin(f, HandleLogin(f, s).0).0 == HandleLogin(f, s).0
  {}

  /** Login followed by logout returns the session to its initial state
      (a corollary of `Logout` always yielding the initial session). */
  lemma LoginThenLogout(f: AuthForm, s: Session)
    ensures Logout(HandleLogin(f, s).0) == InitialSession
  {}

  /** The disabled button and the handler's guard agree: tapping the button
      has exactly the effect of calling the handler, and signs in exactly
      when the handler's guard lets it through. */
  lemma ButtonAgreesWithGuard(f: AuthForm, s: Session)
    ensures TapLoginButton(f, s) == HandleLogin(f, s)
    ensures TapLoginButton(f, s).1.Some? <==> Login(f).SignedIn?
  {
    match LoginButton(f)
    case None =>
    case Some(b) =>
      if Button.Press(b).None? {
        assert LoginDisabled(f);
      }
  }

  /** Events the sign-in screen reacts to. The text fields exist only while
      the login form is visible, so typing before a role is chosen is ignored. */
  datatype AuthEvent = ChooseRole(role: Role) | TypeEmail(text: string) | TypePassword(text: string) | TapLogin

  /** The screen's form, the session it writes to, and the last navigation. */
  datatype AppState = AppState(form: AuthForm, session: Session, navigatedTo: Option<Route>)

  const InitialApp := AppState(InitialForm, InitialSession, None)

  /** One event, wired to its handler: the role buttons to `SelectRole`, the
      text fields to the field setters, the login button to the login handler. */
  function Step(a: AppState, e: AuthEvent): (r: AppState)
    ensures e.ChooseRole? ==> r.form == SelectRole(a.form, e.role)
    ensures e.TypeEmail? ==> r.form == (if FormVisible(a.form) then EditEmail(a.form, e.text) else a.form)
    ensures e.TypePassword? ==> r.form == (if FormVisible(a.form) then EditPassword(a.form, e.text) else a.form)
    ensures !e.TapLogin? ==> r.session == a.session && r.navigatedTo == a.navigatedTo
    ensures e.TapLogin? ==> r.form == a.form
    ensures e.TapLogin? ==> r.session == HandleLogin(a.form, a.session).0
    ensures e.TapLogin? && HandleLogin(a.form, a.session).1.Some? ==> r.navigatedTo == HandleLogin(a.form, a.session).1
    ensures e.TapLogin? && HandleLogin(a.form, a.session).1.None? ==> r.navigatedTo == a.navigatedTo
  {
    match e
    case ChooseRole(role) => a.(form := SelectRole(a.form, role))
    case TypeEmail(t) => if FormVisible(a.form) then a.(form := EditEmail(a.form, t)) else a
    case TypePassword(t) => if FormVisible(a.form) then a.(form := EditPassword(a.form, t)) else a
    case TapLogin =>
      ButtonAgreesWithGuard(a.form, a.session);
      var (s, nav) := TapLoginButton(a.form, a.session);
      AppState(a.form, s, if nav.Some? then nav else a.navigatedTo)
  }

  /** A sequence of events, applied in order. After it, the form is the one
      the last role choice filled in, unless later events typed into it. */
  function Run(a: AppState, es: seq<AuthEvent>): (r: AppState)
    ensures es != [] && es[|es| - 1].ChooseRole? ==> r.form == SelectRole(a.form, es[|es| - 1].role)
    decreases |es|
  {
    if es == [] then a else Run(Step(a, es[0]), es[1..])
  }

  /** A session user exists exactly when the screen has navigated, that user
      is a demo user named after its role, and the last navigation went to
      that role's home. */
  predicate SessionMatchesRoute(a: AppState) {
    && (a.session.user.Some? <==> a.navigatedTo.Some?)
    && (a.session.user.Some? ==>
          && a.session.user.value.id == DemoUserId
          && a.session.user.value.name == DisplayName(a.session.user.value.role)
          && a.navigatedTo.value == HomeOf(a.session.user.value.role))
  }

  lemma StepKeepsInvariant(a: AppState, e: AuthEvent)
    requires SessionMatchesRoute(a)
    ensures SessionMatchesRoute(Step(a, e))
  {
    if e.TapLogin? {
      ButtonAgreesWithGuard(a.form, a.session);
    }
  }

  /** Whatever the user does on the sign-in screen, the session and the route agree. */
  lemma {:induction false} RunKeepsInvariant(a: AppState, es: seq<AuthEvent>)
    requires SessionMatchesRoute(a)
    ensures SessionMatchesRoute(Run(a, es))
    decreases |es|
  {
    if es != [] {
      StepKeepsInvariant(a, es[0]);
      RunKeepsInvariant(Step(a, es[0]), es[1..]);
    }
  }

  lemma InitialAppSignedOut()
    ensures SessionMatchesRoute(InitialApp)
    ensures !Provide(InitialApp.session).isAuthenticated
  {}

  /** Choosing a role and tapping login signs in as that role's demo user and
      lands on that role's home. */
  lemma ChooseRoleThenTapLogin(role: Role)
    ensures Run(InitialApp, [ChooseRole(role), TapLogin]).session.user
      == Some(User(DemoUserId, DisplayName(role), DemoEmail(role), role, None))
    ensures Run(InitialApp, [ChooseRole(role), TapLogin]).navigatedTo == Some(HomeOf(role))
  {
    var a1 := Step(InitialApp, ChooseRole(role));
    assert Run(InitialApp, [ChooseRole(role), TapLogin]) == Run(a1, [TapLogin]);
    assert Run(a1, [TapLogin]) == Step(a1, TapLogin);
  }

  /** Without a tap on the login button the session is never written to. */
  lemma {:induction false} RunWithoutLoginKeepsSession(a: AppState, es: seq<AuthEvent>)
    requires forall i :: 0 <= i < |es| ==> !es[i].TapLogin?
    ensures Run(a, es).session == a.session && Run(a, es).navigatedTo == a.navigatedTo
    decreases |es|
  {
    if es != [] {
      assert !es[0].TapLogin?;
      RunWithoutLoginKeepsSession(Step(a, es[0]), es[1..]);
    }
  }
}
