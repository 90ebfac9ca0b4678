# Lokaly: sign-in, session and status cards

Lokaly is a property-rental app with two roles, tenant and landlord. Almost all
of it is screen layout. This project models the few parts that make
decisions:

- **Sign-in screen** (`Auth`). The form state is (selected role, email,
  password). Choosing a role fills in that role's demo credentials. The
  login handler either does nothing or installs a demo user and picks the
  home route of the user's role. The login button is on screen only once a
  role is chosen, and it is disabled while a field is empty.
- **Session holder** (`UserContext`). It holds the current user or `null`
  and exposes `setUser` (a value or an updater), `logout` and
  `isAuthenticated`. `useUser` throws outside a provider.
- **Bill and complaint cards** (`BillCard`, `ComplaintCard`). Each card has
  colour, text and icon tables over its status, with a fallback branch. Each
  also has display rules: the paid-on row and the upload action for bills;
  the image and the response count for complaints. Every callback gets the
  record's own id.
- **Button** (`Button`). A tap calls `onPress` unless the button is disabled
  or loading.

Some choices in the model:

- Colours are symbolic tags (`Success`, `Warning`, `Error`), not hex strings.
- Navigation (`router.replace`) is a returned `Route`.
- A callback is the event value it would be called with.
- Status fields are kept as the stored string. This way, a value outside the
  declared union reaches the `default` branch of the tables, as it would at
  run time.
- JavaScript truthiness is written out in module `Js`: `""`, `null` and
  `undefined` are falsy.
- `Auth.Run` feeds a sequence of screen events to the sign-in screen.
  `Auth.RunKeepsInvariant` proves that, whatever the sequence, the session
  user and the last navigation agree.

## Model

| member | source | states |
|---|---|---|
| Button.Press | components/Button.tsx:111-118 | a tap raises the handler's event exactly when the button is neither disabled nor loading |
| UserContext.SetUser | contexts/UserContext.tsx:15 | a plain value replaces the user; an updater is applied to the previous user |
| UserContext.Logout | contexts/UserContext.tsx:25-27 | logout clears the user from any state, giving the initial session |
| UserContext.Provide | contexts/UserContext.tsx:29-36 | the published `isAuthenticated` is true iff the user is non-null, and the published user is the held one |
| UserContext.UseUser | contexts/UserContext.tsx:43-51 | outside a provider the hook fails with the fixed message; inside, it returns the provider's value unchanged |
| UserContext.InitiallySignedOut | contexts/UserContext.tsx:23 | the provider starts with no user, so it starts unauthenticated |
| UserContext.SetUserAuthenticates | contexts/UserContext.tsx:15 | after `setUser(u)` with a user, the held user is `u` and the session is authenticated |
| UserContext.LogoutIdempotent | contexts/UserContext.tsx:25-27 | a corollary of `Logout`: a second logout changes nothing, and after logout the session is unauthenticated |
| UserContext.SetUserThenLogout | contexts/UserContext.tsx:23-27 | a corollary of `Logout`: setting a user and then logging out returns to the initial session |
| UserContext.UseUserInsideProvider | contexts/UserContext.tsx:34 | a consumer inside a provider sees `isAuthenticated` iff a user is set |
| Auth.HomeOf | app/auth.tsx:60-64 | the route is the tenant tree iff the role is tenant (its path is `/(tenant)`), else the landlord tree |
| Auth.DemoEmail | app/auth.tsx:27-32 | the tenant's demo email is `locatario@example.com` and the landlord's is `locador@example.com` |
| Auth.DisplayName | app/auth.tsx:56 | the tenant demo user is named `João Silva` and the landlord demo user `Imobiliária ABC` |
| Auth.SelectRole | app/auth.tsx:20-33 | choosing a role selects it and sets that role's demo email and the password `123456` |
| Auth.EditEmail | app/auth.tsx:140-148 | typing in the email field changes only the email |
| Auth.EditPassword | app/auth.tsx:153-160 | typing in the password field changes only the password |
| Auth.Login | app/auth.tsx:44-65 | signs in iff email, password and role are all set; the user has id `1`, the selected role, the typed email, the role's display name and no image; the route is the role's home |
| Auth.HandleLogin | app/auth.tsx:44-65 | a rejected login leaves the session alone and does not navigate; a successful one installs the user and navigates to its route |
| Auth.LoginButton | app/auth.tsx:131-168 | the button exists iff a role is chosen, and it is disabled iff email or password is empty |
| Auth.TapLoginButton | app/auth.tsx:163-168 | a tap where the login button would be navigates iff the form is visible and the button enabled; otherwise the session is unchanged; when it navigates it runs the login handler |
| Auth.InitialFormIsEmpty | app/auth.tsx:13-15 | the form starts with no role and empty fields, hides the login form, and rejects login |
| Auth.SelectRoleOverwrites | app/auth.tsx:24-33 | the form after choosing a role does not depend on what was typed before, and choosing the same role again changes nothing |
| Auth.SelectThenLogin | app/auth.tsx:20-65 | right after choosing a role, the button is enabled and login signs in as that role with its demo email and home route |
| Auth.LoginIgnoresPassword | app/auth.tsx:52-57 | the password is not stored: any two non-empty passwords give the same outcome |
| Auth.LoginDeterminedByRoleAndEmail | app/auth.tsx:52-64 | with non-empty passwords, the user and route depend only on the role and the email |
| Auth.RouteAgreesWithRole | app/auth.tsx:56-64 | the route of a successful login lies in the signed-in user's own role tree, in both directions |
| Auth.LoginIdempotent | app/auth.tsx:52-57 | logging in twice with the same form gives the same session as logging in once |
| Auth.LoginThenLogout | contexts/UserContext.tsx:25-27 | a corollary of `Logout`: logging out after any login returns to the initial session |
| Auth.ButtonAgreesWithGuard | app/auth.tsx:166 | tapping the rendered button has exactly the effect of the handler; it navigates iff the handler's guard passes |
| Auth.Step | app/auth.tsx:98-165 | a role button runs the role selection; typing runs the field setter while the form is visible and is ignored otherwise; neither touches the session or navigation; a login tap leaves the form alone, writes the handler's session and, if the handler navigates, records its route |
| Auth.Run | app/auth.tsx:20-33 | after a sequence ending in a role choice, the form is exactly that role's pre-filled form |
| Auth.StepKeepsInvariant | app/auth.tsx:52-64 | one screen event keeps the session user and the last navigation in agreement |
| Auth.RunKeepsInvariant | app/auth.tsx:44-65 | after any sequence of screen events, a session user exists iff the screen navigated, and that user is a demo user whose role's home is the last route |
| Auth.InitialAppSignedOut | contexts/UserContext.tsx:23 | the screen starts signed out, not navigated, and consistent |
| Auth.ChooseRoleThenTapLogin | app/auth.tsx:20-64 | from the mounted screen, choosing a role and tapping login installs the demo user of that role (id `1`, its name, its demo email, no image) and navigates to its home |
| Auth.RunWithoutLoginKeepsSession | app/auth.tsx:20-33 | events other than a login tap never change the session or navigation |
| BillCard.Classify | components/BillCard.tsx:25-32 | `paid` and `overdue` take their own branch; `pending` and every other string take the pending/default branch |
| BillCard.StatusColor | components/BillCard.tsx:24-34 | success iff paid, error iff overdue, warning for pending and any unmatched value |
| BillCard.StatusText | components/BillCard.tsx:36-46 | `Pago` for paid, `Atrasado` for overdue, `Pendente` otherwise |
| BillCard.StatusIcon | components/BillCard.tsx:48-60 | Check iff paid, AlertCircle iff overdue, Clock otherwise, size 16, coloured with the status colour |
| Theme.StatusBadge | components/BillCard.tsx:66-71 | the badge holds the status icon and the status text, and its text and background tint share one colour; each card's `Render` ties that colour to its `getStatusColor` (the complaint card draws the same badge) |
| BillCard.Render | components/BillCard.tsx:62-116 | the description and due date are shown as given; the badge shows the status icon and text, all in the status colour; paid-on row iff status is paid and the paid date is non-empty, showing that date; upload action iff not paid; both callbacks get the bill's id |
| BillCard.ClassifyTag | components/BillCard.tsx:8 | each declared status's string is classified back to that status |
| BillCard.FallbackIsPending | components/BillCard.tsx:30-32 | any undeclared status gets the same colour, text and icon as `pending` |
| BillCard.TablesDistinguishStatuses | components/BillCard.tsx:24-60 | different declared statuses get different colours, texts and glyphs, and no text is empty |
| BillCard.ActionsAgreeWithBadge | components/BillCard.tsx:88-113 | upload is offered iff the badge is not the success colour; the paid-on row appears only with a `Pago` badge; never both |
| BillCard.CallbacksCarryBillId | components/BillCard.tsx:98-112 | every tap on the card raises an event carrying the bill's own id |
| ComplaintCard.Classify | components/ComplaintCard.tsx:30-37 | `resolved` and `processing` take their own branch; `new` and every other string take the new/default branch |
| ComplaintCard.StatusColor | components/ComplaintCard.tsx:29-39 | success iff resolved, warning iff processing, error for new and any unmatched value |
| ComplaintCard.StatusText | components/ComplaintCard.tsx:41-51 | `Resolvido`, `Em Andamento`, and `Novo` for new and any unmatched value |
| ComplaintCard.StatusIcon | components/ComplaintCard.tsx:53-65 | CheckCircle iff resolved, Clock iff processing, AlertCircle otherwise, coloured with the status colour |
| ComplaintCard.ResponseCount | components/ComplaintCard.tsx:100 | the count is the number of responses, or 0 when the list is absent |
| ComplaintCard.Render | components/ComplaintCard.tsx:67-112 | the title, description and date are shown as given; the badge shows the status icon and text, all in the status colour; image iff the image URL is non-empty, showing that URL; the response count as above; details get the complaint's id |
| ComplaintCard.ClassifyTag | components/ComplaintCard.tsx:8 | each declared status's string is classified back to that status |
| ComplaintCard.FallbackIsNew | components/ComplaintCard.tsx:35-37 | any undeclared status gets the same colour, text and icon as `new` |
| ComplaintCard.TablesDistinguishStatuses | components/ComplaintCard.tsx:29-65 | different declared statuses get different colours, texts and glyphs, and no text is empty |
| ComplaintCard.ResponseCountGrows | components/ComplaintCard.tsx:100 | an absent list and an empty list both count 0; each added response adds one |
| ComplaintCard.DetailsCarryComplaintId | components/ComplaintCard.tsx:105-110 | tapping details raises an event carrying the complaint's own id |

## Left out

- Haptics and `Platform.OS` checks: fire-and-forget platform calls with no effect on state.
- The role-selection spring animation and the form fade/slide: floating-point animation.
- `router.replace` as an effect: the model returns the target route. After a real navigation the sign-in screen unmounts. The event traces in `Auth.Run` let events continue anyway, which allows more behaviours than the app has, so the invariant still covers every real run. Typing is accepted only while the login form is visible, as in the app.
- Currency formatting of the bill amount (`toLocaleString('pt-BR')`): a locale library over floats. The amount is carried as a `real` and never displayed.
- Limiting the complaint description to two lines, all style sheets, button variants and sizes, and the hex palette: presentation only.
- The Button `loading` spinner: the model keeps only the fact that loading blocks a tap.
- Font loading and the splash redirect (`app/index.tsx`), and stack route registration (`app/_layout.tsx`): framework plumbing.
- Bill and complaint list filtering, complaint submission, and the profile screen's logout button: these live outside the files modelled here.
- BillCard.Render and ComplaintCard.Render: when `paidDate` or `imageUrl` is the empty string, the JSX `&&` yields `""` instead of an element. The model counts this as "nothing shown" and does not model how React Native treats a bare empty string.
