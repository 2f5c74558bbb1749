/** The application shell: which page a hash shows to whom, the page title,
    and the login/logout session. */
module AppShell {
  import opened Base
  import opened Types
  import opened Constants
  import opened Store
  import opened LoginPage

  /** What the shell renders. `Framed` is the layout with its title around
      one dashboard or message. */
  datatype Content = AdminDashboard | ReceptionDashboard | ClinicDashboard | AccessDenied | NotFound
  datatype Page = Blank | TvPanel | Login | Framed(title: string, content: Content)

  const PanelRoute := "#/panel"
  const ClinicRoute := "#/clinic"
  const RootRoute := "#/"
  const AdminRoutes: set<string> := {"#/admin", "#/admin/users", "#/admin/rooms", "#/admin/history"}
  const ReceptionRoutes: set<string> := {"#/reception", "#/reception/history"}

  const AdminTitle := "Painel Administrativo"
  const ReceptionTitle := "Central de Recepção"
  const ClinicTitle := "Espaço do Médico"
  const DefaultTitle := "Dashboard"

  /** `s.includes(sub)`. */
  predicate Contains(s: string, sub: string)
    decreases |s|
  {
    |sub| <= |s| && (s[..|sub|] == sub || Contains(s[1..], sub))
  }

  /** `sub` occurs in `s` starting at position `i`. */
  predicate OccursAt(s: string, sub: string, i: nat)
  {
    i + |sub| <= |s| && s[i..i + |sub|] == sub
  }

  /** `includes` holds exactly when `sub` occurs at some position. */
  lemma {:induction false} ContainsIffOccurs(s: string, sub: string)
    ensures Contains(s, sub) <==> exists i: nat :: OccursAt(s, sub, i)
    decreases |s|
  {
    if |sub| <= |s| && s[..|sub|] != sub {
      ContainsIffOccurs(s[1..], sub);
      if Contains(s[1..], sub) {
        var i: nat :| OccursAt(s[1..], sub, i);
        assert s[i + 1..i + 1 + |sub|] == s[1..][i..i + |sub|];
        assert OccursAt(s, sub, i + 1);
      }
      if exists i: nat :: OccursAt(s, sub, i) {
        var i: nat :| OccursAt(s, sub, i);
        assert i != 0;
        forall k | i <= k < i + |sub|
          ensures s[1..][k - 1] == s[k]
        {
        }
        assert s[1..][i - 1..i - 1 + |sub|] == s[i..i + |sub|];
        assert OccursAt(s[1..], sub, i - 1);
      }
    } else if |sub| <= |s| {
      assert OccursAt(s, sub, 0);
    }
  }

  /** A hash that lacks one of the letters of `sub` does not contain it. */
  lemma MissingLetter(s: string, sub: string, k: nat)
    requires k < |sub| && sub[k] !in s
    ensures !Contains(s, sub)
  {
    forall i: nat ensures !OccursAt(s, sub, i) {
      if i + |sub| <= |s| {
        assert s[i..i + |sub|][k] == s[i + k] && s[i + k] in s;
      }
    }
    ContainsIffOccurs(s, sub);
  }

  /** `getTitle()`: the first of `admin`, `reception`, `clinic` that the hash
      contains picks the title. */
  function Title(hash: string): (t: string)
    ensures t == AdminTitle <==> Contains(hash, "admin")
    ensures t == ReceptionTitle <==> !Contains(hash, "admin") && Contains(hash, "reception")
    ensures t == ClinicTitle <==> !Contains(hash, "admin") && !Contains(hash, "reception") && Contains(hash, "clinic")
    ensures t == DefaultTitle <==> !Contains(hash, "admin") && !Contains(hash, "reception") && !Contains(hash, "clinic")
  {
    if Contains(hash, "admin") then AdminTitle
    else if Contains(hash, "reception") then ReceptionTitle
    else if Contains(hash, "clinic") then ClinicTitle
    else DefaultTitle
  }

  /** The page a role lands on when the hash names no route. */
  function Home(role: UserRole): (c: Content)
    ensures c != AccessDenied && c != NotFound
  {
    match role
    case Admin => AdminDashboard
    case Reception => ReceptionDashboard
    case Clinic => ClinicDashboard
  }

  /** `renderContent()` for a logged-in user. */
  function RenderContent(hash: string, user: User): (c: Content)
    ensures hash in AdminRoutes ==> c == (if user.role == Admin then AdminDashboard else AccessDenied)
    ensures hash in ReceptionRoutes ==> c == (if user.role == Reception then ReceptionDashboard else AccessDenied)
    ensures hash == ClinicRoute ==> c == ClinicDashboard
    ensures hash !in AdminRoutes && hash !in ReceptionRoutes && hash != ClinicRoute ==> c == Home(user.role)
    ensures c == AccessDenied <==>
              (hash in AdminRoutes && user.role != Admin) || (hash in ReceptionRoutes && user.role != Reception)
    ensures c != NotFound
  {
    if hash in AdminRoutes then
      (if user.role == Admin then AdminDashboard else AccessDenied)
    else if hash in ReceptionRoutes then
      (if user.role == Reception then ReceptionDashboard else AccessDenied)
    else if hash == ClinicRoute then ClinicDashboard
    else Home(user.role)
  }

  /** The whole shell: nothing while the session loads, the panel for
      `#/panel` whoever is logged in, the login page without a user, and
      otherwise the layout with its title around the routed content. */
  function Render(loading: bool, hash: string, user: Option<User>): (p: Page)
    ensures loading ==> p == Blank
    ensures !loading && hash == PanelRoute ==> p == TvPanel
    ensures !loading && hash != PanelRoute && user.None? ==> p == Login
    ensures !loading && hash != PanelRoute && user.Some? ==>
              p == Framed(Title(hash), RenderContent(hash, user.value))
  {
    if loading then Blank
    else if hash == PanelRoute then TvPanel
    else if user.None? then Login
    else Framed(Title(hash), RenderContent(hash, user.value))
  }

  /** The hash `handleLogin` sets for a role. */
  function LandingHash(role: UserRole): (h: string)
    ensures h in AdminRoutes <==> role == Admin
    ensures h in ReceptionRoutes <==> role == Reception
    ensures h == ClinicRoute <==> role == Clinic
  {
    match role
    case Admin => "#/admin"
    case Reception => "#/reception"
    case Clinic => ClinicRoute
  }

  /** The title that belongs to a role's own pages. */
  function RoleTitle(role: UserRole): string
  {
    match role
    case Admin => AdminTitle
    case Reception => ReceptionTitle
    case Clinic => ClinicTitle
  }

  /** The hash of each role's own pages picks that role's title. */
  lemma LandingTitle(role: UserRole)
    ensures Title(LandingHash(role)) == RoleTitle(role)
  {
    var h := LandingHash(role);
    match role
    case Admin =>
      assert OccursAt(h, "admin", 2);
      ContainsIffOccurs(h, "admin");
    case Reception =>
      assert OccursAt(h, "reception", 2);
      ContainsIffOccurs(h, "reception");
      MissingLetter(h, "admin", 0);
    case Clinic =>
      assert OccursAt(h, "clinic", 2);
      ContainsIffOccurs(h, "clinic");
      MissingLetter(h, "admin", 0);
      MissingLetter(h, "reception", 0);
  }

  /** Logging in lands every role on its own dashboard, under its own title. */
  lemma LandingIsHome(user: User)
    ensures Render(false, LandingHash(user.role), Some(user)) == Framed(RoleTitle(user.role), Home(user.role))
  {
    LandingTitle(user.role);
  }

  /** The three roles leave the "page not found" message unreachable. */
  lemma NeverNotFound(loading: bool, hash: string, user: Option<User>)
    ensures Render(loading, hash, user) != Framed(Title(hash), NotFound)
  {
  }

  /** The shell. `location` is the browser's `window.location.hash`; `hash`
      is the component's copy of it, which only the `hashchange` listener
      updates, so after an assignment to the location the old page stays on
      screen until that event arrives. */
  class App {
    var user: Option<User>
    var loading: bool
    var hash: string
    var location: string

    constructor (initialHash: string)
      ensures user == None && loading && hash == initialHash && location == initialHash
    {
      user, loading, hash, location := None, true, initialHash, initialHash;
    }

    /** What the shell renders now: nothing while loading, and the titled
        layout only for a logged-in user away from the panel. */
    function View(): (p: Page)
      reads this
      ensures loading <==> p == Blank
      ensures p.Framed? <==> !loading && hash != PanelRoute && user.Some?
      ensures p.Framed? ==> p.title == Title(hash)
    {
      Render(loading, hash, user)
    }

    /** What the shell renders once the pending `hashchange` for the current
        location has been handled. */
    function Settled(): (p: Page)
      reads this
      ensures p.Framed? ==> p.title == Title(location) && user.Some?
    {
      Render(loading, location, user)
    }

    /** The mount effect: restore a saved session, then stop loading. Saved
        text that does not parse, or that is not a user record, stops it
        with the page left blank. */
    method Mount(store: Storage) returns (outcome: Outcome)
      modifies this
      ensures hash == old(hash) && location == old(location)
      ensures Auth !in store.entries || store.entries[Auth] == EmptyText ==>
                outcome == Pass && user == old(user) && !loading
      ensures Auth in store.entries && store.entries[Auth] == Text(Null) ==>
                outcome == Pass && user == None && !loading
      ensures Auth in store.entries && store.entries[Auth].Text? && store.entries[Auth].value.UserRecord? ==>
                outcome == Pass && user == Some(store.entries[Auth].value.user) && !loading
      ensures Auth in store.entries && store.entries[Auth] == Garbage ==>
                outcome == Fail(ParseFailure(Auth)) && user == old(user) && loading == old(loading)
    {
      if Auth !in store.entries || store.entries[Auth] == EmptyText {
        loading := false;
        return Pass;
      }
      match store.entries[Auth] {
        case Garbage =>
          return Fail(ParseFailure(Auth));
        case Text(Null) =>
          user := None;
        case Text(UserRecord(u)) =>
          user := Some(u);
        case Text(_) =>
          return Fail(ShapeMismatch(Auth));
      }
      loading := false;
      outcome := Pass;
    }

    /** The browser's location hash becomes `newHash` and the `hashchange`
        listener copies it into `hash`. Delivering the event a location
        assignment left pending shows the page `Settled` promised. */
    method HashChanged(newHash: string)
      modifies this
      ensures location == newHash && hash == newHash && user == old(user) && loading == old(loading)
      ensures newHash == old(location) ==> View() == old(Settled())
    {
      location := newHash;
      hash := location;
    }

    /** `handleLogin(userData)`: keep the user, save it under AUTH and go to
        the role's landing hash. Only the browser's location changes, so the
        old hash is still rendered until `hashchange` arrives. Handed no record, it keeps `undefined` as the
        user, saves the text "undefined" (which no later read can parse) and
        then fails reading the role. */
    method HandleLogin(store: Storage, userData: Option<User>) returns (outcome: Outcome)
      modifies this, store
      ensures user == userData && loading == old(loading) && hash == old(hash)
      ensures userData.Some? ==>
                outcome == Pass
                && store.entries == old(store.entries)[Auth := Text(UserRecord(userData.value))]
                && location == LandingHash(userData.value.role)
                && (!loading ==> Settled() == Framed(RoleTitle(userData.value.role), Home(userData.value.role)))
      ensures userData.None? ==>
                outcome == Fail(UndefinedUser)
                && store.entries == old(store.entries)[Auth := Garbage]
                && location == old(location)
    {
      user := userData;
      if userData.None? {
        store.SetItem(Auth, Garbage);
        return Fail(UndefinedUser);
      }
      store.SetItem(Auth, Text(UserRecord(userData.value)));
      location := LandingHash(userData.value.role);
      LandingIsHome(userData.value);
      outcome := Pass;
    }

    /** `handleLogout()`: forget the user and the saved session, and send
        the browser back to `#/`. Without a user the login page shows at
        once, on any hash but the panel's. */
    method HandleLogout(store: Storage)
      modifies this, store
      ensures user == None && location == RootRoute && hash == old(hash) && loading == old(loading)
      ensures store.entries == old(store.entries) - {Auth}
      ensures !loading && hash != PanelRoute ==> View() == Login
      ensures !loading ==> Settled() == Login
    {
      user := None;
      store.RemoveItem(Auth);
      location := RootRoute;
    }
  }

  /** The login form wired to the shell (`onLogin={handleLogin}`): an
      accepted login goes through `HandleLogin`, a rejected one changes no
      session state. */
  method SubmitLogin(form: LoginForm, app: App, store: Storage, username: string, password: string)
    returns (outcome: Outcome)
    modifies form, app, store
    ensures GetUsers(old(store.entries)).Failure? ==>
              outcome == Fail(GetUsers(old(store.entries)).error)
              && app.user == old(app.user) && store.entries == old(store.entries)
    ensures GetUsers(old(store.entries)).Success? ==>
              var d := CheckCredentials(GetUsers(old(store.entries)).value, username, password);
              (d.Rejected? ==> outcome == Pass && app.user == old(app.user) && store.entries == old(store.entries)
                               && form.error == LoginError)
              && (d.Accepted? ==> app.user == d.record)
              && (d.Accepted? && d.record.Some? && !app.loading ==>
                    outcome == Pass && app.Settled() == Framed(RoleTitle(d.record.value.role), Home(d.record.value.role)))
  {
    var decision := form.HandleLogin(store, username, password);
    if decision.Failure? {
      return Fail(decision.error);
    }
    if decision.value.Rejected? {
      return Pass;
    }
    outcome := app.HandleLogin(store, decision.value.record);
  }
}
