/**
 * Where the application lets a visitor go: the route table and its two
 * guards (src/App.jsx), and the navigation bar's logo target, its links
 * for each kind of visitor, and its logout (src/components/Navbar.jsx).
 * Every decision reads the stored session through Session.
 */
module Navigation {
  import opened Text
  import opened Js
  import opened Session
  import Appointments

  const LoginOrRegisterText: string := "กรุณาเข้าสู่ระบบหรือสมัครสมาชิกเพื่อใช้งาน"
  const LoginText: string := "กรุณาเข้าสู่ระบบ"
  const WrongRoleText: string := "สิทธิ์ไม่ตรงกับหน้าที่ต้องการเข้าถึง"

  // ---------------------------------------------------------------------
  // Guards
  // ---------------------------------------------------------------------

  /** A guard lets the page render, or alerts and redirects to "/", with or without the visited location. */
  datatype Guard = Allow | Deny(alert: string, keepsFrom: bool)

  /** `RequireAuth`: the page renders exactly when someone is logged in. */
  function RequireAuth(m: map<string, Raw>): (g: Guard)
    ensures g.Allow? <==> LoggedInOf(m)
    ensures g.Deny? ==> g == Deny(LoginOrRegisterText, true)
  {
    if !LoggedInOf(m) then Deny(LoginOrRegisterText, true) else Allow
  }

  /**
   * `RequireRole(role)`: the page renders exactly when someone is logged
   * in with that role. The login check comes first; a wrong role is turned
   * away with its own message and without the visited location.
   */
  function RequireRole(m: map<string, Raw>, role: string): (g: Guard)
    ensures g.Allow? <==> LoggedInOf(m) && RoleOf(m) == Str(role)
    ensures !LoggedInOf(m) ==> g == Deny(LoginText, true)
    ensures LoggedInOf(m) && RoleOf(m) != Str(role) ==> g == Deny(WrongRoleText, false)
  {
    if !LoggedInOf(m) then Deny(LoginText, true)
    else if RoleOf(m) != Str(role) then Deny(WrongRoleText, false)
    else Allow
  }

  // ---------------------------------------------------------------------
  // Routes
  // ---------------------------------------------------------------------

  datatype Page =
    | Home | RegisterPage | LoginPage
    | Search | AppointmentPage(doctorId: string) | MyAppointmentsPage
    | DoctorPage | ProfilePage
    | NotFound

  const AppointmentPrefix: string := "/appointment/"

  /** The route table: exact paths, one `:doctorId` segment, and NotFound for anything else. */
  function Resolve(path: string): (p: Page)
    ensures p.AppointmentPage? ==> path == AppointmentPrefix + p.doctorId && p.doctorId != "" && '/' !in p.doctorId
  {
    if path == "/" then Home
    else if path == "/register" then RegisterPage
    else if path == "/login" then LoginPage
    else if path == "/search" then Search
    else if path == "/my-appointments" then MyAppointmentsPage
    else if path == "/doctor" then DoctorPage
    else if path == "/profile" then ProfilePage
    else if |path| > |AppointmentPrefix| && path[..|AppointmentPrefix|] == AppointmentPrefix
            && '/' !in path[|AppointmentPrefix|..] then
      assert path == AppointmentPrefix + path[|AppointmentPrefix|..];
      AppointmentPage(path[|AppointmentPrefix|..])
    else NotFound
  }

  /** A doctor's booking path resolves to that doctor's booking page. */
  lemma ResolveAppointment(id: string)
    requires id != "" && '/' !in id
    ensures Resolve(AppointmentPrefix + id) == AppointmentPage(id)
  {
    var path := AppointmentPrefix + id;
    assert path[..|AppointmentPrefix|] == AppointmentPrefix && path[|AppointmentPrefix|..] == id;
    assert path[1] == 'a';
  }

  /**
   * The reschedule and rebook links of an appointment whose doctor id is a
   * positive number open that doctor's booking page.
   */
  lemma AppointmentLinkResolves(a: Appointments.Item, n: nat)
    requires a.doctorId == Num(n) && n != 0
    ensures Resolve(Appointments.LinkTarget(a)) == AppointmentPage(DecimalString(n))
  {
    var id := DecimalString(n);
    assert '/' !in id by {
      assert forall i :: 0 <= i < |id| ==> IsDigit(id[i]);
    }
    ResolveAppointment(id);
  }

  /** Which guard a page sits behind. */
  datatype Requirement = Public | AnyLogin | OnlyRole(role: string)

  function RequirementOf(p: Page): Requirement {
    match p
    case Search => OnlyRole("patient")
    case AppointmentPage(_) => OnlyRole("patient")
    case MyAppointmentsPage => OnlyRole("patient")
    case DoctorPage => OnlyRole("doctor")
    case ProfilePage => AnyLogin
    case _ => Public
  }

  /** What a visit shows: the page, or a redirect to "/" after an alert. */
  datatype Visit = Show(page: Page) | Redirected(to: string, alert: string, keepsFrom: bool)

  function VisitPath(m: map<string, Raw>, path: string): (v: Visit)
    ensures v.Redirected? ==> v.to == "/"
    ensures v.Show? ==> v.page == Resolve(path)
  {
    var page := Resolve(path);
    var g :=
      match RequirementOf(page)
      case Public => Allow
      case AnyLogin => RequireAuth(m)
      case OnlyRole(r) => RequireRole(m, r);
    match g
    case Allow => Show(page)
    case Deny(alert, keepsFrom) => Redirected("/", alert, keepsFrom)
  }

  /** Who may see a page, stated apart from the guards. */
  predicate MayView(m: map<string, Raw>, p: Page) {
    match p
    case Search => LoggedInOf(m) && RoleOf(m) == Str("patient")
    case AppointmentPage(_) => LoggedInOf(m) && RoleOf(m) == Str("patient")
    case MyAppointmentsPage => LoggedInOf(m) && RoleOf(m) == Str("patient")
    case DoctorPage => LoggedInOf(m) && RoleOf(m) == Str("doctor")
    case ProfilePage => LoggedInOf(m)
    case _ => true
  }

  /** A visit shows its page exactly when the visitor may view it. */
  lemma VisitShowsIffAllowed(m: map<string, Raw>, path: string)
    ensures VisitPath(m, path).Show? <==> MayView(m, Resolve(path))
  {
  }

  /** Logged out, every guarded page alerts the login message and sends the visitor to "/". */
  lemma LoggedOutTurnedAway(m: map<string, Raw>, path: string)
    requires !LoggedInOf(m) && RequirementOf(Resolve(path)) != Public
    ensures VisitPath(m, path).Redirected? && VisitPath(m, path).keepsFrom
    ensures VisitPath(m, path).alert == if Resolve(path) == ProfilePage then LoginOrRegisterText else LoginText
  {
  }

  /** The fixed paths of the route table. */
  const RoutePaths: set<string> := {"/", "/register", "/login", "/search", "/my-appointments", "/doctor", "/profile"}

  /** A booking path: the prefix and then one non-empty segment. */
  ghost predicate IsBookingPath(path: string) {
    exists id :: id != "" && '/' !in id && path == AppointmentPrefix + id
  }

  /**
   * Exactly the paths outside the route table resolve to NotFound, and
   * those show NotFound whoever visits.
   */
  lemma UnknownPathNotFound(m: map<string, Raw>, path: string)
    ensures Resolve(path) == NotFound <==> path !in RoutePaths && !IsBookingPath(path)
    ensures Resolve(path) == NotFound ==> VisitPath(m, path) == Show(NotFound)
  {
    if IsBookingPath(path) {
      var id :| id != "" && '/' !in id && path == AppointmentPrefix + id;
      ResolveAppointment(id);
    }
    if Resolve(path).AppointmentPage? {
      assert IsBookingPath(path);
    }
  }

  /** Three paths the table does not know. */
  lemma UnknownPathExamples(m: map<string, Raw>)
    ensures VisitPath(m, "/admin") == Show(NotFound)
    ensures VisitPath(m, "/appointment/") == Show(NotFound)
    ensures VisitPath(m, "/appointment/7/x") == Show(NotFound)
  {
    assert "/admin"[1] == 'a';
    var p1 := "/appointment/7/x";
    assert p1[..|AppointmentPrefix|] == AppointmentPrefix;
    assert p1[|AppointmentPrefix|..][1] == '/';
  }

  // ---------------------------------------------------------------------
  // The navigation bar
  // ---------------------------------------------------------------------

  /** `homeDest`: "/" logged out, "/doctor" for a doctor, "/search" for any other logged-in visitor. */
  function HomeDest(m: map<string, Raw>): (dest: string)
    ensures dest == "/" <==> !LoggedInOf(m)
    ensures dest == "/doctor" <==> LoggedInOf(m) && RoleOf(m) == Str("doctor")
    ensures dest == "/search" <==> LoggedInOf(m) && RoleOf(m) != Str("doctor")
  {
    if !LoggedInOf(m) then "/" else if RoleOf(m) == Str("doctor") then "/doctor" else "/search"
  }

  /** A link, its target split into the path the router matches and the query it carries. */
  datatype NavItem = NavLink(path: string, query: string) | LogoutButton

  /**
   * The bar's items: login and the two sign-ups when logged out; search,
   * my appointments, profile and logout for a patient; the dashboard,
   * profile and logout for a doctor; nothing for any other logged-in role.
   */
  function NavItems(m: map<string, Raw>): (items: seq<NavItem>)
    ensures !LoggedInOf(m) ==> LogoutButton !in items
    ensures LoggedInOf(m) && (RoleOf(m) == Str("patient") || RoleOf(m) == Str("doctor")) ==> LogoutButton in items
    ensures NavLink("/profile", "") in items <==> LoggedInOf(m) && (RoleOf(m) == Str("patient") || RoleOf(m) == Str("doctor"))
    ensures !LoggedInOf(m) ==>
      items == [NavLink("/login", ""), NavLink("/register", "?role=patient"), NavLink("/register", "?role=doctor")]
    ensures LoggedInOf(m) && RoleOf(m) == Str("patient") ==>
      items == [NavLink("/search", ""), NavLink("/my-appointments", ""), NavLink("/profile", ""), LogoutButton]
    ensures LoggedInOf(m) && RoleOf(m) == Str("doctor") ==>
      items == [NavLink("/doctor", ""), NavLink("/profile", ""), LogoutButton]
    ensures LoggedInOf(m) && RoleOf(m) != Str("patient") && RoleOf(m) != Str("doctor") ==> items == []
  {
    if !LoggedInOf(m) then
      [NavLink("/login", ""), NavLink("/register", "?role=patient"), NavLink("/register", "?role=doctor")]
    else if RoleOf(m) == Str("patient") then
      [NavLink("/search", ""), NavLink("/my-appointments", ""), NavLink("/profile", ""), LogoutButton]
    else if RoleOf(m) == Str("doctor") then
      [NavLink("/doctor", ""), NavLink("/profile", ""), LogoutButton]
    else []
  }

  /** Every link the bar offers leads to a page the visitor may view, never to a redirect. */
  lemma NavLinksLeadToViewablePages(m: map<string, Raw>)
    ensures forall it :: it in NavItems(m) && it.NavLink? ==> VisitPath(m, it.path).Show?
  {
    var items := NavItems(m);
    if !LoggedInOf(m) {
      assert VisitPath(m, "/login") == Show(LoginPage);
      assert VisitPath(m, "/register") == Show(RegisterPage);
    } else if RoleOf(m) == Str("patient") {
      assert VisitPath(m, "/search") == Show(Search);
      assert VisitPath(m, "/my-appointments") == Show(MyAppointmentsPage);
      assert VisitPath(m, "/profile") == Show(ProfilePage);
    } else if RoleOf(m) == Str("doctor") {
      assert VisitPath(m, "/doctor") == Show(DoctorPage);
      assert VisitPath(m, "/profile") == Show(ProfilePage);
    }
  }

  /** For a patient or a doctor, the logo leads to a page they may view. */
  lemma HomeDestViewable(m: map<string, Raw>)
    requires !LoggedInOf(m) || RoleOf(m) == Str("patient") || RoleOf(m) == Str("doctor")
    ensures VisitPath(m, HomeDest(m)).Show?
  {
  }

  /**
   * A logged-in visitor whose role is neither "patient" nor "doctor" (or
   * missing) is sent by the logo to "/search", which turns them away.
   */
  lemma HomeDestTurnsAwayOtherRoles(m: map<string, Raw>)
    requires LoggedInOf(m) && RoleOf(m) != Str("patient") && RoleOf(m) != Str("doctor")
    ensures VisitPath(m, HomeDest(m)) == Redirected("/", WrongRoleText, false)
  {
  }

  /** Logging in through setAuth as a doctor points the logo at the dashboard. */
  lemma DoctorLoginHome(m: map<string, Raw>, x: Record)
    requires Truthy(x.id) && x.role == Str("doctor")
    ensures HomeDest(m[Key := Encoded(Normalize(x))]) == "/doctor"
  {
  }

  /**
   * `logout`: the session is cleared and the visitor is sent to "/"; the
   * bar then shows the logged-out links and the logo points at "/".
   */
  method Logout(store: SessionStore) returns (dest: string)
    modifies store
    ensures store.entries == old(store.entries) - {Key}
    ensures !store.IsLoggedIn() && dest == "/"
    ensures HomeDest(store.entries) == "/"
    ensures NavItems(store.entries) == [NavLink("/login", ""), NavLink("/register", "?role=patient"), NavLink("/register", "?role=doctor")]
  {
    store.ClearAuth();
    dest := "/";
  }
}
