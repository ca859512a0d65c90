/**
 * The client's authorization gate: which navigation entries the shell shows
 * and which routes it enables, as a function of whether a token is stored
 * and which role is stored. The CRUD routes on the server check neither.
 */
module AppShell {
  import opened Json
  import opened Session

  /** The navigation entries in the order the shell lists them. */
  datatype Entry = Home | Jobs | Employers | Profiles | Applications | MyProfile | Login | Register | Logout

  function Rank(e: Entry): nat
  {
    match e
    case Home => 0
    case Jobs => 1
    case Employers => 2
    case Profiles => 3
    case Applications => 4
    case MyProfile => 5
    case Login => 6
    case Register => 7
    case Logout => 8
  }

  /** Who may see an entry. */
  datatype Access = Anyone | SignedIn | SignedInAs(roles: set<string>) | SignedOut

  /** The access policy, entry by entry. */
  function Policy(e: Entry): Access
  {
    match e
    case Home => Anyone
    case Jobs => SignedIn
    case Employers => SignedInAs({"employer", "admin"})
    case Profiles => SignedInAs({"admin"})
    case Applications => SignedIn
    case MyProfile => SignedInAs({"user"})
    case Login => SignedOut
    case Register => SignedOut
    case Logout => SignedIn
  }

  predicate Allows(a: Access, authed: bool, role: JsonValue)
  {
    match a
    case Anyone => true
    case SignedIn => authed
    case SignedInAs(roles) => authed && role.JStr? && role.s in roles
    case SignedOut => !authed
  }

  /** The navigation bar: each link's own condition, in the order the shell renders them. */
  function Nav(authed: bool, role: JsonValue): (nav: seq<Entry>)
    ensures forall e :: e in nav <==> Allows(Policy(e), authed, role)
    ensures forall i, j :: 0 <= i < j < |nav| ==> Rank(nav[i]) < Rank(nav[j])
  {
    [Home]
    + (if authed then [Jobs] else [])
    + (if authed && (role == JStr("employer") || role == JStr("admin")) then [Employers] else [])
    + (if authed && role == JStr("admin") then [Profiles] else [])
    + (if authed then [Applications] else [])
    + (if authed && role == JStr("user") then [MyProfile] else [])
    + (if !authed then [Login] else [])
    + (if !authed then [Register] else [])
    + (if authed then [Logout] else [])
  }

  /** The enabled routes: each route's own condition, which is the access policy. Logout is a button, not a route. */
  function Routes(authed: bool, role: JsonValue): (r: set<Entry>)
    ensures forall e :: e in r <==> e != Logout && Allows(Policy(e), authed, role)
  {
    {Home}
    + (if authed then {Jobs} else {})
    + (if authed && (role == JStr("employer") || role == JStr("admin")) then {Employers} else {})
    + (if authed && role == JStr("admin") then {Profiles} else {})
    + (if authed then {Applications} else {})
    + (if authed && role == JStr("user") then {MyProfile} else {})
    + (if !authed then {Login} else {})
    + (if !authed then {Register} else {})
  }

  /** A link is shown exactly when its route is enabled. */
  lemma NavAgreesWithRoutes(authed: bool, role: JsonValue, e: Entry)
    requires e != Logout
    ensures e in Routes(authed, role) <==> e in Nav(authed, role)
  {
  }

  /** Signed in with no role or a role outside user/employer/admin, only the role-free entries remain. */
  lemma UnknownRoleFailsClosed(role: JsonValue)
    requires !(role.JStr? && role.s in {"user", "employer", "admin"})
    ensures Nav(true, role) == [Home, Jobs, Applications, Logout]
    ensures Routes(true, role) == {Home, Jobs, Applications}
  {
  }

  /** Signed out, whatever role is stored, only Home, Login and Register remain. */
  lemma SignedOutSeesOnlyEntryPages(role: JsonValue)
    ensures Nav(false, role) == [Home, Login, Register]
    ensures Routes(false, role) == {Home, Login, Register}
  {
  }

  /** The shell's state: read from storage when it loads, reset by the Logout button. */
  class App {
    var authed: bool
    var role: JsonValue

    /** `useState(!!getAuthToken())` and `useState(getAuthRole())`. */
    constructor (store: SessionStore)
      ensures authed == Truthy(store.token) && role == store.role
    {
      authed := Truthy(store.token);
      role := store.role;
    }

    /** `handleLogout`: clear storage, then sign out with no role. */
    method HandleLogout(store: SessionStore)
      modifies this, store
      ensures store.State() == Cleared
      ensures !authed && role == JNull
      ensures Nav(authed, role) == [Home, Login, Register]
    {
      store.Clear();
      authed := false;
      role := JNull;
      SignedOutSeesOnlyEntryPages(role);
    }
  }
}
