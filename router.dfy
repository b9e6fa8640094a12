// The route table of src/router/index.ts:59-160: three layouts, each with
// the guard named in its `beforeEnter` and its child pages, and the
// navigation guards of src/router/index.ts:35-54. A guard looks at the
// session flags and either sends the visitor to the `home` route or lets the
// navigation proceed; the guard of a layout covers all its pages.

module RouteTable {
  import opened Util

  datatype Guard = RequireAuth | RequireAdmin

  /** The three layouts: the public site, the dashboard and the admin area. */
  datatype Layout = PublicLayout | DashboardLayout | AdminLayout

  /** The named pages; `Text` is the route name as written in the table. */
  datatype RouteName =
    | Home | Philosophy | Classes | Schedule | Trainers | Contact
    | Dashboard | DashboardParticipants | DashboardSchedule | DashboardBookings | DashboardPayments
    | AdminHome | AdminUsers | AdminSchedule | AdminAttendance | AdminFinances
  {
    function Text(): string
    {
      match this
      case Home => "home"
      case Philosophy => "philosophy"
      case Classes => "classes"
      case Schedule => "schedule"
      case Trainers => "trainers"
      case Contact => "contact"
      case Dashboard => "dashboard"
      case DashboardParticipants => "dashboard-participants"
      case DashboardSchedule => "dashboard-schedule"
      case DashboardBookings => "dashboard-bookings"
      case DashboardPayments => "dashboard-payments"
      case AdminHome => "admin"
      case AdminUsers => "admin-users"
      case AdminSchedule => "admin-schedule"
      case AdminAttendance => "admin-attendance"
      case AdminFinances => "admin-finances"
    }
  }

  /** A layout, the guard in its `beforeEnter`, and its child pages in order. */
  datatype Section = Section(layout: Layout, guard: Option<Guard>, pages: seq<RouteName>)

  const PublicSection: Section :=
    Section(PublicLayout, None, [Home, Philosophy, Classes, Schedule, Trainers, Contact])

  const DashboardSection: Section :=
    Section(DashboardLayout, Some(RequireAuth),
            [Dashboard, DashboardParticipants, DashboardSchedule, DashboardBookings, DashboardPayments])

  const AdminSection: Section :=
    Section(AdminLayout, Some(RequireAdmin),
            [AdminHome, AdminUsers, AdminSchedule, AdminAttendance, AdminFinances])

  const Routes: seq<Section> := [PublicSection, DashboardSection, AdminSection]

  /** Every route name of the table, section by section. */
  function RouteNames(rs: seq<Section>): seq<RouteName>
  {
    if rs == [] then [] else rs[0].pages + RouteNames(rs[1..])
  }

  /** The first section that has a page with this name; `None` for a name the table does not have. */
  function SectionOf(rs: seq<Section>, name: RouteName): (r: Option<Section>)
    ensures r.Some? ==> r.value in rs && name in r.value.pages
    ensures r.None? <==> name !in RouteNames(rs)
  {
    if rs == [] then None
    else if name in rs[0].pages then Some(rs[0])
    else SectionOf(rs[1..], name)
  }

  /** The position of each name in the table. */
  function Index(n: RouteName): nat
  {
    match n
    case Home => 0 case Philosophy => 1 case Classes => 2 case Schedule => 3
    case Trainers => 4 case Contact => 5 case Dashboard => 6 case DashboardParticipants => 7
    case DashboardSchedule => 8 case DashboardBookings => 9 case DashboardPayments => 10
    case AdminHome => 11 case AdminUsers => 12 case AdminSchedule => 13
    case AdminAttendance => 14 case AdminFinances => 15
  }

  /** The names of the table are those of its three sections, in order. */
  lemma RouteNamesBySection()
    ensures RouteNames(Routes) == PublicSection.pages + DashboardSection.pages + AdminSection.pages
  {
    assert Routes[1..] == [DashboardSection, AdminSection];
    assert Routes[1..][1..] == [AdminSection];
    assert RouteNames(Routes[1..][1..]) == AdminSection.pages + RouteNames([]);
  }

  /** Different routes have different names. */
  lemma TextInjective(a: RouteName, b: RouteName)
    requires a != b
    ensures a.Text() != b.Text()
  {
  }

  /** The table names every route exactly once. */
  lemma RouteNamesDistinct()
    ensures |RouteNames(Routes)| == 16
    ensures forall n: RouteName :: n in RouteNames(Routes)
    ensures forall i, j :: 0 <= i < j < |RouteNames(Routes)| ==> RouteNames(Routes)[i] != RouteNames(Routes)[j]
    ensures forall i, j :: 0 <= i < j < |RouteNames(Routes)| ==>
      RouteNames(Routes)[i].Text() != RouteNames(Routes)[j].Text()
  {
    RouteNamesBySection();
    var ns := RouteNames(Routes);
    forall i | 0 <= i < |ns| ensures Index(ns[i]) == i {
    }
    forall n: RouteName ensures n in ns {
      assert ns[Index(n)] == n;
    }
    forall i, j | 0 <= i < j < |ns| ensures ns[i] != ns[j] && ns[i].Text() != ns[j].Text() {
      assert Index(ns[i]) == i && Index(ns[j]) == j;
      TextInjective(ns[i], ns[j]);
    }
  }
}

module Router {
  import opened Util
  import opened Types
  import opened Auth
  import opened RouteTable

  datatype Decision = RedirectHome | Proceed

  /** `requireAuth`: back to `home` unless the session is authenticated. */
  function RequireAuthDecision(user: Option<User>, token: Option<string>): Decision
  {
    if !Authenticated(user, token) then RedirectHome else Proceed
  }

  /** `requireAdmin`: back to `home` unless the session is authenticated and the user is an administrator. */
  function RequireAdminDecision(user: Option<User>, token: Option<string>): Decision
  {
    if !Authenticated(user, token) || !AdminRole(user) then RedirectHome else Proceed
  }

  function Apply(g: Guard, user: Option<User>, token: Option<string>): Decision
  {
    match g
    case RequireAuth => RequireAuthDecision(user, token)
    case RequireAdmin => RequireAdminDecision(user, token)
  }

  /** Whoever passes the administrator guard passes the authentication guard; a member never passes it. */
  lemma AdminGuardIsStricter(user: Option<User>, token: Option<string>)
    ensures RequireAdminDecision(user, token) == Proceed ==> RequireAuthDecision(user, token) == Proceed
    ensures MemberRole(user) ==> RequireAdminDecision(user, token) == RedirectHome
  {
  }

  /** After a login both guards agree with the signed-in role; after a logout both send the visitor home. */
  lemma GuardsAfterSessionChanges(s: Session, data: LoginData, now: nat, iso: string)
    ensures var t := AfterLogin(s, data, now, iso);
      RequireAuthDecision(t.user, t.token) == Proceed
      && (RequireAdminDecision(t.user, t.token) == Proceed <==> data.email == AdminEmail)
    ensures var t := AfterLogout(s);
      RequireAuthDecision(t.user, t.token) == RedirectHome && RequireAdminDecision(t.user, t.token) == RedirectHome
  {
    LoginAuthenticates(s, data, now, iso);
    LoginRole(data, now, iso);
  }

  /** Navigating to a named route: the guard of the page's section decides. */
  function Navigate(name: RouteName, user: Option<User>, token: Option<string>): (d: Option<Decision>)
    ensures d.None? <==> name !in RouteNames(Routes)
    ensures d == Some(Proceed) ==> name in PublicSection.pages || Authenticated(user, token)
    ensures d == Some(Proceed) && name in AdminSection.pages ==> AdminRole(user)
    ensures d == Some(RedirectHome) ==> name !in PublicSection.pages && !(Authenticated(user, token) && AdminRole(user))
  {
    match SectionOf(Routes, name)
    case None => None
    case Some(sec) =>
      match sec.guard
      case None => Some(Proceed)
      case Some(g) => Some(Apply(g, user, token))
  }

  /** The public pages are open to everyone. */
  lemma PublicPagesOpen(name: RouteName, user: Option<User>, token: Option<string>)
    requires name in PublicSection.pages
    ensures Navigate(name, user, token) == Some(Proceed)
  {
  }

  /** The participant area lets exactly the authenticated sessions in. */
  lemma DashboardNeedsSession(name: RouteName, user: Option<User>, token: Option<string>)
    requires name in DashboardSection.pages
    ensures Navigate(name, user, token) == Some(Proceed) <==> Authenticated(user, token)
    ensures Navigate(name, user, token) == Some(RedirectHome) <==> !Authenticated(user, token)
  {
    assert name !in PublicSection.pages;
    assert Routes[1..] == [DashboardSection, AdminSection];
  }

  /** The administration area lets exactly the authenticated administrators in. */
  lemma AdminAreaNeedsAdmin(name: RouteName, user: Option<User>, token: Option<string>)
    requires name in AdminSection.pages
    ensures Navigate(name, user, token) == Some(Proceed) <==> Authenticated(user, token) && AdminRole(user)
    ensures Navigate(name, user, token) == Some(RedirectHome) <==> !(Authenticated(user, token) && AdminRole(user))
  {
    assert name !in PublicSection.pages && name !in DashboardSection.pages;
    assert Routes[1..] == [DashboardSection, AdminSection];
    assert Routes[1..][1..] == [AdminSection];
    assert SectionOf(Routes[1..], name) == SectionOf([AdminSection], name);
  }

  /** Every route name is in the table, so navigation always reaches a guard decision. */
  lemma NavigationAlwaysDecides(name: RouteName, user: Option<User>, token: Option<string>)
    ensures Navigate(name, user, token).Some?
  {
    RouteNamesDistinct();
  }
}
