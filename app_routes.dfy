/** The application's route table: which guard and which page a browser
    path shows, and where every other path is sent. */
module AppRoutes {
  import opened JsValues

  /** The pages of the console. `Dashboard` is the layout the protected
      pages render inside. */
  datatype Page = Login | Signup | Dashboard | DashboardHome | UserManagement
                | TeamManagement | RoleManagement | AuditLogs

  /** `PublicRoute` admits only signed-out visitors and `ProtectedRoute` only
      signed-in ones; what each does otherwise is not part of this model. */
  datatype Guard = PublicOnly | Protected

  /** A page under its guard, inside a layout when it is a nested route. */
  datatype Screen = Screen(guard: Guard, layout: Option<Page>, page: Page)

  datatype Outcome = Show(screen: Screen) | Redirect(target: string, replace: bool)

  const DashboardPath := "/dashboard"
  const LoginPath := "/login"

  /** The matcher ignores trailing slashes. */
  function TrimSlashes(path: string): (t: string)
    ensures |t| <= |path| && t == path[..|t|]
    ensures t == "" || t[|t| - 1] != '/'
    ensures forall k :: |t| <= k < |path| ==> path[k] == '/'
  {
    if |path| > 0 && path[|path| - 1] == '/' then TrimSlashes(path[..|path| - 1]) else path
  }

  /** Resolution of a path against the table, in the table's order: the two
      public pages, the protected dashboard with its index and four child
      pages, then the root and catch-all rules, which both replace the
      current history entry with the dashboard. */
  function Resolve(path: string): (o: Outcome)
    ensures o.Redirect? ==> o == Redirect(DashboardPath, true)
    ensures o.Show? ==> (o.screen.guard == PublicOnly <==> o.screen.page == Login || o.screen.page == Signup)
    ensures o.Show? ==> (o.screen.guard == Protected <==> o.screen.layout == Some(Dashboard))
  {
    var p := TrimSlashes(path);
    if p == LoginPath then Show(Screen(PublicOnly, None, Login))
    else if p == "/signup" then Show(Screen(PublicOnly, None, Signup))
    else if p == DashboardPath then Show(Screen(Protected, Some(Dashboard), DashboardHome))
    else if p == "/dashboard/users" then Show(Screen(Protected, Some(Dashboard), UserManagement))
    else if p == "/dashboard/teams" then Show(Screen(Protected, Some(Dashboard), TeamManagement))
    else if p == "/dashboard/roles" then Show(Screen(Protected, Some(Dashboard), RoleManagement))
    else if p == "/dashboard/logs" then Show(Screen(Protected, Some(Dashboard), AuditLogs))
    else Redirect(DashboardPath, true)
  }

  /** The path of each page the table shows, as the sidebar links to it. */
  function PathOf(page: Page): Option<string>
  {
    match page
    case Login => Some("/login")
    case Signup => Some("/signup")
    case DashboardHome => Some("/dashboard")
    case UserManagement => Some("/dashboard/users")
    case TeamManagement => Some("/dashboard/teams")
    case RoleManagement => Some("/dashboard/roles")
    case AuditLogs => Some("/dashboard/logs")
    case Dashboard => None
  }

  /** Every page with a path is shown at that path, under the public-only
      guard for the two sign-in pages and inside the protected dashboard
      layout for the rest. */
  lemma PathOfResolvesToPage(page: Page)
    ensures PathOf(page).Some? ==>
              Resolve(PathOf(page).value).Show? && Resolve(PathOf(page).value).screen.page == page
    ensures PathOf(page).Some? ==>
              (Resolve(PathOf(page).value).screen.guard == PublicOnly <==> page == Login || page == Signup)
    ensures PathOf(page).Some? && page != Login && page != Signup ==>
              Resolve(PathOf(page).value).screen.layout == Some(Dashboard)
    ensures PathOf(page).None? <==> page == Dashboard
  {
  }

  /** A path that shows a page is that page's path, up to trailing
      slashes: no two paths show the same page. */
  lemma ShownPageHasOnePath(path: string)
    ensures Resolve(path).Show? ==> PathOf(Resolve(path).screen.page) == Some(TrimSlashes(path))
  {
  }

  /** The layout itself is never shown alone: it always wraps a page. */
  lemma LayoutNeverShownAlone(path: string)
    ensures Resolve(path).Show? ==> Resolve(path).screen.page != Dashboard
    ensures Resolve(path).Show? ==> (Resolve(path).screen.guard == Protected <==> Resolve(path).screen.layout.Some?)
  {
  }

  /** Every redirect lands on the dashboard's home page, so resolution
      never redirects twice. */
  lemma RedirectLandsOnHome(path: string)
    ensures Resolve(path).Redirect? ==>
              Resolve(path).replace &&
              Resolve(Resolve(path).target) == Show(Screen(Protected, Some(Dashboard), DashboardHome))
  {
  }

  lemma {:induction false} TrimSlashesAppend(path: string)
    ensures TrimSlashes(path + "/") == TrimSlashes(path)
  {
    assert (path + "/")[..|path + "/"| - 1] == path;
  }

  /** A trailing slash never changes what a path shows. */
  lemma TrailingSlashIgnored(path: string)
    ensures Resolve(path + "/") == Resolve(path)
  {
    TrimSlashesAppend(path);
  }

  /** The root path and an unknown path are both sent to the dashboard. */
  lemma RootAndUnknownRedirect()
    ensures Resolve("/") == Redirect(DashboardPath, true)
    ensures Resolve("/settings") == Redirect(DashboardPath, true)
    ensures Resolve("/dashboard/users/") == Show(Screen(Protected, Some(Dashboard), UserManagement))
  {
    TrimSlashesAppend("/dashboard/users");
  }
}
