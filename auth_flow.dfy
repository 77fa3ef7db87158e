/** How the client-side pieces fit together through `localStorage`: what the
    login form writes is what the landing page and the dashboard guard read, and
    the sidebar's first item is the page the login sends the user to. */
module AuthFlow {
  import opened Prelude
  import opened Json
  import LoginPage
  import DashboardLayout
  import HomePage
  import AppSidebar

  /** The three route tables (login dashboards, landing redirects, guard
      redirects) name the same page for every role. */
  lemma RouteTablesAgree(role: string)
    ensures HomePage.HomeRoleRoute(role) == DashboardLayout.RoleRoute(role)
    ensures LoginPage.RoleCredentials(role).Some? <==> DashboardLayout.RoleRoute(role).Some?
    ensures LoginPage.RoleCredentials(role).Some? ==>
              DashboardLayout.RoleRoute(role) == Some(LoginPage.RoleCredentials(role).value.dashboard)
  {
  }

  lemma SubmitWritesSignedIn(role: string, items: map<string, string>)
    requires LoginPage.IsCredentialRole(role)
    ensures LoginPage.SubmitSpec(role, role, role, items).items ==
            LoginPage.SignedIn(items, LoginPage.RoleCredentials(role).value, role)
  {
  }

  lemma SignedInStoredUser(items: map<string, string>, c: LoginPage.Credentials, role: string)
    ensures DashboardLayout.StoredUser(LoginPage.SignedIn(items, c, role)) == Some(LoginPage.UserRecord(c, role).members)
  {
  }

  lemma RecordRole(c: LoginPage.Credentials, role: string)
    ensures Lookup(LoginPage.UserRecord(c, role).members, "role") == Some(role)
  {
    var ms := LoginPage.UserRecord(c, role).members;
    assert ms[|ms| - 1] == ("role", role);
  }

  /** The stored user a successful login writes reads back with the chosen role. */
  lemma StoredRole(role: string, items: map<string, string>)
    requires LoginPage.IsCredentialRole(role)
    ensures var o := LoginPage.SubmitSpec(role, role, role, items);
      && DashboardLayout.StoredUser(o.items).Some?
      && Lookup(DashboardLayout.StoredUser(o.items).value, "role") == Some(role)
  {
    var c := LoginPage.RoleCredentials(role).value;
    SubmitWritesSignedIn(role, items);
    SignedInStoredUser(items, c, role);
    RecordRole(c, role);
  }

  /** Right after logging in as a known role, the dashboard guard lets the user in
      with that role, forwards `/dashboard` to the same page the login chose, and
      leaves every other path alone. */
  lemma LoginThenGuard(role: string, items: map<string, string>, s: DashboardLayout.LayoutState, pathname: string)
    requires LoginPage.IsCredentialRole(role)
    ensures var o := LoginPage.SubmitSpec(role, role, role, items);
      DashboardLayout.Guard(s, o.items, pathname) ==
        (DashboardLayout.LayoutState(true, Some(role)), if pathname == "/dashboard" then o.navigation else None)
  {
    var o := LoginPage.SubmitSpec(role, role, role, items);
    StoredRole(role, items);
    DashboardLayout.GuardAcceptsIff(s, o.items, pathname);
    if pathname == "/dashboard" {
      DashboardLayout.DashboardRedirect(s, o.items);
    } else {
      DashboardLayout.OtherPathsStay(s, o.items, pathname);
    }
  }

  /** The landing page's redirect in the guard's terms: the route of the stored
      user's role, when the store holds a signed-in user with a role. */
  lemma HomeRedirectOfStoredUser(items: map<string, string>)
    ensures var user := DashboardLayout.StoredUser(items);
      HomePage.HomeRedirect(items) ==
        if user.Some? && Lookup(user.value, "role").Some? then DashboardLayout.RoleRoute(Lookup(user.value, "role").value)
        else None
  {
    HomePage.RedirectIff(items);
    if "user" in items && Parse(items["user"]).Some? && Parse(items["user"]).value.JObject? {
      var role := Lookup(Parse(items["user"]).value.members, "role");
      if role.Some? {
        RouteTablesAgree(role.value);
      }
    }
  }

  /** Right after logging in, the landing page sends the user to the same page the
      login did. */
  lemma LoginThenHome(role: string, items: map<string, string>)
    requires LoginPage.IsCredentialRole(role)
    ensures HomePage.HomeRedirect(LoginPage.SubmitSpec(role, role, role, items).items) ==
            LoginPage.SubmitSpec(role, role, role, items).navigation
  {
    var o := LoginPage.SubmitSpec(role, role, role, items);
    StoredRole(role, items);
    LoginPage.SubmitSucceedsIff(role, role, role, items);
    HomeRedirectOfStoredUser(o.items);
  }

  /** Whenever the landing page redirects, the guard accepts the target page and
      would have sent `/dashboard` to it too: no redirect loop. */
  lemma HomeRedirectAccepted(items: map<string, string>, s: DashboardLayout.LayoutState)
    requires HomePage.HomeRedirect(items).Some?
    ensures var target := HomePage.HomeRedirect(items).value;
      && DashboardLayout.Guard(s, items, target).1 == None
      && DashboardLayout.Guard(s, items, "/dashboard").1 == Some(target)
  {
    var target := HomePage.HomeRedirect(items).value;
    HomeRedirectOfStoredUser(items);
    var role := Lookup(DashboardLayout.StoredUser(items).value, "role");
    assert role.Some? && target == "/dashboard/" + role.value;
    assert target != "/dashboard" by {
      assert |target| > |"/dashboard"|;
    }
    DashboardLayout.OtherPathsStay(s, items, target);
    DashboardLayout.DashboardRedirect(s, items);
  }

  /** After logging out neither the landing page nor the guard lets the user in. */
  lemma LogoutEndsSession(items: map<string, string>, s: DashboardLayout.LayoutState, pathname: string)
    ensures HomePage.HomeRedirect(DashboardLayout.SignedOut(items)) == None
    ensures DashboardLayout.Guard(s, DashboardLayout.SignedOut(items), pathname) == (s, Some("/login"))
  {
    HomePage.NoRedirectWithoutUser(DashboardLayout.SignedOut(items));
    DashboardLayout.LogoutThenGuard(s, items, pathname);
  }

  /** After logging in, the sidebar the layout shows starts with the page the login
      went to, and its header names the role. */
  lemma LoginThenSidebar(role: string, items: map<string, string>, s: DashboardLayout.LayoutState)
    requires LoginPage.IsCredentialRole(role)
    ensures var o := LoginPage.SubmitSpec(role, role, role, items);
      var shown := DashboardLayout.Guard(s, o.items, "/dashboard").0.userRole;
      && o.navigation.Some? && |AppSidebar.SidebarData(shown).navMain| > 0
      && AppSidebar.SidebarData(shown).navMain[0].url == o.navigation.value
      && AppSidebar.HeaderLabel(shown) == [AppSidebar.UpperAscii(role[0])] + role[1..] + " Dashboard"
  {
    LoginThenGuard(role, items, s, "/dashboard");
    LoginPage.SubmitSucceedsIff(role, role, role, items);
    AppSidebar.KnownRoleNavigation(role);
  }
}
