/** The dashboard layout's client-side guard: on mount (and whenever the path
    changes) it reads `isAuthenticated` and `user` from `localStorage`, sends
    signed-out visitors to `/login`, records the stored role, and forwards
    `/dashboard` to the role's own page. Logging out removes both keys. */
module DashboardLayout {
  import opened Prelude
  import opened Json
  import opened LocalStorage

  /** `roleRoutes` in the guard. */
  function RoleRoute(role: string): (r: Option<string>)
    ensures r.Some? <==> role in {"creative", "manager", "social", "finance"}
    ensures r.Some? ==> r.value == "/dashboard/" + role
  {
    if role == "creative" then Some("/dashboard/creative")
    else if role == "manager" then Some("/dashboard/manager")
    else if role == "social" then Some("/dashboard/social")
    else if role == "finance" then Some("/dashboard/finance")
    else None
  }

  /** The layout's two state fields. `userRole` is `None` when the stored user has
      no `role` (the source then holds `undefined`). */
  datatype LayoutState = LayoutState(isAuthenticated: bool, userRole: Option<string>)

  const InitialState := LayoutState(false, Some(""))

  /** What the layout renders. */
  datatype LayoutView = Loading | Shell(userRole: Option<string>)

  /** `if (!isAuthenticated) return Loading...`, else the sidebar shell with the role. */
  function ViewOf(s: LayoutState): (v: LayoutView)
    ensures v == Loading <==> !s.isAuthenticated
    ensures v.Shell? ==> v.userRole == s.userRole
  {
    if !s.isAuthenticated then Loading else Shell(s.userRole)
  }

  /** The guard effect as a function of the state before it, the store and the
      path: the state after it and where it navigates, if anywhere. A stored user
      that does not parse, or parses to `null` (reading `.role` of `null`
      throws), lands in the `catch` and goes to `/login`. */
  function Guard(s: LayoutState, items: map<string, string>, pathname: string): (r: (LayoutState, Option<string>))
    ensures r.1 == Some("/login") ==> r.0 == s
    ensures r.1 != Some("/login") ==> r.0.isAuthenticated
    ensures r.1 != Some("/login") && r.1.Some? ==> pathname == "/dashboard"
  {
    var authStatus := Get(items, "isAuthenticated");
    var userData := Get(items, "user");
    if authStatus != Some("true") || userData.None? || userData.value == "" then (s, Some("/login"))
    else
      match Parse(userData.value)
      case None => (s, Some("/login"))
      case Some(JNull) => (s, Some("/login"))
      case Some(JObject(ms)) =>
        var role := Lookup(ms, "role");
        var redirect := if pathname == "/dashboard" && role.Some? then RoleRoute(role.value) else None;
        (LayoutState(true, role), redirect)
  }

  /** The store after `handleLogout`. */
  function SignedOut(items: map<string, string>): (r: map<string, string>)
    ensures r.Keys == items.Keys - {"isAuthenticated", "user"}
    ensures forall k :: k in r ==> r[k] == items[k]
  {
    items - {"isAuthenticated", "user"}
  }

  class Layout {
    var isAuthenticated: bool
    var userRole: Option<string>
    const storage: Storage

    constructor (storage: Storage)
      ensures isAuthenticated == InitialState.isAuthenticated && userRole == InitialState.userRole
      ensures this.storage == storage
    {
      isAuthenticated := false;
      userRole := Some("");
      this.storage := storage;
    }

    function State(): LayoutState
      reads this
    {
      LayoutState(isAuthenticated, userRole)
    }

    /** The `useEffect` body for the current path. */
    method CheckAuth(pathname: string) returns (navigation: Option<string>)
      modifies this
      ensures (State(), navigation) == Guard(old(State()), storage.items, pathname)
    {
      var authStatus := storage.GetItem("isAuthenticated");
      var userData := storage.GetItem("user");
      if authStatus != Some("true") || userData.None? || userData.value == "" {
        return Some("/login");
      }
      var user := Parse(userData.value);
      if user.None? || user.value.JNull? {
        return Some("/login");
      }
      var role := Lookup(user.value.members, "role");
      userRole := role;
      isAuthenticated := true;
      navigation := None;
      if pathname == "/dashboard" && role.Some? {
        var route := RoleRoute(role.value);
        if route.Some? {
          navigation := route;
        }
      }
    }

    /** `handleLogout`. */
    method Logout() returns (navigation: Option<string>)
      modifies storage
      ensures storage.items == SignedOut(old(storage.items))
      ensures navigation == Some("/login")
    {
      storage.RemoveItem("isAuthenticated");
      storage.RemoveItem("user");
      navigation := Some("/login");
    }

    function View(): LayoutView
      reads this
    {
      ViewOf(State())
    }
  }

  /** Without `isAuthenticated = "true"` or without a non-empty `user`, the guard
      goes to `/login` and leaves the state alone. */
  lemma SignedOutGoesToLogin(s: LayoutState, items: map<string, string>, pathname: string)
    requires Get(items, "isAuthenticated") != Some("true") || "user" !in items || items["user"] == ""
    ensures Guard(s, items, pathname) == (s, Some("/login"))
  {
  }

  /** The members of the signed-in user the store holds: `isAuthenticated` is
      `"true"` and `user` is the text of a JSON object. */
  function StoredUser(items: map<string, string>): (r: Option<seq<Member>>)
    ensures r.Some? <==> Get(items, "isAuthenticated") == Some("true") && "user" in items
                         && Parse(items["user"]).Some? && Parse(items["user"]).value.JObject?
    ensures r.Some? ==> Parse(items["user"]) == Some(JObject(r.value))
  {
    if Get(items, "isAuthenticated") == Some("true") && "user" in items then
      match Parse(items["user"])
      case Some(JObject(ms)) => Some(ms)
      case _ => None
    else None
  }

  /** The guard lets the visitor in exactly when the store holds a signed-in user,
      and then records that user's `role`; otherwise nothing changes but the
      navigation to `/login`. */
  lemma GuardAcceptsIff(s: LayoutState, items: map<string, string>, pathname: string)
    ensures var (s', nav) := Guard(s, items, pathname);
      && (nav != Some("/login") <==> StoredUser(items).Some?)
      && (StoredUser(items).Some? ==> s' == LayoutState(true, Lookup(StoredUser(items).value, "role")))
      && (StoredUser(items).None? ==> s' == s)
  {
    if "user" in items && items["user"] == "" {
      assert Parse("") == None;
    }
  }

  /** A redirect other than to `/login` happens only on exactly `/dashboard`, for a
      known role, to that role's own page. */
  lemma RedirectOnlyFromDashboard(s: LayoutState, items: map<string, string>, pathname: string)
    ensures var (s', nav) := Guard(s, items, pathname);
      nav.Some? && nav.value != "/login" ==>
        && pathname == "/dashboard"
        && s'.userRole.Some?
        && s'.userRole.value in {"creative", "manager", "social", "finance"}
        && nav.value == "/dashboard/" + s'.userRole.value
  {
  }

  /** A signed-in visitor on any other path stays where they are; one who is not
      signed in goes to `/login`. */
  lemma OtherPathsStay(s: LayoutState, items: map<string, string>, pathname: string)
    requires pathname != "/dashboard"
    ensures Guard(s, items, pathname).1 == if StoredUser(items).Some? then None else Some("/login")
  {
    GuardAcceptsIff(s, items, pathname);
  }

  /** On `/dashboard` a signed-in visitor whose stored role is known goes to that
      role's page, and one whose role is unknown or missing stays. */
  lemma DashboardRedirect(s: LayoutState, items: map<string, string>)
    requires StoredUser(items).Some?
    ensures var role := Lookup(StoredUser(items).value, "role");
      Guard(s, items, "/dashboard").1 == if role.Some? then RoleRoute(role.value) else None
  {
    GuardAcceptsIff(s, items, "/dashboard");
  }

  /** After logging out the guard sends the visitor to `/login` again. */
  lemma LogoutThenGuard(s: LayoutState, items: map<string, string>, pathname: string)
    ensures Guard(s, SignedOut(items), pathname) == (s, Some("/login"))
  {
  }

  /** From the initial state, a visit the guard rejects still renders only "Loading...". */
  lemma RejectedStaysLoading(items: map<string, string>, pathname: string)
    ensures var (s', nav) := Guard(InitialState, items, pathname);
      nav == Some("/login") ==> ViewOf(s') == Loading
  {
  }
}
