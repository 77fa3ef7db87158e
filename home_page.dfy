/** The landing page's redirect: a visitor whose store says they are signed in,
    with a stored user whose role has a dashboard, is sent straight to it. Every
    other visitor stays on the landing page (a `user` that does not parse, or
    parses to `null`, is caught and ignored). */
module HomePage {
  import opened Prelude
  import opened Json
  import opened LocalStorage

  /** The landing page's own `roleRoutes`. */
  function HomeRoleRoute(role: string): (r: Option<string>)
    ensures r.Some? <==> role in {"creative", "manager", "social", "finance"}
    ensures r.Some? ==> r.value == "/dashboard/" + role
  {
    if role == "creative" then Some("/dashboard/creative")
    else if role == "manager" then Some("/dashboard/manager")
    else if role == "social" then Some("/dashboard/social")
    else if role == "finance" then Some("/dashboard/finance")
    else None
  }

  /** The `useEffect` decision: where `router.push` goes, if it is called. */
  function HomeRedirect(items: map<string, string>): (r: Option<string>)
    ensures r.Some? ==> Get(items, "isAuthenticated") == Some("true") && "user" in items && items["user"] != ""
    ensures r.Some? ==> r.value in {"/dashboard/creative", "/dashboard/manager", "/dashboard/social", "/dashboard/finance"}
  {
    if Get(items, "isAuthenticated") == Some("true") then
      var userData := Get(items, "user");
      if userData.Some? && userData.value != "" then
        match Parse(userData.value)
        case Some(JObject(ms)) =>
          var role := Lookup(ms, "role");
          if role.Some? then HomeRoleRoute(role.value) else None
        case _ => None
      else None
    else None
  }

  /** No redirect unless `isAuthenticated` is exactly `"true"`. */
  lemma NoRedirectUnlessAuthenticated(items: map<string, string>)
    requires Get(items, "isAuthenticated") != Some("true")
    ensures HomeRedirect(items) == None
  {
  }

  /** No redirect when no user is stored. */
  lemma NoRedirectWithoutUser(items: map<string, string>)
    requires "user" !in items
    ensures HomeRedirect(items) == None
  {
  }

  /** The landing page redirects exactly when the store says signed in, the stored
      user is a JSON object, and its role is one of the four; the target is
      `/dashboard/<role>`. */
  lemma RedirectIff(items: map<string, string>)
    ensures HomeRedirect(items).Some? <==>
      && Get(items, "isAuthenticated") == Some("true")
      && "user" in items
      && Parse(items["user"]).Some? && Parse(items["user"]).value.JObject?
      && Lookup(Parse(items["user"]).value.members, "role").Some?
      && Lookup(Parse(items["user"]).value.members, "role").value in {"creative", "manager", "social", "finance"}
    ensures HomeRedirect(items).Some? ==>
      HomeRedirect(items).value == "/dashboard/" + Lookup(Parse(items["user"]).value.members, "role").value
  {
    if "user" in items && items["user"] == "" {
      assert Parse("") == None;
    }
  }
}
