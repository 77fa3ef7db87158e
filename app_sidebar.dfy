/** The dashboard sidebar: the navigation and user card chosen by role, and the
    header label. Icons and layout are presentation and left out. */
module AppSidebar {
  import opened Prelude

  datatype NavItem = NavItem(title: string, url: string)
  datatype SidebarUser = SidebarUser(name: string, email: string, avatar: string)
  datatype RoleData = RoleData(user: SidebarUser, navSecondary: seq<NavItem>, navMain: seq<NavItem>)

  /** `baseData`: the default user card and the one secondary item. */
  const BaseUser := SidebarUser("User", "user@thegoatmedia.com", "/avatars/user.jpg")
  const NavSecondary := [NavItem("Settings", "/dashboard/settings")]

  predicate IsSidebarRole(role: string) {
    role == "creative" || role == "manager" || role == "social" || role == "finance"
  }

  /** A known role's card: its name and `<role>@thegoatmedia.com`. */
  function RoleUser(name: string, role: string): SidebarUser {
    BaseUser.(name := name, email := role + "@thegoatmedia.com")
  }

  /** `/dashboard/<role>`, the root of a role's pages. */
  function RoleRoot(role: string): string {
    "/dashboard/" + role
  }

  /** A role's main navigation under `root`: its dashboard, then one item per
      `(title, page)` at `<root>/<page>`. */
  function RoleNav(root: string, pages: seq<(string, string)>): (nav: seq<NavItem>)
    ensures |nav| == |pages| + 1
    ensures nav[0] == NavItem("Dashboard", root)
    ensures forall i :: 0 <= i < |pages| ==> nav[i + 1] == NavItem(pages[i].0, root + "/" + pages[i].1)
  {
    [NavItem("Dashboard", root)]
      + seq(|pages|, i requires 0 <= i < |pages| => NavItem(pages[i].0, root + "/" + pages[i].1))
  }

  const CreativePages := [("My Scripts", "scripts"), ("Shoot Schedule", "schedule"), ("Editing Queue", "editing"),
                          ("Time Tracking", "time"), ("Client Feedback", "feedback")]
  const ManagerPages := [("Project Overview", "projects"), ("Team Management", "team"), ("Resource Allocation", "resources"),
                         ("Client Projects", "clients"), ("Timeline Management", "timeline")]
  const SocialPages := [("Publishing Calendar", "calendar"), ("Content Creation", "content"), ("Analytics", "analytics"),
                        ("Hashtag Management", "hashtags"), ("Platform Performance", "platforms")]
  const FinancePages := [("Budget Management", "budgets"), ("Invoice Management", "invoices"), ("Financial Reports", "reports"),
                         ("Cost Analysis", "costs"), ("Client Accounts", "clients")]

  /** `getRoleData(role)`. */
  function GetRoleData(role: string): (r: RoleData)
    ensures r.navSecondary == NavSecondary && r.user.avatar == BaseUser.avatar
    ensures IsSidebarRole(role) ==> |r.navMain| == 6 && r.navMain[0] == NavItem("Dashboard", RoleRoot(role))
    ensures !IsSidebarRole(role) ==> r == RoleData(BaseUser, NavSecondary, [NavItem("Dashboard", "/dashboard")])
  {
    if role == "creative" then
      RoleData(RoleUser("Creative Team Member", "creative"), NavSecondary,
               RoleNav(RoleRoot("creative"), CreativePages))
    else if role == "manager" then
      RoleData(RoleUser("Project Manager", "manager"), NavSecondary,
               RoleNav(RoleRoot("manager"), ManagerPages))
    else if role == "social" then
      RoleData(RoleUser("Social Media Manager", "social"), NavSecondary,
               RoleNav(RoleRoot("social"), SocialPages))
    else if role == "finance" then
      RoleData(RoleUser("Finance Team Member", "finance"), NavSecondary,
               RoleNav(RoleRoot("finance"), FinancePages))
    else
      RoleData(BaseUser, NavSecondary, [NavItem("Dashboard", "/dashboard")])
  }

  /** What `AppSidebar` shows for the layout's `userRole` (`userRole || ""`). */
  function SidebarData(userRole: Option<string>): (r: RoleData)
    ensures userRole.None? ==> r.user == BaseUser && r.navMain == [NavItem("Dashboard", "/dashboard")]
    ensures userRole.Some? && IsSidebarRole(userRole.value) ==>
      |r.navMain| == 6 && r.navMain[0] == NavItem("Dashboard", RoleRoot(userRole.value))
  {
    GetRoleData(if userRole.Some? then userRole.value else "")
  }

  /** `toUpperCase` on one character, for the ASCII letters. */
  function UpperAscii(c: char): (u: char)
    ensures 'a' <= c <= 'z' ==> u as int == c as int - 32
    ensures !('a' <= c <= 'z') ==> u == c
  {
    if 'a' <= c <= 'z' then (c as int - 32) as char else c
  }

  /** The header's second line: the role with its first letter capitalised, then
      " Dashboard"; "Employee Dashboard" when the role is undefined or empty. */
  function HeaderLabel(userRole: Option<string>): (text: string)
    ensures userRole.None? || userRole.value == "" ==> text == "Employee Dashboard"
    ensures userRole.Some? && userRole.value != "" ==>
      && |text| == |userRole.value| + |" Dashboard"|
      && text[0] == UpperAscii(userRole.value[0])
      && text[1..|userRole.value|] == userRole.value[1..]
      && text[|userRole.value|..] == " Dashboard"
  {
    if userRole.None? || userRole.value == "" then "Employee Dashboard"
    else
      var r := userRole.value;
      [UpperAscii(r[0])] + r[1..] + " Dashboard"
  }

  /** The shape every known role's sidebar has: six main items, the first its own
      dashboard, every url under `/dashboard/<role>` and no url twice, and a card
      carrying `<role>@thegoatmedia.com`. */
  predicate RoleSidebar(role: string, d: RoleData) {
    && |d.navMain| == 6
    && d.navMain[0] == NavItem("Dashboard", RoleRoot(role))
    && (forall i :: 0 <= i < |d.navMain| ==> IsPrefix(RoleRoot(role), d.navMain[i].url))
    && (forall i, j :: 0 <= i < j < |d.navMain| ==> d.navMain[i].url != d.navMain[j].url)
    && d.user.email == role + "@thegoatmedia.com"
  }

  /** Page names with no two alike. */
  predicate DistinctPages(pages: seq<(string, string)>) {
    forall i, j :: 0 <= i < j < |pages| ==> pages[i].1 != pages[j].1
  }

  /** Every item of `RoleNav` lies under its root. */
  lemma RoleNavUnderRoot(root: string, pages: seq<(string, string)>)
    ensures forall i :: 0 <= i < |RoleNav(root, pages)| ==> IsPrefix(root, RoleNav(root, pages)[i].url)
  {
    var nav := RoleNav(root, pages);
    forall i | 0 <= i < |nav|
      ensures IsPrefix(root, nav[i].url)
    {
      if i > 0 {
        assert nav[i].url == root + ("/" + pages[i - 1].1);
      }
    }
  }

  /** The url of a page item, once more as its root and its own tail. */
  lemma PageUrl(root: string, pages: seq<(string, string)>, i: nat)
    requires i < |pages|
    ensures RoleNav(root, pages)[i + 1].url == root + ("/" + pages[i].1)
    ensures RoleNav(root, pages)[i + 1].url[|root| + 1..] == pages[i].1
  {
    assert RoleNav(root, pages)[i + 1].url == root + ("/" + pages[i].1);
  }

  /** No page item has the dashboard's url. */
  lemma DashboardUrlDiffers(root: string, pages: seq<(string, string)>, j: nat)
    requires 0 < j <= |pages|
    ensures RoleNav(root, pages)[0].url != RoleNav(root, pages)[j].url
  {
    PageUrl(root, pages, j - 1);
  }

  /** Two page items with distinct page names have distinct urls. */
  lemma PageUrlsDiffer(root: string, pages: seq<(string, string)>, i: nat, j: nat)
    requires 0 < i < j <= |pages|
    requires pages[i - 1].1 != pages[j - 1].1
    ensures RoleNav(root, pages)[i].url != RoleNav(root, pages)[j].url
  {
    PageUrl(root, pages, i - 1);
    PageUrl(root, pages, j - 1);
  }

  /** Distinct page names give distinct urls. */
  lemma RoleNavDistinct(root: string, pages: seq<(string, string)>)
    requires DistinctPages(pages)
    ensures forall i, j :: 0 <= i < j < |RoleNav(root, pages)| ==> RoleNav(root, pages)[i].url != RoleNav(root, pages)[j].url
  {
    forall i, j | 0 <= i < j < |RoleNav(root, pages)|
      ensures RoleNav(root, pages)[i].url != RoleNav(root, pages)[j].url
    {
      if i == 0 {
        DashboardUrlDiffers(root, pages, j);
      } else {
        PageUrlsDiffer(root, pages, i, j);
      }
    }
  }

  lemma CreativePagesDistinct() ensures |CreativePages| == 5 && DistinctPages(CreativePages) { }
  lemma CreativeData()
    ensures GetRoleData("creative").navMain == RoleNav(RoleRoot("creative"), CreativePages)
    ensures GetRoleData("creative").user.email == "creative" + "@thegoatmedia.com"
  {
  }
  lemma ManagerPagesDistinct() ensures |ManagerPages| == 5 && DistinctPages(ManagerPages) { }
  lemma ManagerData()
    ensures GetRoleData("manager").navMain == RoleNav(RoleRoot("manager"), ManagerPages)
    ensures GetRoleData("manager").user.email == "manager" + "@thegoatmedia.com"
  {
  }
  lemma SocialPagesDistinct() ensures |SocialPages| == 5 && DistinctPages(SocialPages) { }
  lemma SocialData()
    ensures GetRoleData("social").navMain == RoleNav(RoleRoot("social"), SocialPages)
    ensures GetRoleData("social").user.email == "social" + "@thegoatmedia.com"
  {
  }
  lemma FinancePagesDistinct() ensures |FinancePages| == 5 && DistinctPages(FinancePages) { }
  lemma FinanceData()
    ensures GetRoleData("finance").navMain == RoleNav(RoleRoot("finance"), FinancePages)
    ensures GetRoleData("finance").user.email == "finance" + "@thegoatmedia.com"
  {
  }

  /** A sidebar built from five distinct pages under the role's root has the
      navigation `RoleSidebar` asks for. */
  lemma BuiltNavigation(role: string, pages: seq<(string, string)>, d: RoleData)
    requires |pages| == 5 && DistinctPages(pages)
    requires d.navMain == RoleNav(RoleRoot(role), pages)
    requires d.user.email == role + "@thegoatmedia.com"
    ensures RoleSidebar(role, d)
  {
    RoleNavUnderRoot(RoleRoot(role), pages);
    RoleNavDistinct(RoleRoot(role), pages);
  }

  lemma CreativeNavigation()
    ensures RoleSidebar("creative", GetRoleData("creative"))
  {
    CreativePagesDistinct();
    CreativeData();
    BuiltNavigation("creative", CreativePages, GetRoleData("creative"));
  }

  lemma ManagerNavigation()
    ensures RoleSidebar("manager", GetRoleData("manager"))
  {
    ManagerPagesDistinct();
    ManagerData();
    BuiltNavigation("manager", ManagerPages, GetRoleData("manager"));
  }

  lemma SocialNavigation()
    ensures RoleSidebar("social", GetRoleData("social"))
  {
    SocialPagesDistinct();
    SocialData();
    BuiltNavigation("social", SocialPages, GetRoleData("social"));
  }

  lemma FinanceNavigation()
    ensures RoleSidebar("finance", GetRoleData("finance"))
  {
    FinancePagesDistinct();
    FinanceData();
    BuiltNavigation("finance", FinancePages, GetRoleData("finance"));
  }

  /** Each known role gets its own six-item navigation. */
  lemma KnownRoleNavigation(role: string)
    requires IsSidebarRole(role)
    ensures RoleSidebar(role, GetRoleData(role))
  {
    if role == "creative" { CreativeNavigation(); }
    else if role == "manager" { ManagerNavigation(); }
    else if role == "social" { SocialNavigation(); }
    else { FinanceNavigation(); }
  }

  /** Any other role, the empty one included, gets the single `/dashboard` item and
      the default user card. */
  lemma OtherRoleNavigation(role: string)
    requires !IsSidebarRole(role)
    ensures GetRoleData(role) == RoleData(SidebarUser("User", "user@thegoatmedia.com", "/avatars/user.jpg"),
                                          [NavItem("Settings", "/dashboard/settings")],
                                          [NavItem("Dashboard", "/dashboard")])
  {
  }

  /** For every role the secondary navigation is the one Settings item and the
      avatar is the default one. */
  lemma SharedParts(role: string)
    ensures GetRoleData(role).navSecondary == [NavItem("Settings", "/dashboard/settings")]
    ensures GetRoleData(role).user.avatar == "/avatars/user.jpg"
  {
  }

  /** An undefined role is shown as the empty one. */
  lemma UndefinedRoleIsDefault()
    ensures SidebarData(None) == GetRoleData("")
    ensures |SidebarData(None).navMain| == 1
    ensures HeaderLabel(None) == HeaderLabel(Some("")) == "Employee Dashboard"
  {
  }

  /** The labels of the known roles. */
  lemma CreativeLabel()
    ensures HeaderLabel(Some("creative")) == "Creative Dashboard"
  {
  }

  lemma ManagerLabel()
    ensures HeaderLabel(Some("manager")) == "Manager Dashboard"
  {
  }

  lemma SocialLabel()
    ensures HeaderLabel(Some("social")) == "Social Dashboard"
  {
  }

  lemma FinanceLabel()
    ensures HeaderLabel(Some("finance")) == "Finance Dashboard"
  {
  }
}
