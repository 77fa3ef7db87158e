/** The login form: picking a role fills in that role's demo credentials, and
    submitting checks them, stores the signed-in user in `localStorage` and
    navigates to the role's dashboard. The one-second delays are not modelled;
    `router.push` is the returned navigation target. */
module LoginPage {
  import opened Prelude
  import opened Json
  import opened LocalStorage

  /** An entry of `roleCredentials` (the icon left out). */
  datatype Credentials = Credentials(username: string, password: string, dashboard: string, name: string)

  /** The keys of `roleCredentials`. */
  predicate IsCredentialRole(role: string) {
    role == "creative" || role == "manager" || role == "social" || role == "finance"
  }

  /** `roleCredentials[role]`: each role's username and password are the role
      itself and its dashboard is `/dashboard/<role>`. */
  function RoleCredentials(role: string): (r: Option<Credentials>)
    ensures r.Some? <==> IsCredentialRole(role)
    ensures r.Some? ==> r.value.username == role && r.value.password == role
    ensures r.Some? ==> r.value.dashboard == "/dashboard/" + role
  {
    if role == "creative" then Some(Credentials("creative", "creative", "/dashboard/creative", "Creative Team"))
    else if role == "manager" then Some(Credentials("manager", "manager", "/dashboard/manager", "Project Manager"))
    else if role == "social" then Some(Credentials("social", "social", "/dashboard/social", "Social Media Manager"))
    else if role == "finance" then Some(Credentials("finance", "finance", "/dashboard/finance", "Finance Team"))
    else None
  }

  /** The object written under `user`: name, e-mail address and role, in that order. */
  function UserRecord(c: Credentials, role: string): JsonDoc {
    JObject([("name", c.name), ("email", c.username + "@thegoatmedia.com"), ("role", role)])
  }

  /** The store after a successful sign-in. */
  function SignedIn(items: map<string, string>, c: Credentials, role: string): (r: map<string, string>)
    ensures r.Keys == items.Keys + {"isAuthenticated", "user"}
    ensures r["isAuthenticated"] == "true"
    ensures Parse(r["user"]) == Some(UserRecord(c, role))
    ensures forall k :: k in items && k != "isAuthenticated" && k != "user" ==> r[k] == items[k]
  {
    ParseStringify(UserRecord(c, role));
    items["isAuthenticated" := "true"]["user" := Stringify(UserRecord(c, role))]
  }

  /** What a submit leaves behind: the error text, the store, and where it navigates. */
  datatype SubmitOutcome = SubmitOutcome(error: string, items: map<string, string>, navigation: Option<string>)

  /** `handleSubmit` as a function of the form fields and the store. A role that
      is neither empty nor a key of `roleCredentials` makes the source read a
      property of `undefined`, so it is excluded. */
  function SubmitSpec(role: string, username: string, password: string, items: map<string, string>): (r: SubmitOutcome)
    requires role == "" || IsCredentialRole(role)
    ensures r.navigation.None? ==> r.items == items && r.error != ""
    ensures r.navigation.Some? ==> r.error == "" && r.navigation == Some("/dashboard/" + role)
  {
    if role == "" then SubmitOutcome("Please select a role first", items, None)
    else
      var c := RoleCredentials(role).value;
      if username == c.username && password == c.password then
        SubmitOutcome("", SignedIn(items, c, role), Some(c.dashboard))
      else SubmitOutcome("Invalid credentials for selected role", items, None)
  }

  /** The form state and the store it writes. */
  class LoginForm {
    var selectedRole: string
    var username: string
    var password: string
    var isLoading: bool
    var error: string
    const storage: Storage

    constructor (storage: Storage)
      ensures selectedRole == "" && username == "" && password == ""
      ensures !isLoading && error == ""
      ensures this.storage == storage
    {
      selectedRole := "";
      username := "";
      password := "";
      isLoading := false;
      error := "";
      this.storage := storage;
    }

    /** `handleRoleSelection`: a known role also fills in its credentials. */
    method SelectRole(role: string)
      modifies this
      ensures selectedRole == role
      ensures IsCredentialRole(role) ==> username == role && password == role
      ensures !IsCredentialRole(role) ==> username == old(username) && password == old(password)
      ensures isLoading == old(isLoading) && error == old(error)
    {
      selectedRole := role;
      var credentials := RoleCredentials(role);
      if role != "" && credentials.Some? {
        username := credentials.value.username;
        password := credentials.value.password;
      }
    }

    /** The username field's `onChange`. */
    method EditUsername(value: string)
      modifies this
      ensures username == value
      ensures selectedRole == old(selectedRole) && password == old(password)
      ensures isLoading == old(isLoading) && error == old(error)
    {
      username := value;
    }

    /** The password field's `onChange`. */
    method EditPassword(value: string)
      modifies this
      ensures password == value
      ensures selectedRole == old(selectedRole) && username == old(username)
      ensures isLoading == old(isLoading) && error == old(error)
    {
      password := value;
    }

    /** `handleSubmit`: clears the error, validates, writes the store on success,
        and always ends with `isLoading` false. */
    method Submit() returns (navigation: Option<string>)
      requires selectedRole == "" || IsCredentialRole(selectedRole)
      modifies this, storage
      ensures var outcome := SubmitSpec(old(selectedRole), old(username), old(password), old(storage.items));
        error == outcome.error && storage.items == outcome.items && navigation == outcome.navigation
      ensures !isLoading
      ensures selectedRole == old(selectedRole) && username == old(username) && password == old(password)
    {
      isLoading := true;
      error := "";
      if selectedRole == "" {
        error := "Please select a role first";
        isLoading := false;
        return None;
      }
      var credentials := RoleCredentials(selectedRole).value;
      if username == credentials.username && password == credentials.password {
        storage.SetItem("isAuthenticated", "true");
        storage.SetItem("user", Stringify(UserRecord(credentials, selectedRole)));
        navigation := Some(credentials.dashboard);
      } else {
        error := "Invalid credentials for selected role";
        navigation := None;
      }
      isLoading := false;
    }
  }

  /** Submitting without a role sets the error, writes nothing and stays. */
  lemma EmptyRoleRejected(username: string, password: string, items: map<string, string>)
    ensures SubmitSpec("", username, password, items) == SubmitOutcome("Please select a role first", items, None)
  {
  }

  /** A submit navigates exactly when a role is chosen and both fields equal it;
      it then goes to `/dashboard/<role>` with the error cleared. */
  lemma SubmitSucceedsIff(role: string, username: string, password: string, items: map<string, string>)
    requires role == "" || IsCredentialRole(role)
    ensures var o := SubmitSpec(role, username, password, items);
      && (o.navigation.Some? <==> role != "" && username == role && password == role)
      && (o.navigation.Some? ==> o.navigation.value == "/dashboard/" + role && o.error == "")
  {
  }

  /** A submit that does not navigate leaves the store as it was and says why. */
  lemma FailedSubmitKeepsStore(role: string, username: string, password: string, items: map<string, string>)
    requires role == "" || IsCredentialRole(role)
    ensures var o := SubmitSpec(role, username, password, items);
      o.navigation.None? ==>
        && o.items == items
        && (o.error == "Please select a role first" <==> role == "")
        && (o.error == "Invalid credentials for selected role" <==> role != "")
  {
  }

  /** A successful submit stores `isAuthenticated = "true"` and a `user` that reads
      back as the role's name, `<username>@thegoatmedia.com` and the role. */
  lemma SuccessStoresUser(role: string, items: map<string, string>)
    requires IsCredentialRole(role)
    ensures var o := SubmitSpec(role, role, role, items);
      && Get(o.items, "isAuthenticated") == Some("true")
      && Parse(o.items["user"]) == Some(JObject([("name", RoleCredentials(role).value.name),
                                                 ("email", role + "@thegoatmedia.com"),
                                                 ("role", role)]))
  {
  }

  /** Picking a known role and submitting right away always signs in. */
  lemma SelectedRoleSignsIn(role: string, items: map<string, string>)
    requires IsCredentialRole(role)
    ensures SubmitSpec(role, role, role, items).navigation == Some("/dashboard/" + role)
  {
  }
}
