// The dashboard frame every page sits in: the sign-in callback that resolves
// the caller's role and creates a missing profile, the role-dependent menu,
// and the header title.
module Layout {
  import opened Common
  import opened Text
  import opened Records
  import opened Access

  /** The signed-in account as the authentication service reports it. */
  datatype AuthUser = AuthUser(uid: string, email: Option<string>, displayName: Option<string>)

  /** The role the frame settles on once the profile has been read: the
      document's role when it is truthy, "user" otherwise and when there is
      no document. */
  function ResolveRole(doc: Option<UserDoc>): (role: string)
    ensures doc.None? ==> role == "user"
    ensures doc.Some? ==> role == FieldOr(doc.value.role, "user")
    ensures role != ""
  {
    if doc.None? then "user" else FieldOr(doc.value.role, "user")
  }

  /** The name a created profile gets: the display name, else the part of
      the email before '@', else "User". */
  function ProfileName(u: AuthUser): (name: string)
    ensures name != ""
    ensures Present(u.displayName) ==> name == u.displayName.value
    ensures !Present(u.displayName) && u.email.Some? && Truthy(BeforeAt(u.email.value)) ==> name == BeforeAt(u.email.value)
    ensures !Present(u.displayName) && (u.email.None? || BeforeAt(u.email.value) == "") ==> name == "User"
    ensures '@' !in name || name == u.displayName.value
  {
    var fromEmail := if u.email.Some? then BeforeAt(u.email.value) else "";
    FieldOr(u.displayName, OrElse(fromEmail, "User"))
  }

  /** The profile written for a signed-in account that has none. */
  function NewProfile(u: AuthUser, now: nat): (doc: UserDoc)
    ensures doc.email == u.email && doc.name == ProfileName(u)
    ensures doc.role == Some("user") && doc.createdAt == now && doc.updatedAt.None?
  {
    UserDoc(u.email, ProfileName(u), "", "", Some("user"), now, None)
  }

  /** A lazily created profile never grants administrator access. */
  lemma NewProfileIsNotAdmin(u: AuthUser, users: map<string, UserDoc>, now: nat)
    ensures ResolveRole(Some(NewProfile(u, now))) == "user"
    ensures AdminGate(Some(u.uid), users[u.uid := NewProfile(u, now)]) == AccessDenied
  {
  }

  function IsAdmin(role: Option<string>): (admin: bool)
    ensures admin <==> role == Some("admin")
  {
    role.Some? && role.value == "admin"
  }

  /** The frame and the administrator pages agree on who is an
      administrator: with the profile read, the frame's role is "admin"
      exactly when the pages' gate lets the caller through. */
  lemma FrameAgreesWithGate(uid: string, users: map<string, UserDoc>)
    ensures IsAdmin(Some(ResolveRole(LookupUser(users, uid)))) <==> AdminGate(Some(uid), users) == Granted
  {
  }

  /** A sidebar entry: target path and caption. */
  datatype MenuEntry = MenuEntry(path: string, caption: string)

  const UserMenu := [
    MenuEntry("/dashboard", "Dashboard"),
    MenuEntry("/dashboard/create-shipment", "Create Shipment"),
    MenuEntry("/dashboard/shipments", "My Shipments"),
    MenuEntry("/dashboard/tracking", "Track Shipments"),
    MenuEntry("/dashboard/profile", "Profile")]

  const AdminMenu := [
    MenuEntry("/dashboard/admin/shipments", "Manage Shipments"),
    MenuEntry("/dashboard/admin/drivers", "Manage Drivers")]

  /** The sidebar: the five entries every caller sees, then the two
      management entries for administrators only. */
  function Menu(isAdmin: bool): (entries: seq<MenuEntry>)
    ensures |entries| == (if isAdmin then 7 else 5)
    ensures entries[..5] == UserMenu
    ensures forall e :: e in AdminMenu ==> (e in entries <==> isAdmin)
  {
    if isAdmin then UserMenu + AdminMenu else UserMenu
  }

  /** The header title for a path; "" for a path outside the seven pages. */
  function HeaderTitle(path: string): (title: string)
    ensures title != "" <==> exists e :: e in UserMenu + AdminMenu && e.path == path
  {
    if path == "/dashboard" then "Dashboard"
    else if path == "/dashboard/create-shipment" then "Create Shipment"
    else if path == "/dashboard/shipments" then "My Shipments"
    else if path == "/dashboard/tracking" then "Track Shipments"
    else if path == "/dashboard/profile" then "Profile"
    else if path == "/dashboard/admin/shipments" then "Manage Shipments"
    else if path == "/dashboard/admin/drivers" then "Manage Drivers"
    else ""
  }

  /** Following a sidebar entry shows the entry's caption as the title. */
  lemma TitleMatchesMenu(isAdmin: bool)
    ensures forall e :: e in Menu(isAdmin) ==> HeaderTitle(e.path) == e.caption
  {
    var all := UserMenu + AdminMenu;
    forall k | 0 <= k < |all| ensures HeaderTitle(all[k].path) == all[k].caption {
      if k < 5 {
        assert all[k] == UserMenu[k];
      } else {
        assert all[k] == AdminMenu[k - 5];
      }
    }
    assert forall e :: e in Menu(isAdmin) ==> e in all;
  }

  /** The caption under the account name in the sidebar footer. */
  function RoleCaption(isAdmin: bool): (caption: string)
    ensures isAdmin <==> caption == "Administrator"
    ensures !isAdmin <==> caption == "User"
  {
    if isAdmin then "Administrator" else "User"
  }

  class DashboardFrame {
    /** The `users` collection, by uid. */
    var users: map<string, UserDoc>
    var user: Option<AuthUser>
    var role: Option<string>
    var loading: bool
    var redirectedToLogin: bool

    constructor (users: map<string, UserDoc>)
      ensures this.users == users && user.None? && role.None? && loading && !redirectedToLogin
    {
      this.users := users;
      user, role, loading, redirectedToLogin := None, None, true, false;
    }

    /** The sign-in callback. `current` is the account or none; `readFails`
        and `writeFails` are failed reads of the profile and failed writes
        of a new one; `now` is the clock. */
    method OnAuthStateChanged(current: Option<AuthUser>, readFails: bool, writeFails: bool, now: nat)
      modifies this
      ensures current.None? ==> redirectedToLogin && user == old(user) && role == old(role)
                                && loading == old(loading) && users == old(users)
      ensures current.Some? ==> user == current && !loading && redirectedToLogin == old(redirectedToLogin)
      ensures current.Some? && readFails ==> role == Some("user") && users == old(users)
      ensures current.Some? && !readFails ==>
                role == Some(ResolveRole(LookupUser(old(users), current.value.uid)))
      ensures current.Some? && !readFails && current.value.uid !in old(users) && !writeFails ==>
                users == old(users)[current.value.uid := NewProfile(current.value, now)]
      ensures current.Some? && (readFails || current.value.uid in old(users) || writeFails) ==>
                users == old(users)
    {
      if current.None? {
        redirectedToLogin := true;
        return;
      }
      var u := current.value;
      user := current;
      role := Some("user");
      if !readFails {
        if u.uid in users {
          role := Some(FieldOr(users[u.uid].role, "user"));
        } else if !writeFails {
          users := users[u.uid := NewProfile(u, now)];
        }
      }
      loading := false;
    }
  }
}
