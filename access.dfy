// The role gate both administrator pages run before loading anything: the
// caller's `users` document is read, a missing document counts as role
// "user", and only the exact role "admin" is let through.
module Access {
  import opened Common
  import opened Records

  /** How the gate ends: the login redirect, a denial (redirect to the
      dashboard), access, or a failed read of the caller's profile, which
      only shows a toast and loads nothing. */
  datatype Gate = RedirectToLogin | AccessDenied | Granted | ProfileUnreadable

  /** The role the administrator pages read: the document's `role`, or
      "user" when there is no document. A document without a role field
      has no role at all, which is not "admin" either. */
  function PageRole(doc: Option<UserDoc>): (role: Option<string>)
    ensures doc.None? ==> role == Some("user")
    ensures doc.Some? ==> role == doc.value.role
  {
    if doc.None? then Some("user") else doc.value.role
  }

  function LookupUser(users: map<string, UserDoc>, uid: string): (doc: Option<UserDoc>)
    ensures doc.Some? <==> uid in users
    ensures doc.Some? ==> doc.value == users[uid]
  {
    if uid in users then Some(users[uid]) else None
  }

  /** No signed-in user: go to the login page. Otherwise anything but role
      "admin" is denied, before any shipment or driver is loaded. */
  function AdminGate(user: Option<string>, users: map<string, UserDoc>): (g: Gate)
    ensures g == RedirectToLogin <==> user.None?
    ensures g == Granted <==> user.Some? && user.value in users && users[user.value].role == Some("admin")
    ensures user.Some? && user.value !in users ==> g == AccessDenied
    ensures user.Some? && !(user.value in users && users[user.value].role == Some("admin")) ==> g == AccessDenied
  {
    if user.None? then RedirectToLogin
    else if PageRole(LookupUser(users, user.value)) == Some("admin") then Granted
    else AccessDenied
  }

  /** The gate as a page runs it: reading the caller's profile can itself
      fail (`profileReadFails`), which the pages catch without redirecting. */
  function PageGate(user: Option<string>, users: map<string, UserDoc>, profileReadFails: bool): (g: Gate)
    ensures g == ProfileUnreadable <==> user.Some? && profileReadFails
    ensures !(user.Some? && profileReadFails) ==> g == AdminGate(user, users)
  {
    if user.Some? && profileReadFails then ProfileUnreadable else AdminGate(user, users)
  }
}
