// The profile page: loading the caller's profile into the form, saving the
// name, phone and address, changing the email, and the ordered checks of a
// password change.
module Profile {
  import opened Common
  import opened Records

  const NotAuthenticated := "User not authenticated"
  const Mismatch := "New passwords do not match"
  const TooShort := "Password must be at least 6 characters long"
  const ProfileFailed := "Failed to update profile. Please try again."
  const EmailFailed := "Failed to update email. Please try again."
  const PasswordFailed := "Failed to update password. Please try again."
  const MinPasswordLength := 6

  datatype ProfileForm = ProfileForm(
    name: string,
    phone: string,
    address: string,
    email: string,
    currentPassword: string,
    newPassword: string,
    confirmPassword: string)

  const EmptyForm := ProfileForm("", "", "", "", "", "", "")

  /** A signed-in account of the authentication service. */
  datatype Account = Account(email: Option<string>, password: string)

  /** The form filled from a stored profile: missing values read as "",
      the email comes from the account, the password fields start empty. */
  function FormFrom(doc: UserDoc, email: Option<string>): (f: ProfileForm)
    ensures f.name == doc.name && f.phone == doc.phone && f.address == doc.address
    ensures f.email == FieldOr(email, "")
    ensures f.currentPassword == "" && f.newPassword == "" && f.confirmPassword == ""
  {
    ProfileForm(OrElse(doc.name, ""), OrElse(doc.phone, ""), OrElse(doc.address, ""),
                FieldOr(email, ""), "", "", "")
  }

  /** The page's copy of the profile, as a record of named fields. */
  function DocFields(doc: UserDoc): (m: map<string, string>)
    ensures "name" in m && "phone" in m && "address" in m
    ensures m["name"] == doc.name && m["phone"] == doc.phone && m["address"] == doc.address
    ensures "email" in m <==> doc.email.Some?
    ensures "role" in m <==> doc.role.Some?
  {
    var base := map["name" := doc.name, "phone" := doc.phone, "address" := doc.address];
    var withEmail := if doc.email.Some? then base["email" := doc.email.value] else base;
    if doc.role.Some? then withEmail["role" := doc.role.value] else withEmail
  }

  /** `{ ...prev, name, phone, address }`: the three fields take the form's
      values, every other field of the previous copy is kept. */
  function MergeProfile(prev: Option<map<string, string>>, form: ProfileForm): (m: map<string, string>)
    ensures "name" in m && "phone" in m && "address" in m
    ensures m["name"] == form.name && m["phone"] == form.phone && m["address"] == form.address
    ensures forall k :: k !in {"name", "phone", "address"} ==>
              (k in m <==> prev.Some? && k in prev.value) && (k in m ==> m[k] == prev.value[k])
  {
    var base := if prev.Some? then prev.value else map[];
    base["name" := form.name]["phone" := form.phone]["address" := form.address]
  }

  /** The stored profile after a save: name, phone and address from the
      form, `updatedAt` set, everything else kept. */
  function SavedDoc(doc: UserDoc, form: ProfileForm, now: nat): (d: UserDoc)
    ensures d.name == form.name && d.phone == form.phone && d.address == form.address
    ensures d.updatedAt == Some(now)
    ensures d.email == doc.email && d.role == doc.role && d.createdAt == doc.createdAt
  {
    doc.(name := form.name, phone := form.phone, address := form.address, updatedAt := Some(now))
  }

  /** The page's copy and the store agree on the three saved fields. */
  lemma SaveAgrees(doc: UserDoc, prev: Option<map<string, string>>, form: ProfileForm, now: nat)
    ensures var m := MergeProfile(prev, form);
            var d := SavedDoc(doc, form, now);
            "name" in m && "phone" in m && "address" in m && m["name"] == d.name && m["phone"] == d.phone && m["address"] == d.address
  {
  }

  /** The checks of a password change, in the order the page makes them:
      a signed-in account, then equal new and confirmed passwords, then the
      minimum length. None when every check passes. */
  function ValidatePassword(signedIn: bool, form: ProfileForm): (err: Option<string>)
    ensures !signedIn ==> err == Some(NotAuthenticated)
    ensures signedIn && form.newPassword != form.confirmPassword ==> err == Some(Mismatch)
    ensures signedIn && form.newPassword == form.confirmPassword && |form.newPassword| < MinPasswordLength ==>
              err == Some(TooShort)
    ensures err.None? <==> signedIn && form.newPassword == form.confirmPassword && |form.newPassword| >= MinPasswordLength
  {
    if !signedIn then Some(NotAuthenticated)
    else if form.newPassword != form.confirmPassword then Some(Mismatch)
    else if |form.newPassword| < MinPasswordLength then Some(TooShort)
    else None
  }

  /** The mismatch is reported even for a password that is also too short:
      the length is looked at only once the two entries agree. */
  lemma MismatchComesFirst(form: ProfileForm)
    requires form.newPassword != form.confirmPassword
    ensures ValidatePassword(true, form) == Some(Mismatch)
    ensures ValidatePassword(true, form.(confirmPassword := form.newPassword)) ==
              (if |form.newPassword| < MinPasswordLength then Some(TooShort) else None)
  {
  }

  /** The password form after a change: the three password fields emptied,
      the rest kept. */
  function ClearPasswords(form: ProfileForm): (f: ProfileForm)
    ensures f.currentPassword == "" && f.newPassword == "" && f.confirmPassword == ""
    ensures f.name == form.name && f.phone == form.phone && f.address == form.address && f.email == form.email
    ensures ValidatePassword(true, f) == Some(TooShort)
  {
    form.(currentPassword := "", newPassword := "", confirmPassword := "")
  }

  /** "Update Password" is live only while not saving and with all three
      password fields filled. */
  function PasswordSubmitEnabled(updating: bool, form: ProfileForm): (enabled: bool)
    ensures enabled <==> !updating && form.currentPassword != "" && form.newPassword != "" && form.confirmPassword != ""
  {
    !(updating || !Truthy(form.currentPassword) || !Truthy(form.newPassword) || !Truthy(form.confirmPassword))
  }

  /** After a successful change the button is disabled again. */
  lemma ClearedFormDisablesSubmit(updating: bool, form: ProfileForm)
    ensures !PasswordSubmitEnabled(updating, ClearPasswords(form))
  {
  }

  datatype Outcome = Done | Failed(message: string)

  class ProfilePage {
    /** The `users` collection, by uid. */
    var users: map<string, UserDoc>
    /** The authentication service's accounts, by uid. */
    var accounts: map<string, Account>
    var userData: Option<map<string, string>>
    var form: ProfileForm
    var loading: bool
    var updating: bool

    constructor (users: map<string, UserDoc>, accounts: map<string, Account>)
      ensures this.users == users && this.accounts == accounts
      ensures userData.None? && form == EmptyForm && loading && !updating
    {
      this.users, this.accounts := users, accounts;
      userData, form, loading, updating := None, EmptyForm, true, false;
    }

    /** The page load; without a signed-in user nothing happens and the page
        keeps loading. Without a stored profile, or when the read rejects
        (`readFails`), the form stays as it was. */
    method FetchUserData(user: Option<string>, readFails: bool)
      modifies this`userData, this`form, this`loading
      ensures user.None? ==> userData == old(userData) && form == old(form) && loading == old(loading)
      ensures user.Some? ==> !loading
      ensures user.Some? && !readFails && user.value in users ==>
                && userData == Some(DocFields(users[user.value]))
                && form == FormFrom(users[user.value], if user.value in accounts then accounts[user.value].email else None)
      ensures user.Some? && (readFails || user.value !in users) ==> userData == old(userData) && form == old(form)
    {
      if user.None? {
        return;
      }
      var uid := user.value;
      if !readFails && uid in users {
        var doc := users[uid];
        userData := Some(DocFields(doc));
        form := FormFrom(doc, if uid in accounts then accounts[uid].email else None);
      }
      loading := false;
    }

    /** Save profile. The store refuses an update of a missing profile;
        `writeFault` is any other rejection of the write, with its message. */
    method UpdateProfile(user: Option<string>, now: nat, writeFault: Option<string>) returns (outcome: Outcome)
      modifies this`users, this`userData, this`updating
      ensures !updating
      ensures user.None? ==> outcome == Failed(NotAuthenticated)
      ensures user.Some? && user.value in old(users) && writeFault.Some? ==>
                outcome == Failed(FieldOr(writeFault, ProfileFailed)) && outcome.message != ""
      ensures outcome.Failed? ==> users == old(users) && userData == old(userData)
      ensures outcome == Done <==> user.Some? && user.value in old(users) && writeFault.None?
      ensures outcome == Done ==>
                && users == old(users)[user.value := SavedDoc(old(users)[user.value], form, now)]
                && userData == Some(MergeProfile(old(userData), form))
    {
      updating := true;
      if user.None? {
        updating := false;
        return Failed(NotAuthenticated);
      }
      var uid := user.value;
      if uid !in users {
        updating := false;
        return Failed("No document to update");
      }
      if writeFault.Some? {
        updating := false;
        return Failed(FieldOr(writeFault, ProfileFailed));
      }
      users := users[uid := SavedDoc(users[uid], form, now)];
      userData := Some(MergeProfile(userData, form));
      updating := false;
      outcome := Done;
    }

    /** Change email; `authError` is the authentication service refusing
        the change (with its message). */
    method UpdateEmailAddress(user: Option<string>, authError: Option<string>) returns (outcome: Outcome)
      requires user.Some? ==> user.value in accounts
      modifies this`accounts, this`updating
      ensures !updating
      ensures user.None? ==> outcome == Failed(NotAuthenticated)
      ensures user.Some? && authError.Some? ==>
                outcome == Failed(FieldOr(authError, EmailFailed)) && outcome.message != ""
      ensures outcome == Done <==> user.Some? && authError.None?
      ensures outcome.Failed? ==> accounts == old(accounts)
      ensures outcome == Done ==>
                accounts == old(accounts)[user.value := old(accounts)[user.value].(email := Some(form.email))]
    {
      updating := true;
      if user.None? {
        updating := false;
        return Failed(NotAuthenticated);
      }
      var uid := user.value;
      if authError.Some? {
        updating := false;
        return Failed(FieldOr(authError, EmailFailed));
      }
      accounts := accounts[uid := accounts[uid].(email := Some(form.email))];
      updating := false;
      outcome := Done;
    }

    /** Change password: the checks in order, then the authentication
        service (`authError` is its refusal), then the password fields are
        cleared. A failure leaves the form as it was. */
    method UpdateUserPassword(user: Option<string>, authError: Option<string>) returns (outcome: Outcome)
      requires user.Some? ==> user.value in accounts
      modifies this`accounts, this`form, this`updating
      ensures !updating
      ensures ValidatePassword(user.Some?, old(form)).Some? ==>
                outcome == Failed(ValidatePassword(user.Some?, old(form)).value)
      ensures ValidatePassword(user.Some?, old(form)).None? && authError.Some? ==>
                outcome == Failed(FieldOr(authError, PasswordFailed)) && outcome.message != ""
      ensures outcome == Done <==> ValidatePassword(user.Some?, old(form)).None? && authError.None?
      ensures outcome.Failed? ==> accounts == old(accounts) && form == old(form)
      ensures outcome == Done ==>
                && accounts == old(accounts)[user.value := old(accounts)[user.value].(password := old(form).newPassword)]
                && form == ClearPasswords(old(form))
                && |accounts[user.value].password| >= MinPasswordLength
    {
      updating := true;
      var err := ValidatePassword(user.Some?, form);
      if err.Some? {
        updating := false;
        return Failed(err.value);
      }
      if authError.Some? {
        updating := false;
        return Failed(FieldOr(authError, PasswordFailed));
      }
      var uid := user.value;
      accounts := accounts[uid := accounts[uid].(password := form.newPassword)];
      form := ClearPasswords(form);
      updating := false;
      outcome := Done;
    }
  }
}
