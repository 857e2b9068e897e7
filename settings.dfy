/**
 * The settings page (settings.js): the profile form and the password form
 * check their fields before anything is sent, and logging out removes the
 * token and the user record once the visitor confirms. The theme button is
 * `Theme.Switch`.
 */
module Settings {
  import opened Wrappers
  import opened Js
  import opened Text
  import Storage

  datatype Notice =
    | FillAllFields        // "Please fill in all fields."
    | PasswordsDiffer      // "New passwords do not match."
    | ProfileUpdated       // "Profile updated successfully!"
    | PasswordChanged      // "Password changed successfully!"
    | Refused(text: string)  // res.error, or the form's fallback text
    | NetworkError         // "Network error while ..."

  /** What the forms hand to the API. */
  datatype Request =
    | UpdateProfile(name: string, email: string)
    | ChangePassword(currentPassword: string, newPassword: string)

  /** The profile form: the trimmed name and e-mail must both be non-empty. */
  function CheckProfile(nameInput: string, emailInput: string): (r: Result<Request, Notice>)
    ensures r.Ok? <==> Trim(nameInput) != "" && Trim(emailInput) != ""
    ensures r.Ok? ==> r.value == UpdateProfile(Trim(nameInput), Trim(emailInput))
    ensures r.Err? ==> r.error == FillAllFields
  {
    var name := Trim(nameInput);
    var email := Trim(emailInput);
    if name == "" || email == "" then Err(FillAllFields) else Ok(UpdateProfile(name, email))
  }

  /** A name or e-mail made only of white space is refused like an empty one. */
  lemma BlankProfileRefused(nameInput: string, emailInput: string)
    requires forall k :: 0 <= k < |nameInput| ==> IsSpace(nameInput[k])
    ensures CheckProfile(nameInput, emailInput) == Err(FillAllFields)
  {
    TrimEmptyIff(nameInput);
  }

  /** A request built from the form carries the trimmed values, which a second trim leaves alone. */
  lemma ProfileRequestTrimmed(nameInput: string, emailInput: string)
    requires CheckProfile(nameInput, emailInput).Ok?
    ensures var r := CheckProfile(nameInput, emailInput).value;
      Trim(r.name) == r.name && Trim(r.email) == r.email
  {
    TrimIdempotent(nameInput);
    TrimIdempotent(emailInput);
  }

  /**
   * The password form, in order: every field filled in, then the new
   * password confirmed. The confirmation itself is not sent.
   */
  function CheckPassword(current: string, newPassword: string, confirmation: string): (r: Result<Request, Notice>)
    ensures current == "" || newPassword == "" || confirmation == "" ==> r == Err(FillAllFields)
    ensures current != "" && newPassword != "" && confirmation != "" && newPassword != confirmation ==> r == Err(PasswordsDiffer)
    ensures r.Ok? <==> current != "" && newPassword != "" && newPassword == confirmation
    ensures r.Ok? ==> r.value == ChangePassword(current, newPassword)
  {
    if current == "" || newPassword == "" || confirmation == "" then Err(FillAllFields)
    else if newPassword != confirmation then Err(PasswordsDiffer)
    else Ok(ChangePassword(current, newPassword))
  }

  /** Two forms that differ only in the confirmation send the same request. */
  lemma ConfirmationNotSent(current: string, newPassword: string, c1: string, c2: string)
    requires CheckPassword(current, newPassword, c1).Ok? && CheckPassword(current, newPassword, c2).Ok?
    ensures CheckPassword(current, newPassword, c1) == CheckPassword(current, newPassword, c2)
  {
  }

  /**
   * The alert after a form's request: `success` confirms; otherwise
   * `res.error`, or the form's fallback text; `None` is a request that threw.
   */
  function Outcome(reply: Option<(bool, Value)>, done: Notice, fallback: string): (r: Notice)
    ensures reply.None? ==> r == NetworkError
    ensures reply.Some? && reply.value.0 ==> r == done
    ensures reply.Some? && !reply.value.0 && Truthy(reply.value.1) ==> r == Refused(ToStr(reply.value.1))
    ensures reply.Some? && !reply.value.0 && !Truthy(reply.value.1) ==> r == Refused(fallback)
  {
    match reply
    case None => NetworkError
    case Some((success, error)) =>
      if success then done else Refused(ToStr(Or(error, Str(fallback))))
  }

  /** Logging out here removes the token and the user record, and nothing else. */
  function SettingsLogout(store: Storage.Store): (r: Storage.Store)
    ensures r.Keys == store.Keys - {"token", "user"}
    ensures forall k :: k in r ==> r[k] == store[k]
  {
    Storage.RemoveItem(Storage.RemoveItem(store, "token"), "user")
  }

  /** After logging out the page no longer holds a session, while `googleTokens` stays behind. */
  lemma SettingsLogoutEndsSession(store: Storage.Store)
    ensures !Storage.LoggedIn(SettingsLogout(store))
    ensures "googleTokens" in store ==> "googleTokens" in SettingsLogout(store)
  {
    Storage.LoggedInIff(SettingsLogout(store));
  }

  /** The start of settings.js: whether it stopped at parsing the user record, and whether it redirects. */
  datatype Start = Start(halted: bool, redirected: bool)

  function Startup(store: Storage.Store): (r: Start)
    ensures r.halted <==> Storage.ParseItem(store, "user").None?
    ensures r.redirected <==> !r.halted && !Storage.LoggedIn(store)
  {
    if Storage.ParseItem(store, "user").None? then Start(true, false) else Start(false, !Storage.LoggedIn(store))
  }

  class Page {
    var store: Storage.Store
    /**
     * `JSON.parse` of the user record threw: the script stopped there, so
     * the page neither alerts nor redirects and no handler is attached.
     */
    var halted: bool
    var redirected: bool
    var nameInput: string
    var emailInput: string
    var currentPassword: string
    var newPassword: string
    var confirmPassword: string
    var outbox: seq<Request>

    /** The script's start: parse the user record, read the token, and run the guard. */
    constructor(store: Storage.Store)
      ensures this.store == store
      ensures halted == Startup(store).halted && redirected == Startup(store).redirected
      ensures nameInput == "" && emailInput == "" && currentPassword == "" && newPassword == "" && confirmPassword == ""
      ensures outbox == []
    {
      this.store := store;
      var start := Startup(store);
      halted := start.halted;
      redirected := start.redirected;
      nameInput := "";
      emailInput := "";
      currentPassword := "";
      newPassword := "";
      confirmPassword := "";
      outbox := [];
    }

    /** The profile form's submit handler; `reply` is `res`'s `success` and `error`, `None` when the call threw. */
    method SubmitProfile(reply: Option<(bool, Value)>) returns (alert: Notice)
      requires !halted
      modifies this
      ensures CheckProfile(old(nameInput), old(emailInput)).Err? ==> alert == FillAllFields && outbox == old(outbox)
      ensures CheckProfile(old(nameInput), old(emailInput)).Ok? ==>
        outbox == old(outbox) + [CheckProfile(old(nameInput), old(emailInput)).value] &&
        alert == Outcome(reply, ProfileUpdated, "Failed to update profile.")
      ensures store == old(store) && halted == old(halted) && redirected == old(redirected) && nameInput == old(nameInput) && emailInput == old(emailInput)
      ensures currentPassword == old(currentPassword) && newPassword == old(newPassword) && confirmPassword == old(confirmPassword)
    {
      var check := CheckProfile(nameInput, emailInput);
      if check.Err? {
        return check.error;
      }
      outbox := outbox + [check.value];
      alert := Outcome(reply, ProfileUpdated, "Failed to update profile.");
    }

    /** The password form's submit handler: a success also clears the form. */
    method SubmitPassword(reply: Option<(bool, Value)>) returns (alert: Notice)
      requires !halted
      modifies this
      ensures var check := CheckPassword(old(currentPassword), old(newPassword), old(confirmPassword));
        (check.Err? ==> alert == check.error && outbox == old(outbox)) &&
        (check.Ok? ==> outbox == old(outbox) + [check.value] && alert == Outcome(reply, PasswordChanged, "Failed to change password."))
      ensures var cleared := CheckPassword(old(currentPassword), old(newPassword), old(confirmPassword)).Ok? && reply.Some? && reply.value.0;
        (cleared ==> currentPassword == "" && newPassword == "" && confirmPassword == "") &&
        (!cleared ==> currentPassword == old(currentPassword) && newPassword == old(newPassword) && confirmPassword == old(confirmPassword))
      ensures store == old(store) && halted == old(halted) && redirected == old(redirected) && nameInput == old(nameInput) && emailInput == old(emailInput)
    {
      var check := CheckPassword(currentPassword, newPassword, confirmPassword);
      if check.Err? {
        return check.error;
      }
      outbox := outbox + [check.value];
      alert := Outcome(reply, PasswordChanged, "Failed to change password.");
      if reply.Some? && reply.value.0 {
        currentPassword := "";
        newPassword := "";
        confirmPassword := "";
      }
    }

    /** The logout button: nothing happens unless the visitor confirms. */
    method Logout(confirmed: bool)
      requires !halted
      modifies this
      ensures store == (if confirmed then SettingsLogout(old(store)) else old(store))
      ensures redirected == (old(redirected) || confirmed) && halted == old(halted)
      ensures nameInput == old(nameInput) && emailInput == old(emailInput) && outbox == old(outbox)
      ensures currentPassword == old(currentPassword) && newPassword == old(newPassword) && confirmPassword == old(confirmPassword)
    {
      if confirmed {
        store := Storage.RemoveItem(store, "token");
        store := Storage.RemoveItem(store, "user");
        redirected := true;
      }
    }
  }
}
