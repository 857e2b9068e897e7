/**
 * The customer dashboard (dashboard.js): the booking modal shared by
 * "Book" on a provider card and "Edit" on a booking, its confirm handler
 * (a POST for a new booking, a PUT for an edited one), deleting a booking,
 * flipping its status and mailing a reminder. Each completed write asks
 * for the list again; that request is the `LoadBookings` entry of the outbox.
 */
module CustomerDashboard {
  import opened Wrappers
  import opened Js
  import opened Catalog
  import opened Booking
  import Storage
  import Http
  import Json

  /** The provider the modal books: a catalog provider, or one rebuilt from the booking being edited. */
  datatype Chosen = Chosen(id: Value, name: string, service: Option<string>)

  /** The body of the create and update requests; a `None` service is left out of the JSON. */
  datatype Body = Body(providerId: Value, provider: string, service: Option<string>, when: string, notes: string)

  datatype Request =
    | CreateBooking(body: Body)                   // POST /api/bookings
    | UpdateBooking(id: string, body: Body)       // PUT /api/bookings/{id}
    | DeleteBooking(id: string)                   // DELETE /api/bookings/{id}
    | SetStatus(id: string, status: string)       // PATCH /api/bookings/{id}/status
    | Remind(email: Value, provider: string, service: Option<string>, when: string)  // POST /api/bookings/remind
    | LoadBookings                                // the call to loadBookings

  /** The alerts of the page. */
  datatype Notice =
    | ChooseDate            // "Please choose a booking date!"
    | ServerError(text: string)  // alert(data.error)
    | NetworkError          // "Network error"
    | DeleteFailed          // "Delete failed"
    | ReminderSent          // "Reminder email sent!"

  function FromProvider(p: Provider): (r: Chosen)
    ensures r.id == Num(p.id) && r.name == p.name && r.service == Some(p.service)
  {
    Chosen(Num(p.id), p.name, Some(p.service))
  }

  /** `{ id: b.providerId, name: b.provider, service: b.service }` */
  function FromBooking(b: Booking): (r: Chosen)
    ensures r.id == Str(b.providerId) && r.name == b.provider && r.service == b.service
  {
    Chosen(Str(b.providerId), b.provider, b.service)
  }

  /** `if (bookingIdToEdit)`: an id is set and is not empty. */
  predicate Editing(edit: Option<string>) {
    edit.Some? && edit.value != ""
  }

  /** The request the confirm button sends: a PUT to the edited booking, else a POST. */
  function ConfirmRequest(chosen: Chosen, edit: Option<string>, date: string, notes: string): (r: Request)
    ensures Editing(edit) ==> r.UpdateBooking? && r.id == edit.value
    ensures !Editing(edit) ==> r.CreateBooking?
    ensures r.body == Body(chosen.id, chosen.name, chosen.service, date, notes)
  {
    var body := Body(chosen.id, chosen.name, chosen.service, date, notes);
    if Editing(edit) then UpdateBooking(edit.value, body) else CreateBooking(body)
  }

  /** What one click on the confirm button leads to. */
  datatype Confirmed = Confirmed(alert: Option<Notice>, sent: seq<Request>, closes: bool)

  /**
   * The confirm handler: an empty date is refused with an alert; with no
   * provider chosen the handler throws before sending. Otherwise the
   * request goes out; a reply that is not JSON or does not arrive alerts
   * "Network error", one that is not ok alerts its `error`, and an ok one
   * closes the modal and reloads the list.
   */
  function Confirm(selected: Option<Chosen>, edit: Option<string>, date: string, notes: string, reply: Http.Reply<Value>): (r: Confirmed)
    ensures date == "" ==> r == Confirmed(Some(ChooseDate), [], false)
    ensures date != "" && selected.None? ==> r == Confirmed(None, [], false)
  {
    if date == "" then Confirmed(Some(ChooseDate), [], false)
    else if selected.None? then Confirmed(None, [], false)
    else
      var request := ConfirmRequest(selected.value, edit, date, notes);
      match reply
      case Unreachable => Confirmed(Some(NetworkError), [request], false)
      case Answered(ok, _, body) =>
        match body
        case None => Confirmed(Some(NetworkError), [request], false)
        case Some(data) =>
          if ok then Confirmed(None, [request, LoadBookings], true)
          else Confirmed(Some(ServerError(ToStr(data.error))), [request], false)
  }

  /**
   * Once a date and a provider are there, exactly one request is sent
   * first: a PUT to the booking being edited, or a POST when none is.
   */
  lemma ConfirmSendsOne(selected: Option<Chosen>, edit: Option<string>, date: string, notes: string, reply: Http.Reply<Value>)
    ensures var r := Confirm(selected, edit, date, notes, reply);
      (r.sent != [] <==> date != "" && selected.Some?) &&
      (r.sent != [] ==> r.sent[0] == ConfirmRequest(selected.value, edit, date, notes)) &&
      (r.sent != [] && Editing(edit) ==> r.sent[0].UpdateBooking? && r.sent[0].id == edit.value) &&
      (r.sent != [] && !Editing(edit) ==> r.sent[0].CreateBooking?)
  {
  }

  /** The modal closes and the list reloads exactly when the server accepted the request with a JSON reply. */
  lemma ConfirmReloadsOnSuccess(selected: Option<Chosen>, edit: Option<string>, date: string, notes: string, reply: Http.Reply<Value>)
    ensures var r := Confirm(selected, edit, date, notes, reply);
      var accepted := date != "" && selected.Some? && reply.Answered? && reply.ok && reply.body.Some?;
      (r.closes <==> accepted) && (LoadBookings in r.sent <==> accepted) && (accepted <==> r.sent != [] && r.alert.None?)
  {
  }

  /**
   * `user.email` as `sendReminder` reads it from the parsed user record:
   * `None` when the record is `null` and the read throws into the
   * handler's silent `catch`; a record without an e-mail gives `undefined`.
   */
  function ReminderEmail(user: Value): (r: Option<Value>)
    ensures r.None? <==> user.Null? || user.Undefined?
    ensures r.Some? ==> r.value == Json.Member(user, "email")
  {
    match user
    case Null => None
    case Undefined => None
    case _ => Some(Json.Member(user, "email"))
  }

  /**
   * With no user record stored, `JSON.parse(null)` is `null` and no reminder
   * can be sent; a record "{}" still sends one, with an `undefined` e-mail.
   */
  lemma ReminderEmailOfRecord(store: Storage.Store)
    ensures "user" !in store ==> Storage.ParseItem(store, "user") == Some(Null) && ReminderEmail(Null).None?
    ensures var s := Storage.SetItem(store, "user", "{}");
      Storage.ParseItem(s, "user").Some? && ReminderEmail(Storage.ParseItem(s, "user").value) == Some(Undefined)
  {
    Json.ParseEmptyObject("{}", "email");
  }

  /**
   * The bare user name chat.js stores, and the "undefined" a login reply
   * without a user leaves, are not JSON: the script stops at the parse.
   */
  lemma UnreadableRecordHalts(store: Storage.Store, name: string)
    requires name != [] && ('a' <= name[0] <= 'z' || 'A' <= name[0] <= 'Z') && name[0] !in "nft"
    ensures Storage.ParseItem(Storage.SetItem(store, "user", name), "user").None?
    ensures Storage.ParseItem(Storage.SetItem(store, "user", "undefined"), "user").None?
  {
    Json.ParseRejects(name);
    Storage.UndefinedIsNotJson();
  }

  /** What the script's start leaves: whether it stopped at the parse, whether it redirects, and the e-mail `sendReminder` reads. */
  datatype Start = Start(halted: bool, redirected: bool, email: Option<Value>)

  /** The start of dashboard.js: parse the user record, then send a visitor without a token away. */
  function Startup(store: Storage.Store): (r: Start)
    ensures r.halted <==> Storage.ParseItem(store, "user").None?
    ensures r.redirected <==> !r.halted && !Storage.LoggedIn(store)
    ensures r.email.Some? ==> !r.halted && r.email == ReminderEmail(Storage.ParseItem(store, "user").value)
    ensures !r.halted && r.email.None? ==> Storage.ParseItem(store, "user") == Some(Null)
  {
    match Storage.ParseItem(store, "user")
    case None => Start(true, false, None)
    case Some(user) => Start(false, !Storage.LoggedIn(store), ReminderEmail(user))
  }

  class Page {
    var store: Storage.Store
    /**
     * `JSON.parse` of the user record threw: the script stopped there, so
     * the page neither alerts nor redirects and no handler is attached.
     */
    var halted: bool
    /** The page sends the visitor to the login page when no token is stored. */
    var redirected: bool
    /** `user.email` of the stored user record, as `ReminderEmail` reads it. */
    var userEmail: Option<Value>
    var selectedProvider: Option<Chosen>
    var bookingIdToEdit: Option<string>
    var bookDate: string
    var bookNotes: string
    var modalOpen: bool
    var outbox: seq<Request>

    /** The script's start: parse the user record, read the token, and run the guard. */
    constructor(store: Storage.Store)
      ensures this.store == store
      ensures halted == Startup(store).halted && redirected == Startup(store).redirected && userEmail == Startup(store).email
      ensures selectedProvider == None && bookingIdToEdit == None && bookDate == "" && bookNotes == ""
      ensures !modalOpen && outbox == []
    {
      this.store := store;
      var start := Startup(store);
      halted := start.halted;
      redirected := start.redirected;
      userEmail := start.email;
      selectedProvider := None;
      bookingIdToEdit := None;
      bookDate := "";
      bookNotes := "";
      modalOpen := false;
      outbox := [];
    }

    /** "Book" on a provider card: a fresh modal for a new booking. */
    method OpenFromCard(p: Provider)
      requires !halted
      modifies this
      ensures selectedProvider == Some(FromProvider(p)) && bookingIdToEdit == None
      ensures bookDate == "" && bookNotes == "" && modalOpen
      ensures store == old(store) && halted == old(halted) && redirected == old(redirected) && userEmail == old(userEmail) && outbox == old(outbox)
    {
      selectedProvider := Some(FromProvider(p));
      bookDate := "";
      bookNotes := "";
      bookingIdToEdit := None;
      modalOpen := true;
    }

    /** "Edit" on a booking: the modal is filled from the booking and remembers its id. */
    method OpenEdit(b: Booking)
      requires !halted
      modifies this
      ensures bookingIdToEdit == Some(b.id) && selectedProvider == Some(FromBooking(b))
      ensures bookDate == EditDate(b.when) && bookNotes == b.notes && modalOpen
      ensures store == old(store) && halted == old(halted) && redirected == old(redirected) && userEmail == old(userEmail) && outbox == old(outbox)
    {
      bookingIdToEdit := Some(b.id);
      selectedProvider := Some(FromBooking(b));
      bookDate := EditDate(b.when);
      bookNotes := b.notes;
      modalOpen := true;
    }

    /** The confirm button. */
    method ConfirmBooking(reply: Http.Reply<Value>) returns (alert: Option<Notice>)
      requires !halted
      modifies this
      ensures var r := Confirm(old(selectedProvider), old(bookingIdToEdit), old(bookDate), old(bookNotes), reply);
        alert == r.alert && outbox == old(outbox) + r.sent && modalOpen == (old(modalOpen) && !r.closes)
      ensures store == old(store) && halted == old(halted) && redirected == old(redirected) && userEmail == old(userEmail)
      ensures selectedProvider == old(selectedProvider) && bookingIdToEdit == old(bookingIdToEdit)
      ensures bookDate == old(bookDate) && bookNotes == old(bookNotes)
    {
      if bookDate == "" {
        return Some(ChooseDate);
      }
      if selectedProvider.None? {
        return None;
      }
      var request := ConfirmRequest(selectedProvider.value, bookingIdToEdit, bookDate, bookNotes);
      outbox := outbox + [request];
      alert := None;
      if reply.Unreachable? || reply.body.None? {
        alert := Some(NetworkError);
      } else if !reply.ok {
        alert := Some(ServerError(ToStr(reply.body.value.error)));
      } else {
        modalOpen := false;
        outbox := outbox + [LoadBookings];
      }
    }

    /** `deleteBooking(id)`: asks first; any reply reloads, only a failed request alerts. */
    method Delete(id: string, confirmed: bool, reply: Http.Reply<Value>) returns (alert: Option<Notice>)
      requires !halted
      modifies this
      ensures !confirmed ==> alert == None && outbox == old(outbox)
      ensures confirmed && reply.Unreachable? ==> alert == Some(DeleteFailed) && outbox == old(outbox) + [DeleteBooking(id)]
      ensures confirmed && reply.Answered? ==> alert == None && outbox == old(outbox) + [DeleteBooking(id), LoadBookings]
      ensures store == old(store) && halted == old(halted) && redirected == old(redirected) && userEmail == old(userEmail)
      ensures selectedProvider == old(selectedProvider) && bookingIdToEdit == old(bookingIdToEdit)
      ensures bookDate == old(bookDate) && bookNotes == old(bookNotes) && modalOpen == old(modalOpen)
    {
      if !confirmed {
        return None;
      }
      outbox := outbox + [DeleteBooking(id)];
      if reply.Unreachable? {
        return Some(DeleteFailed);
      }
      outbox := outbox + [LoadBookings];
      alert := None;
    }

    /** `updateStatus(id, status)`: any reply reloads; a failed request is only logged. */
    method UpdateStatus(id: string, status: string, reply: Http.Reply<Value>)
      requires !halted
      modifies this
      ensures reply.Unreachable? ==> outbox == old(outbox) + [SetStatus(id, status)]
      ensures reply.Answered? ==> outbox == old(outbox) + [SetStatus(id, status), LoadBookings]
      ensures store == old(store) && halted == old(halted) && redirected == old(redirected) && userEmail == old(userEmail)
      ensures selectedProvider == old(selectedProvider) && bookingIdToEdit == old(bookingIdToEdit)
      ensures bookDate == old(bookDate) && bookNotes == old(bookNotes) && modalOpen == old(modalOpen)
    {
      outbox := outbox + [SetStatus(id, status)];
      if reply.Answered? {
        outbox := outbox + [LoadBookings];
      }
    }

    /** The status button of a booking card: completed goes back to scheduled, anything else to completed. */
    method ToggleStatus(b: Booking, reply: Http.Reply<Value>)
      requires !halted
      modifies this
      ensures |outbox| > |old(outbox)| && outbox[|old(outbox)|] == SetStatus(b.id, ToggleTarget(DisplayStatus(b.status)))
      ensures outbox[|old(outbox)|].status == "scheduled" <==> b.status == "completed"
      ensures reply.Unreachable? ==> outbox == old(outbox) + [SetStatus(b.id, ToggleTarget(DisplayStatus(b.status)))]
      ensures reply.Answered? ==> outbox == old(outbox) + [SetStatus(b.id, ToggleTarget(DisplayStatus(b.status))), LoadBookings]
      ensures store == old(store) && halted == old(halted) && redirected == old(redirected) && userEmail == old(userEmail)
      ensures selectedProvider == old(selectedProvider) && bookingIdToEdit == old(bookingIdToEdit)
      ensures bookDate == old(bookDate) && bookNotes == old(bookNotes) && modalOpen == old(modalOpen)
    {
      UpdateStatus(b.id, ToggleTarget(DisplayStatus(b.status)), reply);
    }

    /**
     * `sendReminder(b)`: when `user.email` throws the silent `catch` ends the
     * handler before sending; a reply that is not ok alerts its `error`.
     */
    method SendReminder(b: Booking, reply: Http.Reply<Value>) returns (alert: Option<Notice>)
      requires !halted
      modifies this
      ensures userEmail.None? ==> alert == None && outbox == old(outbox)
      ensures userEmail.Some? ==> outbox == old(outbox) + [Remind(userEmail.value, b.provider, b.service, b.when)]
      ensures userEmail.Some? && reply.Answered? && reply.body.Some? ==>
        alert == Some(if reply.ok then ReminderSent else ServerError(ToStr(reply.body.value.error)))
      ensures reply.Unreachable? || reply.body.None? ==> alert == None
      ensures store == old(store) && halted == old(halted) && redirected == old(redirected) && userEmail == old(userEmail)
      ensures selectedProvider == old(selectedProvider) && bookingIdToEdit == old(bookingIdToEdit)
      ensures bookDate == old(bookDate) && bookNotes == old(bookNotes) && modalOpen == old(modalOpen)
    {
      if userEmail.None? {
        return None;
      }
      outbox := outbox + [Remind(userEmail.value, b.provider, b.service, b.when)];
      if reply.Unreachable? || reply.body.None? {
        return None;
      }
      alert := Some(if reply.ok then ReminderSent else ServerError(ToStr(reply.body.value.error)));
    }
  }
}
