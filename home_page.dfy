/**
 * The home page (auth.js): the provider catalog, the booking modal and its
 * submit handler, the booking list with its e-mail reminders, and what a
 * successful login writes to `localStorage`. Requests the page sends are
 * appended to `outbox`; the server's replies are parameters.
 */
module HomePage {
  import opened Wrappers
  import opened Js
  import opened Text
  import opened Catalog
  import opened Booking
  import Storage
  import Json

  /** The body of `POST /api/bookings/google`. */
  datatype BookingPayload = BookingPayload(
    providerId: int,
    service: string,
    when: string,
    notes: string,
    calendarSync: bool,
    duration: nat)

  datatype Request =
    | CreateBooking(token: string, payload: BookingPayload)
    | FetchBookings(token: string)
    | Remind(booking: Booking)

  /** The reply to the booking request: `SubmitFailed` for a network error or a body that is not JSON. */
  datatype SubmitReply = SubmitFailed | SubmitAnswered(success: bool, error: Value)

  /** What a successful login or sign-up hands to `handleAuthResponse`. */
  datatype AuthData = AuthData(token: Value, user: Value, googleTokens: Value)

  /** The alerts the page shows. */
  datatype Notice =
    | NoProvider        // "No provider selected"
    | NoDate            // "Please choose date/time"
    | LoginFirst        // "Please login first"
    | Confirmed         // "Booking confirmed! Check your email & Google Calendar."
    | NetworkError      // "Network error"
    | BookingFailed(reason: string)  // "Failed to book: " + reason

  /** The payload for a provider: the service falls back to its name, the duration to 60 minutes. */
  function PayloadFor(p: Provider, date: string, notes: string): (r: BookingPayload)
    ensures r.providerId == p.id && r.when == date && r.notes == Trim(notes)
    ensures r.service == (if p.service != "" then p.service else p.name)
    ensures r.duration == (if p.serviceDuration != 0 then p.serviceDuration else 60)
    ensures r.calendarSync == p.calendarSync
  {
    BookingPayload(
      p.id,
      if p.service != "" then p.service else p.name,
      date,
      Trim(notes),
      p.calendarSync,
      if p.serviceDuration != 0 then p.serviceDuration else 60)
  }

  /**
   * The checks of the submit handler, in order: a provider is selected, a
   * date is chosen, a token is stored. Passing them yields the token and the payload.
   */
  function CheckSubmit(selected: Option<Provider>, date: string, notes: string, store: Storage.Store): (r: Result<(string, BookingPayload), Notice>)
    ensures selected.None? ==> r == Err(NoProvider)
    ensures selected.Some? && date == "" ==> r == Err(NoDate)
    ensures selected.Some? && date != "" && !Storage.LoggedIn(store) ==> r == Err(LoginFirst)
    ensures r.Ok? <==> selected.Some? && date != "" && Storage.LoggedIn(store)
    ensures r.Ok? ==> r.value == (store["token"], PayloadFor(selected.value, date, notes))
  {
    if selected.None? then Err(NoProvider)
    else if date == "" then Err(NoDate)
    else if !Storage.LoggedIn(store) then Err(LoginFirst)
    else Ok((store["token"], PayloadFor(selected.value, date, notes)))
  }

  /** A payload is never sent with an empty date, and its duration is always positive. */
  lemma SubmittedPayloadWellFormed(selected: Option<Provider>, date: string, notes: string, store: Storage.Store)
    requires CheckSubmit(selected, date, notes, store).Ok?
    ensures CheckSubmit(selected, date, notes, store).value.1.when != ""
    ensures CheckSubmit(selected, date, notes, store).value.1.duration > 0
    ensures CheckSubmit(selected, date, notes, store).value.0 != ""
  {
    Storage.LoggedInIff(store);
  }

  function RemindAll(list: seq<Booking>): seq<Request> {
    if list == [] then [] else RemindAll(list[..|list| - 1]) + [Remind(list[|list| - 1])]
  }

  /** One reminder request per booking, in list order. */
  lemma {:induction false} RemindAllSpec(list: seq<Booking>)
    ensures |RemindAll(list)| == |list|
    ensures forall i :: 0 <= i < |list| ==> RemindAll(list)[i] == Remind(list[i])
  {
    if list != [] {
      RemindAllSpec(list[..|list| - 1]);
    }
  }

  /** `JSON.parse(text).email` reads without throwing: the text is JSON and not `null`. */
  predicate RecordReadable(text: string) {
    var v := Json.Parse(text);
    v.Some? && !v.value.Null?
  }

  /**
   * `sendReminderEmail` reads the e-mail from the stored user record, so a
   * record that cannot be read throws, and the exception leaves the
   * `forEach` at the first booking due: no reminder goes out at all. A
   * missing or empty record falls back to "{}", which reads (EmailReadableIff).
   */
  predicate EmailReadable(store: Storage.Store) {
    "user" !in store || store["user"] == "" || RecordReadable(store["user"])
  }

  /** `EmailReadable` is exactly `JSON.parse(localStorage.getItem('user') || '{}')` reading without throwing. */
  lemma EmailReadableIff(store: Storage.Store)
    ensures EmailReadable(store) <==> RecordReadable(if "user" in store && store["user"] != "" then store["user"] else "{}")
  {
    Json.ParseEmptyObject("{}", "email");
  }

  /** What `loadBookings` sends: nothing without a token, else the list request and the reminders. */
  function LoadRequests(store: Storage.Store, reply: ListReply, now: int): (r: seq<Request>)
    ensures !Storage.LoggedIn(store) ==> r == []
    ensures Storage.LoggedIn(store) ==> |r| >= 1 && r[0] == FetchBookings(store["token"])
  {
    if !Storage.LoggedIn(store) then []
    else [FetchBookings(store["token"])] + match reply
      case NoList => []
      case Listed(bookings) => if EmailReadable(store) then RemindAll(ReminderTargets(ListOf(bookings), now)) else []
  }

  lemma LoadRequestsListed(store: Storage.Store, reply: ListReply, now: int)
    requires Storage.LoggedIn(store) && reply.Listed?
    ensures LoadRequests(store, reply, now) == [FetchBookings(store["token"])] +
      if EmailReadable(store) then RemindAll(ReminderTargets(ListOf(reply.bookings), now)) else []
  {
  }

  /** `allBookings` after `loadBookings`: unchanged unless a list arrived. */
  function BookingsAfterLoad(current: seq<Booking>, store: Storage.Store, reply: ListReply): seq<Booking> {
    if Storage.LoggedIn(store) && reply.Listed? then ListOf(reply.bookings) else current
  }

  /** The reason shown after a refused booking: the server's `error`, or "Unknown error". */
  function FailureReason(error: Value): (r: string)
    ensures Truthy(error) ==> r == ToStr(error)
    ensures !Truthy(error) ==> r == "Unknown error"
  {
    ToStr(Or(error, Str("Unknown error")))
  }

  /** The booking modal's inputs: the selected provider, the date and the notes. */
  datatype Form = Form(selected: Option<Provider>, date: string, notes: string)

  /** What one click on the submit button leads to. */
  datatype Submitted = Submitted(alert: Notice, form: Form, sent: seq<Request>, bookings: seq<Booking>)

  /**
   * The submit handler: a rejected check sends nothing and changes nothing;
   * otherwise the booking request goes out, and only a reply with `success`
   * clears the modal and reloads the bookings.
   */
  function Submit(form: Form, store: Storage.Store, bookings: seq<Booking>, reply: SubmitReply, listReply: ListReply, now: int): (r: Submitted)
    ensures r.sent == [] <==> CheckSubmit(form.selected, form.date, form.notes, store).Err?
  {
    match CheckSubmit(form.selected, form.date, form.notes, store)
    case Err(message) => Submitted(message, form, [], bookings)
    case Ok((token, payload)) =>
      var create := [CreateBooking(token, payload)];
      match reply
      case SubmitFailed => Submitted(NetworkError, form, create, bookings)
      case SubmitAnswered(success, error) =>
        if success then
          Submitted(Confirmed, Form(None, "", ""), create + LoadRequests(store, listReply, now), BookingsAfterLoad(bookings, store, listReply))
        else
          Submitted(BookingFailed(FailureReason(error)), form, create, bookings)
  }

  /** A rejected submit shows the check's message, sends nothing and changes nothing. */
  lemma SubmitRejected(form: Form, store: Storage.Store, bookings: seq<Booking>, reply: SubmitReply, listReply: ListReply, now: int)
    requires CheckSubmit(form.selected, form.date, form.notes, store).Err?
    ensures Submit(form, store, bookings, reply, listReply, now)
      == Submitted(CheckSubmit(form.selected, form.date, form.notes, store).error, form, [], bookings)
  {
  }

  /**
   * A submit that passes the checks sends the booking request first. Only
   * a successful booking clears the modal and reloads; a failure keeps the
   * form for another try.
   */
  lemma SubmitAccepted(form: Form, store: Storage.Store, bookings: seq<Booking>, reply: SubmitReply, listReply: ListReply, now: int)
    requires CheckSubmit(form.selected, form.date, form.notes, store).Ok?
    ensures var check := CheckSubmit(form.selected, form.date, form.notes, store);
      var r := Submit(form, store, bookings, reply, listReply, now);
      if reply.SubmitAnswered? && reply.success then
        r.alert == Confirmed && r.form == Form(None, "", "") &&
        r.sent == [CreateBooking(check.value.0, check.value.1)] + LoadRequests(store, listReply, now) &&
        r.bookings == BookingsAfterLoad(bookings, store, listReply)
      else
        r.alert != Confirmed && r.form == form && r.sent == [CreateBooking(check.value.0, check.value.1)] && r.bookings == bookings
  {
  }

  /** Every reminder a load sends is for a listed booking due within the next 24 hours, and each such booking gets one. */
  lemma RemindersExact(list: seq<Booking>, now: int)
    ensures var r := RemindAll(ReminderTargets(list, now));
      |r| == |ReminderTargets(list, now)| &&
      (forall i :: 0 <= i < |r| ==> r[i].Remind? && r[i].booking in list && DueSoon(r[i].booking, now)) &&
      (forall b :: b in list && DueSoon(b, now) ==> Remind(b) in r)
  {
    var targets := ReminderTargets(list, now);
    var r := RemindAll(targets);
    ReminderTargetsSpec(list, now);
    RemindAllSpec(targets);
    forall i | 0 <= i < |r|
      ensures r[i].Remind? && r[i].booking in list && DueSoon(r[i].booking, now)
    {
      assert targets[i] in targets;
    }
    forall b | b in list && DueSoon(b, now)
      ensures Remind(b) in r
    {
      var k := Seqs.IndexOf(targets, b);
      assert r[k] == Remind(b);
    }
  }

  /**
   * A logged-in load sends the list request and then exactly those
   * reminders, or none at all when the user record cannot be read.
   */
  lemma LoadSendsReminders(store: Storage.Store, list: seq<Booking>, now: int)
    requires Storage.LoggedIn(store)
    ensures EmailReadable(store) ==>
      LoadRequests(store, Listed(Some(list)), now) == [FetchBookings(store["token"])] + RemindAll(ReminderTargets(list, now))
    ensures !EmailReadable(store) ==> LoadRequests(store, Listed(Some(list)), now) == [FetchBookings(store["token"])]
  {
  }

  /**
   * The chat page stores the bare user name, which is not JSON: after it,
   * a load sends no reminder for a name starting with a letter other than n, f or t.
   */
  lemma BareNameUnreadable(store: Storage.Store, name: string)
    requires name != [] && ('a' <= name[0] <= 'z' || 'A' <= name[0] <= 'Z') && name[0] !in "nft"
    ensures !EmailReadable(Storage.SetItem(store, "user", name))
  {
    Json.ParseRejects(name);
  }

  /** A login reply without a user record stores "undefined" or "null", and neither can be read. */
  lemma AuthWithoutUserUnreadable(store: Storage.Store, data: AuthData)
    requires data.user.Undefined? || data.user.Null?
    ensures !EmailReadable(AuthStore(store, data))
  {
    if data.user.Undefined? {
      Storage.UndefinedIsNotJson();
    } else {
      Json.StringifyParse(Null);
    }
  }

  /** Nothing is sent to reload bookings when no token is stored. */
  lemma NoLoadWithoutToken(store: Storage.Store, reply: ListReply, now: int)
    requires "token" !in store || store["token"] == ""
    ensures LoadRequests(store, reply, now) == []
  {
    Storage.LoggedInIff(store);
  }

  /** The storage writes of `handleAuthResponse`. */
  function AuthStore(store: Storage.Store, data: AuthData): (r: Storage.Store)
    ensures "token" in r && r["token"] == ToStr(Or(data.token, Str("")))
    ensures "user" in r && r["user"] == Storage.Encoded(data.user)
    ensures Truthy(data.googleTokens) ==> "googleTokens" in r && r["googleTokens"] == Storage.Encoded(data.googleTokens)
    ensures forall k :: k in store && k != "token" && k != "user" && (k != "googleTokens" || !Truthy(data.googleTokens)) ==> k in r && r[k] == store[k]
  {
    var s := Storage.SetItem(Storage.SetItem(store, "token", ToStr(Or(data.token, Str("")))), "user", Storage.Encoded(data.user));
    if Truthy(data.googleTokens) then Storage.SetItem(s, "googleTokens", Storage.Encoded(data.googleTokens)) else s
  }

  /** After `handleAuthResponse` the page is logged in exactly when the server sent a truthy token. */
  lemma AuthLogsIn(store: Storage.Store, data: AuthData)
    ensures Storage.LoggedIn(AuthStore(store, data)) <==> Truthy(data.token)
  {
    var r := AuthStore(store, data);
    Storage.LoggedInIff(r);
    if Truthy(data.token) {
      assert ToStr(data.token) != "" by {
        match data.token
        case Num(n) =>
        case Str(s) =>
        case Bool(b) =>
        case Object(_) =>
      }
    }
  }

  /**
   * The `forEach` of `loadBookings`: one reminder per booking due within a
   * day, in list order. When the user record cannot be read, the first
   * booking due throws before its request is sent, and `stopped` says so.
   */
  method ReminderRequests(list: seq<Booking>, now: int, readable: bool) returns (sent: seq<Request>, stopped: bool)
    ensures readable ==> sent == RemindAll(ReminderTargets(list, now))
    ensures !readable ==> sent == []
    ensures stopped <==> !readable && ReminderTargets(list, now) != []
  {
    sent := [];
    stopped := false;
    var i := 0;
    while i < |list|
      invariant 0 <= i <= |list|
      invariant readable ==> sent == RemindAll(ReminderTargets(list[..i], now))
      invariant !readable ==> sent == [] && ReminderTargets(list[..i], now) == []
    {
      ReminderPrefixStep(list, i, now);
      if DueSoon(list[i], now) {
        if !readable {
          DueIsTarget(list, i, now);
          stopped := true;
          return;
        }
        RemindAllSnoc(ReminderTargets(list[..i], now), list[i]);
        sent := sent + [Remind(list[i])];
      }
      i := i + 1;
    }
    assert list[..i] == list;
  }

  /** The targets of one more booking of the list: its own reminder, when due, comes last. */
  lemma ReminderPrefixStep(list: seq<Booking>, i: nat, now: int)
    requires i < |list|
    ensures DueSoon(list[i], now) ==> ReminderTargets(list[..i + 1], now) == ReminderTargets(list[..i], now) + [list[i]]
    ensures !DueSoon(list[i], now) ==> ReminderTargets(list[..i + 1], now) == ReminderTargets(list[..i], now)
  {
    assert list[..i + 1] == list[..i] + [list[i]];
    ReminderTargetsAppend(list[..i], [list[i]], now);
    if DueSoon(list[i], now) {
      assert ReminderTargets([list[i]], now) == [list[i]];
    } else {
      assert ReminderTargets([list[i]], now) == [];
      assert ReminderTargets(list[..i], now) + [] == ReminderTargets(list[..i], now);
    }
  }

  lemma RemindAllSnoc(targets: seq<Booking>, b: Booking)
    ensures RemindAll(targets + [b]) == RemindAll(targets) + [Remind(b)]
  {
    assert (targets + [b])[..|targets|] == targets;
  }

  /** A booking due soon is a reminder target. */
  lemma DueIsTarget(list: seq<Booking>, i: nat, now: int)
    requires i < |list| && DueSoon(list[i], now)
    ensures ReminderTargets(list, now) != []
  {
    ReminderTargetsSpec(list, now);
    assert list[i] in list;
  }

  /**
   * The body of `loadBookings` over values: nothing without a token; else
   * the list request, and once a list arrived it is kept and the `forEach`
   * sends its reminders (none when the user record cannot be read).
   */
  method LoadStep(store: Storage.Store, current: seq<Booking>, reply: ListReply, now: int) returns (sent: seq<Request>, bookings: seq<Booking>)
    ensures sent == LoadRequests(store, reply, now)
    ensures bookings == BookingsAfterLoad(current, store, reply)
  {
    if !Storage.LoggedIn(store) {
      return [], current;
    }
    sent := [FetchBookings(store["token"])];
    bookings := current;
    if reply.Listed? {
      bookings := ListOf(reply.bookings);
      var reminders, stopped := ReminderRequests(bookings, now, EmailReadable(store));
      sent := sent + reminders;
    }
  }

  class Page {
    var store: Storage.Store
    var providers: seq<Provider>
    var selectedProvider: Option<Provider>
    var allBookings: seq<Booking>
    var bookDate: string
    var bookNotes: string
    var outbox: seq<Request>

    constructor(store: Storage.Store)
      ensures this.store == store && providers == [] && selectedProvider == None && allBookings == []
      ensures bookDate == "" && bookNotes == "" && outbox == []
    {
      this.store := store;
      providers := [];
      selectedProvider := None;
      allBookings := [];
      bookDate := "";
      bookNotes := "";
      outbox := [];
    }

    /** `loadProviders`: the backend's list, or the six fallback providers when the request failed. */
    method LoadProviders(reply: Option<seq<Provider>>)
      modifies this
      ensures providers == Loaded(reply)
      ensures store == old(store) && selectedProvider == old(selectedProvider) && allBookings == old(allBookings)
      ensures bookDate == old(bookDate) && bookNotes == old(bookNotes) && outbox == old(outbox)
    {
      providers := Loaded(reply);
    }

    /** `openBookingModal(provider)` */
    method OpenBookingModal(p: Provider)
      modifies this
      ensures selectedProvider == Some(p)
      ensures store == old(store) && providers == old(providers) && allBookings == old(allBookings)
      ensures bookDate == old(bookDate) && bookNotes == old(bookNotes) && outbox == old(outbox)
    {
      selectedProvider := Some(p);
    }

    /** `loadBookings(now)`: the list request, then one reminder per booking due within a day. */
    method LoadBookings(reply: ListReply, now: int)
      modifies this
      ensures outbox == old(outbox) + LoadRequests(old(store), reply, now)
      ensures allBookings == BookingsAfterLoad(old(allBookings), old(store), reply)
      ensures store == old(store) && providers == old(providers) && selectedProvider == old(selectedProvider)
      ensures bookDate == old(bookDate) && bookNotes == old(bookNotes)
    {
      var sent, bookings := LoadStep(store, allBookings, reply, now);
      outbox := outbox + sent;
      allBookings := bookings;
    }

    /** The submit handler: the three checks, then the booking request, then on success a reset and a reload. */
    method SubmitBooking(reply: SubmitReply, listReply: ListReply, now: int) returns (alert: Notice)
      modifies this
      ensures var r := Submit(Form(old(selectedProvider), old(bookDate), old(bookNotes)), old(store), old(allBookings), reply, listReply, now);
        alert == r.alert && Form(selectedProvider, bookDate, bookNotes) == r.form &&
        outbox == old(outbox) + r.sent && allBookings == r.bookings
      ensures store == old(store) && providers == old(providers)
    {
      ghost var form := Form(selectedProvider, bookDate, bookNotes);
      var check := CheckSubmit(selectedProvider, bookDate, bookNotes, store);
      if check.Err? {
        SubmitRejected(form, store, allBookings, reply, listReply, now);
        alert := check.error;
        return;
      }
      SubmitAccepted(form, store, allBookings, reply, listReply, now);
      alert := SendBooking(check.value.0, check.value.1, reply, listReply, now);
    }

    /** The `try` block: the booking request, then the alert for its reply, and on success a reset and a reload. */
    method SendBooking(token: string, payload: BookingPayload, reply: SubmitReply, listReply: ListReply, now: int) returns (alert: Notice)
      modifies this
      ensures var confirmed := reply.SubmitAnswered? && reply.success;
        outbox == old(outbox) + [CreateBooking(token, payload)] + (if confirmed then LoadRequests(old(store), listReply, now) else [])
      ensures reply.SubmitFailed? ==> alert == NetworkError
      ensures reply.SubmitAnswered? && !reply.success ==> alert == BookingFailed(FailureReason(reply.error))
      ensures reply.SubmitAnswered? && reply.success ==>
        alert == Confirmed && selectedProvider == None && bookDate == "" && bookNotes == "" &&
        allBookings == BookingsAfterLoad(old(allBookings), old(store), listReply)
      ensures !(reply.SubmitAnswered? && reply.success) ==>
        selectedProvider == old(selectedProvider) && bookDate == old(bookDate) && bookNotes == old(bookNotes) && allBookings == old(allBookings)
      ensures store == old(store) && providers == old(providers)
    {
      outbox := outbox + [CreateBooking(token, payload)];
      if reply.SubmitAnswered? && reply.success {
        alert := Confirmed;
        ConfirmAndReload(listReply, now);
      } else if reply.SubmitFailed? {
        alert := NetworkError;
      } else {
        alert := BookingFailed(FailureReason(reply.error));
      }
    }

    /** After a successful booking: close the modal, clear its inputs and reload the bookings. */
    method ConfirmAndReload(listReply: ListReply, now: int)
      modifies this
      ensures selectedProvider == None && bookDate == "" && bookNotes == ""
      ensures outbox == old(outbox) + LoadRequests(old(store), listReply, now)
      ensures allBookings == BookingsAfterLoad(old(allBookings), old(store), listReply)
      ensures store == old(store) && providers == old(providers)
    {
      bookDate := "";
      bookNotes := "";
      selectedProvider := None;
      LoadBookings(listReply, now);
    }

    /**
     * `handleAuthResponse(data)`: store the session, then reload the bookings.
     * `nameShown` says whether the page has the `userName` element; when it
     * has, `data.user.name` throws for a reply without a user, after the
     * writes and before the reload. `thrown` is that exception, which
     * `loginUser` turns into the "Network error" message.
     */
    method HandleAuthResponse(data: AuthData, nameShown: bool, listReply: ListReply, now: int) returns (thrown: bool)
      modifies this
      ensures store == AuthStore(old(store), data)
      ensures thrown <==> nameShown && (data.user.Undefined? || data.user.Null?)
      ensures thrown ==> outbox == old(outbox) && allBookings == old(allBookings)
      ensures !thrown ==> outbox == old(outbox) + LoadRequests(store, listReply, now)
      ensures !thrown ==> allBookings == BookingsAfterLoad(old(allBookings), store, listReply)
      ensures providers == old(providers) && selectedProvider == old(selectedProvider)
      ensures bookDate == old(bookDate) && bookNotes == old(bookNotes)
    {
      store := AuthStore(store, data);
      if nameShown && (data.user.Undefined? || data.user.Null?) {
        return true;
      }
      thrown := false;
      LoadBookings(listReply, now);
    }
  }
}
