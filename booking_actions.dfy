/**
 * The shared booking script (bookingAction.js): the home-page booking
 * modal, the booking list loader, the dashboard's create form and the
 * reschedule / cancel / delete / complete actions, each of which reloads
 * the list after the server accepts the change. Calls go through utils.js
 * `apiFetch`, whose outcome is `Http.UtilsOutcome` of the server's reply.
 */
module BookingActions {
  import opened Wrappers
  import opened Js
  import opened Text
  import opened Catalog
  import opened Booking
  import Storage
  import Http
  import Json

  /** The body of the modal's `POST /api/bookings`. */
  datatype Payload = Payload(
    providerId: int,
    providerName: string,
    service: string,
    when: string,
    notes: string,
    duration: nat,
    calendarSync: bool)

  /**
   * The body of the dashboard form's `POST /api/bookings`: the id is the
   * option's text, and `duration` is `None` when `Number` gives `NaN`.
   */
  datatype FormPayload = FormPayload(
    providerId: string,
    providerName: string,
    service: string,
    when: string,
    notes: string,
    duration: Option<nat>,
    calendarSync: bool)

  datatype Request =
    | Create(payload: Payload)                 // POST /api/bookings from the modal
    | CreateFromForm(body: FormPayload)        // POST /api/bookings from the dashboard form
    | ListBookings                             // GET /api/bookings
    | Reschedule(id: string, when: string)     // PUT /api/bookings/{id}
    | Cancel(id: string)                       // PUT /api/bookings/{id}/cancel
    | Delete(id: string)                       // DELETE /api/bookings/{id}
    | MarkComplete(id: string)                 // PUT /api/bookings/{id}/complete

  /** The alerts of this script. */
  datatype Notice =
    | SelectProvider                      // "Select a provider first."
    | ChooseDate                          // "Choose a date and time."
    | Confirmed                           // "✅ Booking confirmed!"
    | CreateFailed(reason: Http.Failure)  // "❌ Error creating booking: " + err.message
    | Created                             // "Booking created!"

  type ListReply = Http.Reply<Option<seq<Booking>>>

  // ---------------------------------------------------------- booking modal

  /** The modal's guards, in order: a provider is selected, then a date is chosen. */
  function ModalCheck(selected: Option<Provider>, date: string): (r: Option<Notice>)
    ensures selected.None? ==> r == Some(SelectProvider)
    ensures selected.Some? && date == "" ==> r == Some(ChooseDate)
    ensures r.None? <==> selected.Some? && date != ""
  {
    if selected.None? then Some(SelectProvider)
    else if date == "" then Some(ChooseDate)
    else None
  }

  /**
   * The modal's payload: the service falls back to the provider's name, the
   * duration to 60 minutes, and calendar sync is on exactly when Google
   * tokens were stored when the script loaded.
   */
  function ModalPayload(p: Provider, date: string, notes: string, googleTokens: Value): (r: Payload)
    ensures r.providerId == p.id && r.providerName == p.name && r.when == date && r.notes == Trim(notes)
    ensures r.service == (if p.service != "" then p.service else p.name)
    ensures r.duration == (if p.serviceDuration != 0 then p.serviceDuration else 60) && r.duration > 0
    ensures r.calendarSync <==> Truthy(googleTokens)
  {
    Payload(
      p.id,
      p.name,
      if p.service != "" then p.service else p.name,
      date,
      Trim(notes),
      if p.serviceDuration != 0 then p.serviceDuration else 60,
      Truthy(googleTokens))
  }

  // ------------------------------------------------------------ the list

  /**
   * What `loadBookings` sends: nothing unless `jwt.isLoggedIn()`, which
   * reads the token back through `storage.get`, else the list request.
   */
  function LoadRequests(store: Storage.Store): (r: seq<Request>)
    ensures r == [] <==> !Storage.IsLoggedIn(store)
    ensures r != [] ==> r == [ListBookings]
  {
    if Storage.IsLoggedIn(store) then [ListBookings] else []
  }

  /** `allBookings` after `loadBookings`: `bookings || []` from a good reply, else unchanged. */
  function BookingsAfterLoad(current: seq<Booking>, store: Storage.Store, reply: ListReply): (r: seq<Booking>)
    ensures !Storage.IsLoggedIn(store) || Http.UtilsOutcome(reply).Err? ==> r == current
    ensures Storage.IsLoggedIn(store) && Http.UtilsOutcome(reply).Ok? ==> r == ListOf(Http.UtilsOutcome(reply).value)
  {
    if Storage.IsLoggedIn(store) && Http.UtilsOutcome(reply).Ok? then ListOf(Http.UtilsOutcome(reply).value) else current
  }

  /** Without a stored token nothing is requested and the list stays as it is. */
  lemma NoLoadWithoutLogin(store: Storage.Store, current: seq<Booking>, reply: ListReply)
    requires "token" !in store || store["token"] == ""
    ensures LoadRequests(store) == [] && BookingsAfterLoad(current, store, reply) == current
  {
  }

  /** The load as intended: gated on the raw stored token, the way the home page reads it. */
  function CorrectedLoadRequests(store: Storage.Store): (r: seq<Request>)
    ensures r == [] <==> "token" !in store || store["token"] == ""
    ensures r != [] ==> r == [ListBookings]
  {
    Storage.LoggedInIff(store);
    if Storage.LoggedIn(store) then [ListBookings] else []
  }

  /**
   * With the server's JWT stored raw, as the login pages store it, the
   * script never loads the list, though the corrected load does.
   */
  lemma RawJwtNeverLoads(store: Storage.Store, current: seq<Booking>, reply: ListReply)
    ensures var s := Storage.SetItem(store, "token", Storage.SampleJwt);
      LoadRequests(s) == [] && BookingsAfterLoad(current, s, reply) == current &&
      CorrectedLoadRequests(s) == [ListBookings]
  {
    Storage.RawTokenNotLoggedIn(store);
  }

  /** A raw token "0" reads back as the number 0, which is falsy: no load, though a token is stored. */
  lemma RawZeroTokenNeverLoads(store: Storage.Store)
    ensures var s := Storage.SetItem(store, "token", "0");
      LoadRequests(s) == [] && CorrectedLoadRequests(s) == [ListBookings]
  {
    Storage.RawZeroTokenNotLoggedIn(store);
  }

  /** For a token written through `storage.set` the script and the corrected load agree. */
  lemma JsonTokenLoads(store: Storage.Store, token: string)
    ensures LoadRequests(Storage.Set(store, "token", Str(token))) == CorrectedLoadRequests(Storage.SetItem(store, "token", token))
    ensures LoadRequests(Storage.Set(store, "token", Str(token))) == if token != "" then [ListBookings] else []
  {
    Storage.LoggedInAgreesOnJsonTokens(store, token);
    Storage.LoggedInAfterStore(store, token);
  }

  /** The modal's inputs. */
  datatype Modal = Modal(selected: Option<Provider>, date: string, notes: string)

  /**
   * What one click on the modal's submit button leads to: its alert, and
   * the second alert the handler's `catch` shows when the reload after it
   * throws.
   */
  datatype Submitted = Submitted(alert: Notice, followUp: Option<Notice>, modal: Modal, sent: seq<Request>, bookings: seq<Booking>)

  /**
   * `loadBookings` without a session on the home page writes to
   * `upcomingBookings`, which this script never declares: the call rejects
   * with a `ReferenceError` carrying this message.
   */
  const UndeclaredList: Http.Failure := Http.Rejected("upcomingBookings is not defined")

  /**
   * The alert a reload after an accepted post adds: on the home page
   * (`isHomePage()`) without a session the reload throws into the
   * handler's `catch`; otherwise it adds none.
   */
  function ReloadAlert(home: bool, store: Storage.Store): (r: Option<Notice>)
    ensures r.Some? <==> home && LoadRequests(store) == []
    ensures r.Some? ==> r.value == CreateFailed(UndeclaredList)
  {
    if home && !Storage.IsLoggedIn(store) then Some(CreateFailed(UndeclaredList)) else None
  }

  /**
   * The modal's submit handler: a failed guard sends nothing; otherwise the
   * booking is posted, and only an accepted post resets the modal and
   * reloads. `home` is `isHomePage()`.
   */
  function Submit(m: Modal, googleTokens: Value, store: Storage.Store, home: bool, bookings: seq<Booking>, reply: Http.Reply<Value>, listReply: ListReply): (r: Submitted)
    ensures r.sent == [] <==> ModalCheck(m.selected, m.date).Some?
    ensures r.followUp.Some? ==> r.alert == Confirmed
  {
    match ModalCheck(m.selected, m.date)
    case Some(notice) => Submitted(notice, None, m, [], bookings)
    case None =>
      var create := Create(ModalPayload(m.selected.value, m.date, m.notes, googleTokens));
      match Http.UtilsOutcome(reply)
      case Ok(_) =>
        Submitted(Confirmed, ReloadAlert(home, store), Modal(None, "", ""), [create] + LoadRequests(store), BookingsAfterLoad(bookings, store, listReply))
      case Err(failure) =>
        Submitted(CreateFailed(failure), None, m, [create], bookings)
  }

  /** A failed guard shows its alert and leaves everything as it was. */
  lemma SubmitRejected(m: Modal, googleTokens: Value, store: Storage.Store, home: bool, bookings: seq<Booking>, reply: Http.Reply<Value>, listReply: ListReply)
    requires ModalCheck(m.selected, m.date).Some?
    ensures Submit(m, googleTokens, store, home, bookings, reply, listReply) == Submitted(ModalCheck(m.selected, m.date).value, None, m, [], bookings)
  {
  }

  /**
   * Past the guards the booking is posted first. An accepted post confirms,
   * resets the modal and reloads, and on the home page without a session
   * the reload's `ReferenceError` is reported after the confirmation; a
   * failed post reports why and keeps the modal.
   */
  lemma SubmitAccepted(m: Modal, googleTokens: Value, store: Storage.Store, home: bool, bookings: seq<Booking>, reply: Http.Reply<Value>, listReply: ListReply)
    requires ModalCheck(m.selected, m.date).None?
    ensures var r := Submit(m, googleTokens, store, home, bookings, reply, listReply);
      var create := Create(ModalPayload(m.selected.value, m.date, m.notes, googleTokens));
      if Http.UtilsOutcome(reply).Ok? then
        r.alert == Confirmed && r.modal == Modal(None, "", "") &&
        (r.followUp == Some(CreateFailed(UndeclaredList)) <==> home && !Storage.IsLoggedIn(store)) &&
        (r.followUp.None? <==> !home || Storage.IsLoggedIn(store)) &&
        r.sent == [create] + LoadRequests(store) && r.bookings == BookingsAfterLoad(bookings, store, listReply)
      else
        r.alert == CreateFailed(Http.UtilsOutcome(reply).error) && r.followUp.None? && r.modal == m && r.sent == [create] && r.bookings == bookings
  {
  }

  /**
   * On the home page, with the server's JWT stored raw as the login pages
   * store it, an accepted booking is confirmed and then reported as an
   * error: the reload throws on the undeclared `upcomingBookings`.
   */
  lemma HomeBookingAlertsTwice(m: Modal, googleTokens: Value, store: Storage.Store, bookings: seq<Booking>, reply: Http.Reply<Value>, listReply: ListReply)
    requires ModalCheck(m.selected, m.date).None? && Http.UtilsOutcome(reply).Ok?
    ensures var r := Submit(m, googleTokens, Storage.SetItem(store, "token", Storage.SampleJwt), true, bookings, reply, listReply);
      r.alert == Confirmed && r.followUp == Some(CreateFailed(UndeclaredList)) && |r.sent| == 1
  {
    Storage.RawTokenNotLoggedIn(store);
  }

  // ----------------------------------------------------- reload after write

  /** A write request, then the reload that follows once the server accepts it. */
  function WriteRequests(store: Storage.Store, request: Request, reply: Http.Reply<Value>): (r: seq<Request>)
    ensures |r| >= 1 && r[0] == request
  {
    [request] + if Http.UtilsOutcome(reply).Ok? then LoadRequests(store) else []
  }

  function BookingsAfterWrite(current: seq<Booking>, store: Storage.Store, reply: Http.Reply<Value>, listReply: ListReply): seq<Booking> {
    if Http.UtilsOutcome(reply).Ok? then BookingsAfterLoad(current, store, listReply) else current
  }

  /**
   * Every accepted write is followed by a list request (when logged in);
   * a rejected write sends nothing more and leaves the list as it was.
   */
  lemma WriteThenReload(store: Storage.Store, request: Request, current: seq<Booking>, reply: Http.Reply<Value>, listReply: ListReply)
    ensures Http.UtilsOutcome(reply).Ok? && Storage.IsLoggedIn(store) ==> WriteRequests(store, request, reply) == [request, ListBookings]
    ensures Http.UtilsOutcome(reply).Err? ==> WriteRequests(store, request, reply) == [request]
    ensures Http.UtilsOutcome(reply).Err? ==> BookingsAfterWrite(current, store, reply, listReply) == current
  {
  }

  /** `openReschedule`: a cancelled or empty prompt sends nothing. */
  function RescheduleRequest(id: string, input: Option<string>): (r: Option<Request>)
    ensures r.Some? <==> input.Some? && input.value != ""
    ensures r.Some? ==> r.value == Reschedule(id, input.value)
  {
    if input.None? || input.value == "" then None else Some(Reschedule(id, input.value))
  }

  // ------------------------------------------------------ the dashboard form

  /** One `<option>` of the dashboard's provider select. */
  datatype ProviderOption = ProviderOption(value: string, name: string, duration: string, text: string)

  /** The option for a provider: its id as text, its name, and its duration or 60. */
  function OptionFor(p: Provider): (r: ProviderOption)
    ensures r.value == IntToString(p.id) && r.name == p.name
    ensures r.duration == NatToString(if p.serviceDuration != 0 then p.serviceDuration else 60)
  {
    ProviderOption(
      IntToString(p.id),
      p.name,
      NatToString(if p.serviceDuration != 0 then p.serviceDuration else 60),
      p.name + " — " + p.category)
  }

  function Options(providers: seq<Provider>): (r: seq<ProviderOption>)
    ensures |r| == |providers|
    ensures forall i :: 0 <= i < |providers| ==> r[i] == OptionFor(providers[i])
  {
    seq(|providers|, i requires 0 <= i < |providers| => OptionFor(providers[i]))
  }

  /**
   * `Number(text)` for the texts an option can hold: a run of digits is its
   * value, the empty text is 0, anything else is `NaN` (`None`).
   */
  function NumberOf(text: string): (r: Option<nat>)
    ensures text == "" ==> r == Some(0)
    ensures r.Some? && text != "" ==> forall i :: 0 <= i < |text| ==> IsDigit(text[i])
  {
    if forall i :: 0 <= i < |text| ==> IsDigit(text[i]) then Some(Json.DigitsValue(text)) else None
  }

  /** The form's body: provider name and service both come from the option's name, the duration from its text. */
  function FormBody(option: ProviderOption, when: string, notes: string, googleTokens: Value): (r: FormPayload)
    ensures r.providerId == option.value && r.providerName == option.name && r.service == option.name
    ensures r.when == when && r.notes == notes && r.duration == NumberOf(option.duration)
    ensures r.calendarSync <==> Truthy(googleTokens)
  {
    FormPayload(option.value, option.name, option.name, when, notes, NumberOf(option.duration), Truthy(googleTokens))
  }

  /**
   * The duration survives its trip through the option's `data-duration`
   * text: the form posts the provider's duration, or 60 when it has none.
   */
  lemma FormDurationRoundTrip(p: Provider, when: string, notes: string, googleTokens: Value)
    ensures FormBody(OptionFor(p), when, notes, googleTokens).duration == Some(if p.serviceDuration != 0 then p.serviceDuration else 60)
  {
    var n := if p.serviceDuration != 0 then p.serviceDuration else 60;
    Json.DigitsOfNat(n);
  }

  /** The `forEach` of the dashboard's `loadProviders`: one option per provider, in order. */
  method BuildOptions(providers: seq<Provider>) returns (options: seq<ProviderOption>)
    ensures options == Options(providers)
  {
    options := [];
    var i := 0;
    while i < |providers|
      invariant 0 <= i <= |providers|
      invariant |options| == i
      invariant forall k :: 0 <= k < i ==> options[k] == OptionFor(providers[k])
    {
      options := options + [OptionFor(providers[i])];
      i := i + 1;
    }
  }

  /**
   * The body of `loadBookings` over values: nothing unless
   * `jwt.isLoggedIn()`, then the list request, and `bookings || []` from a
   * good reply (a failed request is only logged).
   */
  method LoadStep(store: Storage.Store, current: seq<Booking>, reply: ListReply) returns (sent: seq<Request>, bookings: seq<Booking>)
    ensures sent == LoadRequests(store) && bookings == BookingsAfterLoad(current, store, reply)
  {
    if !Storage.IsLoggedIn(store) {
      return [], current;
    }
    sent := [ListBookings];
    bookings := current;
    var outcome := Http.UtilsOutcome(reply);
    if outcome.Ok? {
      bookings := ListOf(outcome.value);
    }
  }

  // ------------------------------------------------------------- the page

  class Page {
    var store: Storage.Store
    /** `storage.get('googleTokens')`, read once when the script loads. */
    var googleTokens: Value
    var selectedProvider: Option<Provider>
    var bookDate: string
    var bookNotes: string
    var allBookings: seq<Booking>
    /** The dashboard's provider select: its options and its selected index (-1 for none). */
    var options: seq<ProviderOption>
    var selectedIndex: int
    var whenInput: string
    var notesInput: string
    var outbox: seq<Request>

    constructor(store: Storage.Store)
      ensures this.store == store && googleTokens == Storage.Get(store, "googleTokens", Null)
      ensures selectedProvider == None && bookDate == "" && bookNotes == "" && allBookings == []
      ensures options == [] && selectedIndex == -1 && whenInput == "" && notesInput == "" && outbox == []
    {
      this.store := store;
      googleTokens := Storage.Get(store, "googleTokens", Null);
      selectedProvider := None;
      bookDate := "";
      bookNotes := "";
      allBookings := [];
      options := [];
      selectedIndex := -1;
      whenInput := "";
      notesInput := "";
      outbox := [];
    }

    /** `openBookingModal(provider)` */
    method OpenBookingModal(p: Provider)
      modifies this
      ensures selectedProvider == Some(p)
      ensures store == old(store) && googleTokens == old(googleTokens) && bookDate == old(bookDate) && bookNotes == old(bookNotes)
      ensures allBookings == old(allBookings) && outbox == old(outbox)
      ensures options == old(options) && selectedIndex == old(selectedIndex) && whenInput == old(whenInput) && notesInput == old(notesInput)
    {
      selectedProvider := Some(p);
    }

    /** `resetBookingModal`: the date, the notes and the selected provider are cleared. */
    method ResetBookingModal()
      modifies this
      ensures selectedProvider == None && bookDate == "" && bookNotes == ""
      ensures store == old(store) && googleTokens == old(googleTokens) && allBookings == old(allBookings) && outbox == old(outbox)
      ensures options == old(options) && selectedIndex == old(selectedIndex) && whenInput == old(whenInput) && notesInput == old(notesInput)
    {
      bookDate := "";
      bookNotes := "";
      selectedProvider := None;
    }

    /** `loadBookings`: nothing unless `jwt.isLoggedIn()`; a failed request is only logged. */
    method LoadBookings(reply: ListReply)
      modifies this
      ensures outbox == old(outbox) + LoadRequests(old(store))
      ensures allBookings == BookingsAfterLoad(old(allBookings), old(store), reply)
      ensures store == old(store) && googleTokens == old(googleTokens) && selectedProvider == old(selectedProvider)
      ensures bookDate == old(bookDate) && bookNotes == old(bookNotes)
      ensures options == old(options) && selectedIndex == old(selectedIndex) && whenInput == old(whenInput) && notesInput == old(notesInput)
    {
      var sent, bookings := LoadStep(store, allBookings, reply);
      outbox := outbox + sent;
      allBookings := bookings;
    }

    /** The modal's submit button; `home` is `isHomePage()`. */
    method SubmitBooking(home: bool, reply: Http.Reply<Value>, listReply: ListReply) returns (alert: Notice, followUp: Option<Notice>)
      modifies this
      ensures var r := Submit(Modal(old(selectedProvider), old(bookDate), old(bookNotes)), old(googleTokens), old(store), home, old(allBookings), reply, listReply);
        alert == r.alert && followUp == r.followUp && Modal(selectedProvider, bookDate, bookNotes) == r.modal &&
        outbox == old(outbox) + r.sent && allBookings == r.bookings
      ensures store == old(store) && googleTokens == old(googleTokens)
      ensures options == old(options) && selectedIndex == old(selectedIndex) && whenInput == old(whenInput) && notesInput == old(notesInput)
    {
      ghost var m := Modal(selectedProvider, bookDate, bookNotes);
      ghost var before := outbox;
      var check := ModalCheck(selectedProvider, bookDate);
      followUp := None;
      if check.Some? {
        SubmitRejected(m, googleTokens, store, home, allBookings, reply, listReply);
        alert := check.value;
        return;
      }
      SubmitAccepted(m, googleTokens, store, home, allBookings, reply, listReply);
      var create := [Create(ModalPayload(selectedProvider.value, bookDate, bookNotes, googleTokens))];
      outbox := outbox + create;
      var outcome := Http.UtilsOutcome(reply);
      if outcome.Ok? {
        alert := Confirmed;
        followUp := ReloadAlert(home, store);
        ResetBookingModal();
        ghost var load := LoadRequests(store);
        LoadBookings(listReply);
        assert outbox == before + (create + load);
      } else {
        alert := CreateFailed(outcome.error);
      }
    }

    /** Sends a write, then reloads once the server has accepted it. */
    method Write(request: Request, reply: Http.Reply<Value>, listReply: ListReply)
      modifies this
      ensures outbox == old(outbox) + WriteRequests(old(store), request, reply)
      ensures allBookings == BookingsAfterWrite(old(allBookings), old(store), reply, listReply)
      ensures store == old(store) && googleTokens == old(googleTokens) && selectedProvider == old(selectedProvider)
      ensures bookDate == old(bookDate) && bookNotes == old(bookNotes)
      ensures options == old(options) && selectedIndex == old(selectedIndex) && whenInput == old(whenInput) && notesInput == old(notesInput)
    {
      outbox := outbox + [request];
      if Http.UtilsOutcome(reply).Ok? {
        LoadBookings(listReply);
        assert outbox == old(outbox) + ([request] + LoadRequests(store));
      }
    }

    /** `openReschedule(id)` with the prompt's answer (`None` when cancelled). */
    method OpenReschedule(id: string, input: Option<string>, reply: Http.Reply<Value>, listReply: ListReply)
      modifies this
      ensures RescheduleRequest(id, input).None? ==> outbox == old(outbox) && allBookings == old(allBookings)
      ensures RescheduleRequest(id, input).Some? ==>
        outbox == old(outbox) + WriteRequests(old(store), RescheduleRequest(id, input).value, reply) &&
        allBookings == BookingsAfterWrite(old(allBookings), old(store), reply, listReply)
      ensures store == old(store) && googleTokens == old(googleTokens) && selectedProvider == old(selectedProvider)
      ensures bookDate == old(bookDate) && bookNotes == old(bookNotes)
      ensures options == old(options) && selectedIndex == old(selectedIndex) && whenInput == old(whenInput) && notesInput == old(notesInput)
    {
      var request := RescheduleRequest(id, input);
      if request.Some? {
        Write(request.value, reply, listReply);
      }
    }

    /** `cancelBooking(id)` with the answer to the confirmation. */
    method CancelBooking(id: string, confirmed: bool, reply: Http.Reply<Value>, listReply: ListReply)
      modifies this
      ensures !confirmed ==> outbox == old(outbox) && allBookings == old(allBookings)
      ensures confirmed ==> outbox == old(outbox) + WriteRequests(old(store), Cancel(id), reply)
      ensures confirmed ==> allBookings == BookingsAfterWrite(old(allBookings), old(store), reply, listReply)
      ensures store == old(store) && googleTokens == old(googleTokens) && selectedProvider == old(selectedProvider)
      ensures bookDate == old(bookDate) && bookNotes == old(bookNotes)
      ensures options == old(options) && selectedIndex == old(selectedIndex) && whenInput == old(whenInput) && notesInput == old(notesInput)
    {
      if confirmed {
        Write(Cancel(id), reply, listReply);
      }
    }

    /** `deleteBooking(id)` with the answer to the confirmation. */
    method DeleteBooking(id: string, confirmed: bool, reply: Http.Reply<Value>, listReply: ListReply)
      modifies this
      ensures !confirmed ==> outbox == old(outbox) && allBookings == old(allBookings)
      ensures confirmed ==> outbox == old(outbox) + WriteRequests(old(store), Delete(id), reply)
      ensures confirmed ==> allBookings == BookingsAfterWrite(old(allBookings), old(store), reply, listReply)
      ensures store == old(store) && googleTokens == old(googleTokens) && selectedProvider == old(selectedProvider)
      ensures bookDate == old(bookDate) && bookNotes == old(bookNotes)
      ensures options == old(options) && selectedIndex == old(selectedIndex) && whenInput == old(whenInput) && notesInput == old(notesInput)
    {
      if confirmed {
        Write(Delete(id), reply, listReply);
      }
    }

    /** `markComplete(id)`: no confirmation is asked. */
    method CompleteBooking(id: string, reply: Http.Reply<Value>, listReply: ListReply)
      modifies this
      ensures outbox == old(outbox) + WriteRequests(old(store), MarkComplete(id), reply)
      ensures allBookings == BookingsAfterWrite(old(allBookings), old(store), reply, listReply)
      ensures store == old(store) && googleTokens == old(googleTokens) && selectedProvider == old(selectedProvider)
      ensures bookDate == old(bookDate) && bookNotes == old(bookNotes)
      ensures options == old(options) && selectedIndex == old(selectedIndex) && whenInput == old(whenInput) && notesInput == old(notesInput)
    {
      Write(MarkComplete(id), reply, listReply);
    }

    /**
     * The dashboard's `loadProviders`: the select gets one option per
     * provider and its first option is selected. A failed request throws,
     * which `ok == false` reports.
     */
    method LoadProviders(reply: Http.Reply<seq<Provider>>) returns (ok: bool)
      modifies this
      ensures ok <==> Http.UtilsOutcome(reply).Ok?
      ensures ok ==> options == Options(Http.UtilsOutcome(reply).value) && selectedIndex == (if options == [] then -1 else 0)
      ensures !ok ==> options == old(options) && selectedIndex == old(selectedIndex)
      ensures store == old(store) && googleTokens == old(googleTokens) && selectedProvider == old(selectedProvider)
      ensures bookDate == old(bookDate) && bookNotes == old(bookNotes) && allBookings == old(allBookings) && outbox == old(outbox)
      ensures whenInput == old(whenInput) && notesInput == old(notesInput)
    {
      var outcome := Http.UtilsOutcome(reply);
      if outcome.Err? {
        return false;
      }
      var built := BuildOptions(outcome.value);
      options := built;
      selectedIndex := if built == [] then -1 else 0;
      ok := true;
    }

    /** `DOMContentLoaded`: on the dashboard the providers load first, and a failure there stops the handler. */
    method Init(dashboard: bool, providersReply: Http.Reply<seq<Provider>>, listReply: ListReply)
      modifies this
      ensures dashboard && Http.UtilsOutcome(providersReply).Err? ==> outbox == old(outbox) && allBookings == old(allBookings)
      ensures dashboard && Http.UtilsOutcome(providersReply).Ok? ==> options == Options(Http.UtilsOutcome(providersReply).value)
      ensures !dashboard ==> options == old(options) && selectedIndex == old(selectedIndex)
      ensures !dashboard || Http.UtilsOutcome(providersReply).Ok? ==>
        outbox == old(outbox) + LoadRequests(old(store)) && allBookings == BookingsAfterLoad(old(allBookings), old(store), listReply)
      ensures store == old(store) && googleTokens == old(googleTokens) && selectedProvider == old(selectedProvider)
      ensures bookDate == old(bookDate) && bookNotes == old(bookNotes) && whenInput == old(whenInput) && notesInput == old(notesInput)
    {
      if dashboard {
        var ok := LoadProviders(providersReply);
        if !ok {
          return;
        }
      }
      LoadBookings(listReply);
    }

    /**
     * The dashboard form's submit handler. With no option selected it
     * throws before sending; a rejected post throws after sending, so
     * neither alert, reset nor reload follows.
     */
    method CreateFromDashboard(reply: Http.Reply<Value>, listReply: ListReply) returns (alert: Option<Notice>)
      modifies this
      ensures !(0 <= old(selectedIndex) < |old(options)|) ==>
        alert == None && outbox == old(outbox) && allBookings == old(allBookings) &&
        whenInput == old(whenInput) && notesInput == old(notesInput) && selectedIndex == old(selectedIndex)
      ensures 0 <= old(selectedIndex) < |old(options)| ==>
        var body := FormBody(old(options)[old(selectedIndex)], old(whenInput), old(notesInput), old(googleTokens));
        outbox == old(outbox) + WriteRequests(old(store), CreateFromForm(body), reply) &&
        allBookings == BookingsAfterWrite(old(allBookings), old(store), reply, listReply) &&
        (alert == Some(Created) <==> Http.UtilsOutcome(reply).Ok?) && (alert.None? <==> Http.UtilsOutcome(reply).Err?)
      ensures 0 <= old(selectedIndex) < |old(options)| && Http.UtilsOutcome(reply).Ok? ==>
        whenInput == "" && notesInput == "" && selectedIndex == 0
      ensures 0 <= old(selectedIndex) < |old(options)| && Http.UtilsOutcome(reply).Err? ==>
        whenInput == old(whenInput) && notesInput == old(notesInput) && selectedIndex == old(selectedIndex)
      ensures store == old(store) && googleTokens == old(googleTokens) && selectedProvider == old(selectedProvider)
      ensures bookDate == old(bookDate) && bookNotes == old(bookNotes) && options == old(options)
    {
      if !(0 <= selectedIndex < |options|) {
        return None;
      }
      var body := FormBody(options[selectedIndex], whenInput, notesInput, googleTokens);
      outbox := outbox + [CreateFromForm(body)];
      if Http.UtilsOutcome(reply).Err? {
        return None;
      }
      alert := Some(Created);
      whenInput := "";
      notesInput := "";
      selectedIndex := 0;
      ghost var st := store;
      LoadBookings(listReply);
      assert outbox == old(outbox) + ([CreateFromForm(body)] + LoadRequests(st));
    }
  }
}
