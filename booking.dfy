/**
 * Booking records and the rules the dashboards apply to them: status
 * defaults, labels and toggles (dashboard.js), offered actions, status
 * classes, search and the status query (provider-dashboard.js), and the
 * 24-hour reminder window (auth.js).
 */
module Booking {
  import opened Wrappers
  import opened Js
  import opened Text
  import Seqs

  /**
   * A booking as the server sends it. A missing text field is "" except
   * `service`, whose absence shows up as "undefined" in the search text;
   * `at` is `when` as milliseconds since the epoch, `None` when it is not a date.
   */
  datatype Booking = Booking(
    id: string,
    providerId: string,
    provider: string,
    service: Option<string>,
    when: string,
    at: Option<int>,
    notes: string,
    status: string,
    customerName: string,
    customerEmail: string)

  /**
   * A reply to a request for the booking list: `NoList` when the request
   * failed or its body was not JSON, otherwise the body's `bookings` field,
   * `None` when it is missing.
   */
  datatype ListReply = NoList | Listed(bookings: Option<seq<Booking>>)

  /** `data.bookings || []` */
  function ListOf(bookings: Option<seq<Booking>>): seq<Booking> {
    match bookings
    case None => []
    case Some(list) => list
  }

  // ------------------------------------------------------ provider dashboard

  /** The buttons a provider sees on a booking card. */
  datatype Action = Accept | Decline | Complete

  /** Pending bookings offer accept and decline, scheduled ones mark-complete, all others nothing. */
  function OfferedActions(status: string): (r: seq<Action>)
    ensures Seqs.NoDuplicates(r)
    ensures Accept in r <==> status == "pending"
    ensures Decline in r <==> status == "pending"
    ensures Complete in r <==> status == "scheduled"
    ensures r == [] <==> status != "pending" && status != "scheduled"
  {
    if status == "pending" then [Accept, Decline]
    else if status == "scheduled" then [Complete]
    else []
  }

  /** The endpoint an action calls, below `/providers/bookings/{id}/`. */
  function ActionPath(a: Action): string {
    match a
    case Accept => "accept"
    case Decline => "decline"
    case Complete => "complete"
  }

  /** Different actions call different endpoints. */
  lemma ActionPathInjective(a: Action, b: Action)
    requires ActionPath(a) == ActionPath(b)
    ensures a == b
  {
  }

  /** `statusClass(status)`: "" for a falsy status, `status-<status>` otherwise. */
  function StatusClass(status: string): (r: string)
    ensures r == "" <==> status == ""
    ensures status != "" ==> |r| == 7 + |status| && r[..7] == "status-" && r[7..] == status
  {
    if status == "" then "" else "status-" + status
  }

  /** Different statuses get different classes. */
  lemma StatusClassInjective(a: string, b: string)
    requires StatusClass(a) == StatusClass(b)
    ensures a == b
  {
    if a != "" && b != "" {
      assert StatusClass(a)[7..] == a;
    }
  }

  /** The text `renderBookings` searches: `` `${service} ${customerName || ""} ${customerEmail || ""}` `` */
  function SearchText(b: Booking): string {
    ToStr(if b.service.Some? then Str(b.service.value) else Undefined) + " " + b.customerName + " " + b.customerEmail
  }

  predicate Matches(b: Booking, term: string) {
    term == "" || Contains(ToLower(SearchText(b)), term)
  }

  /** The bookings a provider's search shows: all for an empty term, else those whose lower-cased text contains the lower-cased term. */
  function SearchBookings(list: seq<Booking>, search: string): (r: seq<Booking>)
    ensures Seqs.IsSubsequence(r, list)
    ensures forall b :: b in r <==> b in list && (search == "" || Contains(ToLower(SearchText(b)), ToLower(search)))
  {
    var term := ToLower(search);
    Seqs.Filter(list, (b: Booking) => Matches(b, term))
  }

  lemma SearchEmptyKeepsAll(list: seq<Booking>)
    ensures SearchBookings(list, "") == list
  {
    Seqs.FilterAll(list, (b: Booking) => Matches(b, ToLower("")));
  }

  /** A booking without a service is found by searching for "undefined". */
  lemma SearchFindsUndefinedService(b: Booking)
    requires b.service.None?
    ensures b in SearchBookings([b], "undefined")
  {
    var text := ToLower(SearchText(b));
    assert text[..9] == "undefined";
    ContainsIff(text, "undefined");
    assert "undefined" <= text[0..];
  }

  /** The `status` query parameter `loadBookings` sends, if any. */
  function StatusQuery(filter: string): (r: Option<string>)
    ensures r.Some? <==> filter != "" && filter != "all"
    ensures r.Some? ==> r.value == filter
  {
    if filter != "" && filter != "all" then Some(filter) else None
  }

  /** The query string built from the parameter, without URL encoding. */
  function QueryString(filter: string): (r: string)
    ensures r == "" <==> StatusQuery(filter).None?
    ensures StatusQuery(filter).Some? ==> r == "status=" + filter
  {
    match StatusQuery(filter)
    case None => ""
    case Some(s) => "status=" + s
  }

  // ------------------------------------------------------ customer dashboard

  /** `b.status || "scheduled"` */
  function DisplayStatus(status: string): (r: string)
    ensures r != ""
    ensures status != "" ==> r == status
    ensures status == "" ==> r == "scheduled"
  {
    if status == "" then "scheduled" else status
  }

  /** The status the toggle button sends. */
  function ToggleTarget(status: string): (r: string)
    ensures r == "scheduled" || r == "completed"
    ensures r == "scheduled" <==> status == "completed"
  {
    if status == "completed" then "scheduled" else "completed"
  }

  /** The toggle button's text. */
  function ToggleText(status: string): (r: string)
    ensures r == "Undo" <==> status == "completed"
  {
    if status == "completed" then "Undo" else "Mark Completed"
  }

  /** Two clicks bring a completed or scheduled booking back where it was. */
  lemma ToggleTwice(status: string)
    requires status == "completed" || status == "scheduled"
    ensures ToggleTarget(ToggleTarget(status)) == status
  {
  }

  /** A booking shown without a status is offered "Mark Completed" and is sent "completed". */
  lemma ToggleMissingStatus()
    ensures ToggleTarget(DisplayStatus("")) == "completed"
    ensures ToggleText(DisplayStatus("")) == "Mark Completed"
  {
  }

  /** The button offers "Undo" exactly when clicking it sends "scheduled". */
  lemma ToggleTextMatchesTarget(status: string)
    ensures ToggleText(status) == "Undo" <==> ToggleTarget(status) == "scheduled"
  {
  }

  /** `b.when.slice(0, 16)`: the date part the edit form shows. */
  function EditDate(when: string): (r: string)
    ensures |r| <= 16 && r <= when
    ensures |when| >= 16 ==> |r| == 16
  {
    if |when| <= 16 then when else when[..16]
  }

  // ------------------------------------------------------------- reminders

  /** One day in milliseconds. */
  const DayMs: int := 24 * 60 * 60 * 1000

  /**
   * `0 < diffHours <= 24`, where `diffHours = (new Date(b.when) - now) / 3600000`:
   * the booking starts within the next day; a date that does not parse never qualifies.
   */
  predicate DueSoon(b: Booking, now: int) {
    b.at.Some? && 0 < b.at.value - now <= DayMs
  }

  /** The bookings a load sends a reminder for, in list order. */
  function ReminderTargets(list: seq<Booking>, now: int): seq<Booking> {
    Seqs.Filter(list, (b: Booking) => DueSoon(b, now))
  }

  /** The reminders go, in list order, to exactly the bookings due within a day. */
  lemma ReminderTargetsSpec(list: seq<Booking>, now: int)
    ensures Seqs.IsSubsequence(ReminderTargets(list, now), list)
    ensures forall b :: b in ReminderTargets(list, now) <==> b in list && DueSoon(b, now)
  {
  }

  /** The reminders for two lists one after the other are the reminders of each. */
  lemma ReminderTargetsAppend(a: seq<Booking>, b: seq<Booking>, now: int)
    ensures ReminderTargets(a + b, now) == ReminderTargets(a, now) + ReminderTargets(b, now)
  {
    Seqs.FilterAppend(a, b, (x: Booking) => DueSoon(x, now));
  }

  /** A booking exactly 24 hours away still gets a reminder; one starting now does not. */
  lemma ReminderBounds(b: Booking, now: int)
    ensures b.at == Some(now + DayMs) ==> DueSoon(b, now)
    ensures b.at == Some(now) ==> !DueSoon(b, now)
    ensures b.at == Some(now + DayMs + 1) ==> !DueSoon(b, now)
  {
  }
}
