/**
 * The provider dashboard (provider-dashboard.js): the guard that admits
 * providers only, the booking list with its status filter and search,
 * the accept / decline / complete buttons, and the weekly availability
 * the save button gathers from the slot inputs. Requests go through the
 * page's own `apiFetch` (`Http.ProviderOutcome`).
 */
module ProviderDashboard {
  import opened Wrappers
  import opened Js
  import opened Booking
  import Seqs
  import Http
  import Json
  import Storage

  /**
   * The text the guard parses: `localStorage.getItem("user") || "{}"`, so a
   * missing or empty record reads as an object without members.
   */
  function UserText(store: Storage.Store): string {
    if "user" in store && store["user"] != "" then store["user"] else "{}"
  }

  /**
   * The guard run when the script loads, given the stored token and the
   * parsed user record: a non-empty token, a truthy record, and that
   * record's `role` equal to "provider".
   */
  function Allowed(token: Option<string>, user: Value): (r: bool)
    ensures r <==> token.Some? && token.value != "" && Json.Member(user, "role") == Str("provider")
  {
    token.Some? && token.value != "" && Truthy(user) && Json.Member(user, "role") == Str("provider")
  }

  /** What the script's start leaves: whether it stopped at the parse, and whether it redirects. */
  datatype Start = Start(halted: bool, redirected: bool)

  /**
   * The start of provider-dashboard.js. A missing or empty record is read
   * as "{}", which has no `role` and so always redirects (StartupSpec).
   */
  function Startup(store: Storage.Store): (r: Start)
    ensures r.halted ==> "user" in store && store["user"] != ""
    ensures !r.halted && !r.redirected ==> Storage.GetItem(store, "token").Some? && Storage.GetItem(store, "token").value != ""
  {
    if "user" in store && store["user"] != "" then
      match Storage.ParseItem(store, "user")
      case None => Start(true, false)
      case Some(user) => Start(false, !Allowed(Storage.GetItem(store, "token"), user))
    else Start(false, true)
  }

  /**
   * Loading the page: the script reads the token and the user record, runs
   * the guard, and leaves a page with nothing cached, no filter or search,
   * and no request sent.
   */
  method Open(store: Storage.Store) returns (page: Page)
    ensures fresh(page)
    ensures page.halted == Startup(store).halted && page.redirected == Startup(store).redirected
    ensures page.bookingsCache == [] && page.filter == "" && page.search == "" && page.outbox == []
  {
    page := new Page(Startup(store));
  }

  /** `Startup` is the parse of `getItem("user") || "{}"` followed by the guard. */
  lemma StartupSpec(store: Storage.Store)
    ensures Startup(store).halted <==> Json.Parse(UserText(store)).None?
    ensures Startup(store).redirected <==> !Startup(store).halted && !Allowed(Storage.GetItem(store, "token"), Json.Parse(UserText(store)).value)
  {
    if !("user" in store && store["user"] != "") {
      NoRecordNoAccess(store, Storage.GetItem(store, "token"));
    }
  }

  /** Without a stored user record nobody is admitted, whatever the token; nor with a `null` one. */
  lemma NoRecordNoAccess(store: Storage.Store, token: Option<string>)
    requires "user" !in store || store["user"] == ""
    ensures Json.Parse(UserText(store)).Some? && !Allowed(token, Json.Parse(UserText(store)).value)
    ensures !Allowed(token, Null)
  {
    Json.ParseEmptyObject("{}", "role");
  }

  /**
   * A record holding one `role` member, as `JSON.stringify` writes it,
   * passes the guard with a non-empty token exactly when the role is "provider".
   */
  lemma RoleRecordAllowed(token: string, role: string)
    ensures var text := "{" + ("\"" + "role" + "\"" + (":" + ("\"" + Json.QuoteBody(role) + "\"" + "}")));
      Json.Parse(text).Some? &&
      (Allowed(Some(token), Json.Parse(text).value) <==> token != "" && role == "provider")
  {
    Json.QuoteBodyPlain("role");
    Json.OneMemberRecord("role", role);
  }

  /** The bare user name chat.js stores is not JSON: the script stops at the parse. */
  lemma BareNameHalts(store: Storage.Store, name: string)
    requires name != [] && ('a' <= name[0] <= 'z' || 'A' <= name[0] <= 'Z') && name[0] !in "nft"
    ensures Json.Parse(UserText(Storage.SetItem(store, "user", name))).None?
  {
    Json.ParseRejects(name);
  }

  // ------------------------------------------------------------ availability

  /** One time slot; `from` and `to` are the texts of the two time inputs. */
  datatype Slot = Slot(from: string, to: string)

  /** One day's `.slots` container: its `data-day`, and the values of its from and to inputs in order. */
  datatype DayRow = DayRow(day: string, froms: seq<string>, tos: seq<string>)

  /** `if (from && to)`: a slot is saved only when both ends are filled in. */
  predicate Filled(s: Slot) {
    s.from != "" && s.to != ""
  }

  /** The slots as the inputs pair them: the i-th from with the i-th to. */
  function Pairs(froms: seq<string>, tos: seq<string>): (r: seq<Slot>)
    requires |froms| <= |tos|
    ensures |r| == |froms|
    ensures forall i :: 0 <= i < |froms| ==> r[i] == Slot(froms[i], tos[i])
  {
    seq(|froms|, i requires 0 <= i < |froms| => Slot(froms[i], tos[i]))
  }

  /** The filled slots among the first `|froms|` pairs, in input order. */
  function Kept(froms: seq<string>, tos: seq<string>): seq<Slot>
    requires |froms| <= |tos|
    decreases |froms|
  {
    if froms == [] then []
    else
      var n := |froms| - 1;
      Kept(froms[..n], tos) + (if Filled(Slot(froms[n], tos[n])) then [Slot(froms[n], tos[n])] else [])
  }

  /**
   * A day's saved slots, or `None` when a from input has no to input at
   * the same position (the lookup throws and the save fails).
   */
  function SlotsOf(row: DayRow): (r: Option<seq<Slot>>)
    ensures r.None? <==> |row.tos| < |row.froms|
  {
    if |row.tos| < |row.froms| then None else Some(Kept(row.froms, row.tos))
  }

  /** The saved slots are exactly the filled pairs, in input order. */
  lemma {:induction false} KeptIsFilter(froms: seq<string>, tos: seq<string>)
    requires |froms| <= |tos|
    ensures Kept(froms, tos) == Seqs.Filter(Pairs(froms, tos), Filled)
    decreases |froms|
  {
    if froms != [] {
      var n := |froms| - 1;
      KeptIsFilter(froms[..n], tos);
      PairsSnoc(froms, tos);
      Seqs.FilterSnoc(Pairs(froms[..n], tos), Slot(froms[n], tos[n]), Filled);
    }
  }

  lemma PairsSnoc(froms: seq<string>, tos: seq<string>)
    requires 0 < |froms| <= |tos|
    ensures var n := |froms| - 1;
      Pairs(froms, tos) == Pairs(froms[..n], tos) + [Slot(froms[n], tos[n])]
  {
  }

  /** Every saved slot is a filled pair of the inputs, every filled pair is saved, and input order is kept. */
  lemma SlotsOfSpec(row: DayRow)
    requires |row.froms| <= |row.tos|
    ensures var kept := SlotsOf(row).value;
      Seqs.IsSubsequence(kept, Pairs(row.froms, row.tos)) &&
      (forall s :: s in kept ==> Filled(s)) &&
      (forall i :: 0 <= i < |row.froms| && row.froms[i] != "" && row.tos[i] != "" ==> Slot(row.froms[i], row.tos[i]) in kept)
  {
    KeptIsFilter(row.froms, row.tos);
    var pairs := Pairs(row.froms, row.tos);
    forall i | 0 <= i < |row.froms| && row.froms[i] != "" && row.tos[i] != ""
      ensures Slot(row.froms[i], row.tos[i]) in SlotsOf(row).value
    {
      assert pairs[i] in pairs;
    }
  }

  /** The payload of the save: `payload[day] = slots` for each container in page order. */
  function Gather(grid: seq<DayRow>): Option<map<string, seq<Slot>>>
    decreases |grid|
  {
    if grid == [] then Some(map[])
    else
      var n := |grid| - 1;
      match Gather(grid[..n])
      case None => None
      case Some(payload) =>
        match SlotsOf(grid[n])
        case None => None
        case Some(slots) => Some(payload[grid[n].day := slots])
  }

  /** A save that failed on one container fails as a whole. */
  lemma {:induction false} GatherPrefixFails(grid: seq<DayRow>, k: nat)
    requires k <= |grid| && Gather(grid[..k]).None?
    ensures Gather(grid).None?
    decreases |grid| - k
  {
    if k < |grid| {
      var next := grid[..k + 1];
      assert next[..k] == grid[..k];
      GatherPrefixFails(grid, k + 1);
    } else {
      assert grid[..k] == grid;
    }
  }

  predicate DistinctDays(grid: seq<DayRow>) {
    forall i, j :: 0 <= i < j < |grid| ==> grid[i].day != grid[j].day
  }

  /** One more complete container adds its day's filled slots to the payload. */
  lemma GatherStep(grid: seq<DayRow>)
    requires grid != [] && Gather(grid[..|grid| - 1]).Some?
    requires |grid[|grid| - 1].froms| <= |grid[|grid| - 1].tos|
    ensures var last := grid[|grid| - 1];
      Gather(grid) == Some(Gather(grid[..|grid| - 1]).value[last.day := Kept(last.froms, last.tos)])
  {
  }

  predicate Complete(grid: seq<DayRow>) {
    forall i :: 0 <= i < |grid| ==> |grid[i].froms| <= |grid[i].tos|
  }

  /** A save over complete containers succeeds. */
  lemma {:induction false} GatherDefined(grid: seq<DayRow>)
    requires Complete(grid)
    ensures Gather(grid).Some?
    decreases |grid|
  {
    if grid != [] {
      var n := |grid| - 1;
      assert forall i :: 0 <= i < n ==> grid[..n][i] == grid[i];
      GatherDefined(grid[..n]);
    }
  }

  /** A payload, once gathered, has the containers' days as its keys, and no others. */
  lemma {:induction false} GatherDays(grid: seq<DayRow>)
    requires Gather(grid).Some?
    ensures forall i :: 0 <= i < |grid| ==> grid[i].day in Gather(grid).value
    ensures forall d :: d in Gather(grid).value ==> exists i :: 0 <= i < |grid| && grid[i].day == d
    decreases |grid|
  {
    if grid != [] {
      var n := |grid| - 1;
      var init := grid[..n];
      var payload := Gather(init).value;
      var full := Gather(grid).value;
      assert full == payload[grid[n].day := SlotsOf(grid[n]).value];
      GatherDays(init);
      forall i | 0 <= i < |grid|
        ensures grid[i].day in full
      {
        if i < n {
          assert init[i] == grid[i];
        }
      }
      forall d | d in full
        ensures exists i :: 0 <= i < |grid| && grid[i].day == d
      {
        if d != grid[n].day {
          var i :| 0 <= i < |init| && init[i].day == d;
          assert grid[i].day == d;
        }
      }
    }
  }

  /** With one container per day, each day's entry holds that container's filled slots. */
  lemma {:induction false} GatherValues(grid: seq<DayRow>)
    requires Gather(grid).Some? && DistinctDays(grid)
    ensures forall i :: 0 <= i < |grid| ==> grid[i].day in Gather(grid).value && SlotsOf(grid[i]) == Some(Gather(grid).value[grid[i].day])
    decreases |grid|
  {
    if grid != [] {
      var n := |grid| - 1;
      var init := grid[..n];
      var payload := Gather(init).value;
      var full := Gather(grid).value;
      assert Some(full) == (if SlotsOf(grid[n]).Some? then Some(payload[grid[n].day := SlotsOf(grid[n]).value]) else None);
      assert DistinctDays(init) by {
        forall i, j | 0 <= i < j < |init| ensures init[i].day != init[j].day {
          assert init[i] == grid[i] && init[j] == grid[j];
        }
      }
      GatherValues(init);
      forall i | 0 <= i < n
        ensures grid[i].day in full && SlotsOf(grid[i]) == Some(full[grid[i].day])
      {
        assert init[i] == grid[i];
      }
    }
  }

  /**
   * With one container per day and every slot complete, the payload has
   * exactly one entry per day, holding that day's filled slots.
   */
  lemma GatherSpec(grid: seq<DayRow>)
    requires DistinctDays(grid) && Complete(grid)
    ensures Gather(grid).Some?
    ensures forall i :: 0 <= i < |grid| ==> grid[i].day in Gather(grid).value
    ensures forall i :: 0 <= i < |grid| ==> Gather(grid).value[grid[i].day] == Kept(grid[i].froms, grid[i].tos)
    ensures forall d :: d in Gather(grid).value ==> exists i :: 0 <= i < |grid| && grid[i].day == d
  {
    GatherDefined(grid);
    GatherDays(grid);
    GatherValues(grid);
  }

  /** The save button's gathering: one pass over the containers, and within each over its from inputs. */
  method GatherAvailability(grid: seq<DayRow>) returns (payload: Option<map<string, seq<Slot>>>)
    ensures payload == Gather(grid)
  {
    var acc: map<string, seq<Slot>> := map[];
    var i := 0;
    while i < |grid|
      invariant 0 <= i <= |grid|
      invariant Gather(grid[..i]) == Some(acc)
    {
      var row := grid[i];
      var slots: seq<Slot> := [];
      var j := 0;
      while j < |row.froms|
        invariant 0 <= j <= |row.froms| && j <= |row.tos|
        invariant slots == Kept(row.froms[..j], row.tos)
      {
        if j >= |row.tos| {
          assert grid[..i + 1][..i] == grid[..i];
          GatherPrefixFails(grid, i + 1);
          return None;
        }
        var from := row.froms[j];
        var to := row.tos[j];
        if from != "" && to != "" {
          slots := slots + [Slot(from, to)];
        }
        assert row.froms[..j + 1][..j] == row.froms[..j];
        j := j + 1;
      }
      assert row.froms[..j] == row.froms;
      assert grid[..i + 1][..i] == grid[..i];
      acc := acc[row.day := slots];
      i := i + 1;
    }
    assert grid[..i] == grid;
    payload := Some(acc);
  }

  // -------------------------------------------------------------- the page

  datatype Request =
    | ListBookings(query: string)            // GET /api/providers/bookings?{query}
    | Act(id: string, action: Action)        // PUT /api/providers/bookings/{id}/{ActionPath(action)}
    | SaveAvailability(payload: map<string, seq<Slot>>)  // PUT /api/providers/me/availability

  datatype Notice =
    | Unauthorized                          // "Unauthorized — provider login required"
    | Done(action: Action)                  // "Booking accepted" / "Booking declined" / "Marked completed"
    | ActionFailed(action: Action, reason: Http.Failure)  // "Failed to accept: " + err.message, ...
    | AvailabilitySaved                     // "Availability saved"
    | SaveFailed(cause: Option<Http.Failure>)  // "Save failed: " + err.message; `None` for the gathering's own error

  type ListReply = Http.Reply<Option<seq<Booking>>>

  class Page {
    /**
     * `JSON.parse` of the user record threw: the script stopped there, so
     * the page neither alerts nor redirects and no handler is attached.
     */
    var halted: bool
    var redirected: bool
    /** The bookings of the last good list reply. */
    var bookingsCache: seq<Booking>
    /** The status selector and the search box. */
    var filter: string
    var search: string
    var outbox: seq<Request>

    /** A page in the state the script's start left: `start` is what `Startup` read. */
    constructor(start: Start)
      ensures halted == start.halted && redirected == start.redirected
      ensures bookingsCache == [] && filter == "" && search == "" && outbox == []
    {
      halted := start.halted;
      redirected := start.redirected;
      bookingsCache := [];
      filter := "";
      search := "";
      outbox := [];
    }

    /** The bookings on screen: the cached list under the current search. */
    function Shown(): seq<Booking>
      reads this
    {
      SearchBookings(bookingsCache, search)
    }

    /** Typing in the search box filters the cached list again, without a request. */
    method SetSearch(text: string)
      requires !halted
      modifies this
      ensures search == text && Shown() == SearchBookings(bookingsCache, text)
      ensures bookingsCache == old(bookingsCache) && filter == old(filter) && outbox == old(outbox) && redirected == old(redirected) && halted == old(halted)
    {
      search := text;
    }

    /** `loadBookings`: the status parameter only for a real status; a failed request keeps the cache. */
    method LoadBookings(reply: ListReply)
      requires !halted
      modifies this
      ensures outbox == old(outbox) + [ListBookings(QueryString(old(filter)))]
      ensures Http.ProviderOutcome(reply).Ok? ==> bookingsCache == ListOf(Http.ProviderOutcome(reply).value)
      ensures Http.ProviderOutcome(reply).Err? ==> bookingsCache == old(bookingsCache)
      ensures filter == old(filter) && search == old(search) && redirected == old(redirected) && halted == old(halted)
    {
      outbox := outbox + [ListBookings(QueryString(filter))];
      var outcome := Http.ProviderOutcome(reply);
      if outcome.Ok? {
        bookingsCache := ListOf(outcome.value);
      }
    }

    /** Changing the status selector reloads the list. */
    method SetFilter(status: string, reply: ListReply)
      requires !halted
      modifies this
      ensures filter == status
      ensures outbox == old(outbox) + [ListBookings(QueryString(status))]
      ensures Http.ProviderOutcome(reply).Ok? ==> bookingsCache == ListOf(Http.ProviderOutcome(reply).value)
      ensures Http.ProviderOutcome(reply).Err? ==> bookingsCache == old(bookingsCache)
      ensures search == old(search) && redirected == old(redirected) && halted == old(halted)
    {
      filter := status;
      LoadBookings(reply);
    }

    /**
     * `handleAccept`, `handleDecline` and `handleComplete`: ask, send the
     * action, and on success alert and reload; a failure alerts its message.
     */
    method HandleAction(id: string, action: Action, confirmed: bool, reply: Http.Reply<Value>, listReply: ListReply) returns (alert: Option<Notice>)
      requires !halted
      modifies this
      ensures !confirmed ==> alert == None && outbox == old(outbox) && bookingsCache == old(bookingsCache)
      ensures confirmed && Http.ProviderOutcome(reply).Err? ==>
        alert == Some(ActionFailed(action, Http.ProviderOutcome(reply).error)) &&
        outbox == old(outbox) + [Act(id, action)] && bookingsCache == old(bookingsCache)
      ensures confirmed && Http.ProviderOutcome(reply).Ok? ==>
        alert == Some(Done(action)) && outbox == old(outbox) + [Act(id, action), ListBookings(QueryString(old(filter)))]
      ensures confirmed && Http.ProviderOutcome(reply).Ok? && Http.ProviderOutcome(listReply).Ok? ==>
        bookingsCache == ListOf(Http.ProviderOutcome(listReply).value)
      ensures confirmed && Http.ProviderOutcome(reply).Ok? && Http.ProviderOutcome(listReply).Err? ==>
        bookingsCache == old(bookingsCache)
      ensures filter == old(filter) && search == old(search) && redirected == old(redirected) && halted == old(halted)
    {
      if !confirmed {
        return None;
      }
      outbox := outbox + [Act(id, action)];
      var outcome := Http.ProviderOutcome(reply);
      if outcome.Err? {
        return Some(ActionFailed(action, outcome.error));
      }
      alert := Some(Done(action));
      LoadBookings(listReply);
    }

    /** The availability save button. */
    method SaveAvailabilityClicked(grid: seq<DayRow>, reply: Http.Reply<Value>) returns (alert: Notice)
      requires !halted
      modifies this
      ensures Gather(grid).None? ==> alert == SaveFailed(None) && outbox == old(outbox)
      ensures Gather(grid).Some? ==> outbox == old(outbox) + [SaveAvailability(Gather(grid).value)]
      ensures Gather(grid).Some? && Http.ProviderOutcome(reply).Ok? ==> alert == AvailabilitySaved
      ensures Gather(grid).Some? && Http.ProviderOutcome(reply).Err? ==> alert == SaveFailed(Some(Http.ProviderOutcome(reply).error))
      ensures bookingsCache == old(bookingsCache) && filter == old(filter) && search == old(search) && redirected == old(redirected) && halted == old(halted)
    {
      var payload := GatherAvailability(grid);
      if payload.None? {
        return SaveFailed(None);
      }
      outbox := outbox + [SaveAvailability(payload.value)];
      var outcome := Http.ProviderOutcome(reply);
      alert := if outcome.Ok? then AvailabilitySaved else SaveFailed(Some(outcome.error));
    }
  }
}
