/**
 * The wallet page (wallet.js): a table of users with unique names, each
 * with a balance and an append-only list of transactions; top-ups and
 * service bookings change the balance of the signed-in user, and the
 * history view, the low-balance flag, the CSV export and the admin's
 * per-service booking counts are computed from that table.
 *
 * Money is in integer cents (`parseFloat` of the amount boxes becomes
 * `Option<int>`, `None` for NaN); the transaction date is the
 * `toLocaleString()` text, passed in.
 */
module Wallet {
  import opened Wrappers
  import opened Text
  import Js
  import Seqs

  /** `LOW_BALANCE_THRESHOLD`, 50 dollars. */
  const LowBalanceThreshold := 5000

  datatype Kind = Added | BookedService

  /** The `type` text stored with a transaction. */
  function KindName(k: Kind): (r: string)
    ensures r == "Added" <==> k == Added
  {
    match k
    case Added => "Added"
    case BookedService => "Booked Service"
  }

  /** A top-up has no service (`undefined`); a booking carries the selected service's name. */
  datatype Transaction = Transaction(kind: Kind, service: Option<string>, amount: int, date: string)

  datatype User = User(username: string, password: string, balance: int, transactions: seq<Transaction>, isAdmin: bool)

  datatype Service = Service(name: string, price: int)

  datatype Notice =
    | EnterCredentials    // "Enter username & password"
    | UsernameExists      // "Username exists"
    | Registered          // "User registered"
    | InvalidCredentials  // "Invalid credentials"
    | InvalidAmount       // "Invalid amount"
    | Insufficient        // "Insufficient balance"
    | AddedMoney(amount: int)                   // "Added $" + amount
    | BookedFor(service: string, amount: int)   // "Booked " + service + " for $" + amount
    | NoTransactions      // "No transactions"
    | InvalidService      // "Invalid service"
    | NoSession           // the handler throws: no signed-in user is found

  // ------------------------------------------------------------ the user table

  /** `users.find(u => u.username === name)`, as the index of the first match. */
  function Find(users: seq<User>, name: string): (r: Option<nat>)
    ensures r.Some? ==> r.value < |users| && users[r.value].username == name
    ensures r.Some? ==> forall j :: 0 <= j < r.value ==> users[j].username != name
    ensures r.None? <==> forall j :: 0 <= j < |users| ==> users[j].username != name
  {
    if users == [] then None
    else if users[0].username == name then Some(0)
    else match Find(users[1..], name)
      case None => None
      case Some(k) => Some(k + 1)
  }

  predicate UniqueNames(users: seq<User>) {
    forall i, j :: 0 <= i < j < |users| ==> users[i].username != users[j].username
  }

  /** With unique names, the first match is the only one. */
  lemma FindUnique(users: seq<User>, name: string, i: nat)
    requires UniqueNames(users) && i < |users| && users[i].username == name
    ensures Find(users, name) == Some(i)
  {
  }

  // --------------------------------------------------------------- the ledger

  /** The sum of the amounts of the transactions of one kind. */
  function Total(txs: seq<Transaction>, k: Kind): int
    decreases |txs|
  {
    if txs == [] then 0
    else
      var n := |txs| - 1;
      Total(txs[..n], k) + (if txs[n].kind == k then txs[n].amount else 0)
  }

  /** What every user record the wallet writes satisfies: balance = added − booked, never negative, positive amounts. */
  predicate Sound(u: User) {
    && u.balance == Total(u.transactions, Added) - Total(u.transactions, BookedService)
    && u.balance >= 0
    && forall i :: 0 <= i < |u.transactions| ==> u.transactions[i].amount > 0
  }

  predicate Valid(users: seq<User>) {
    UniqueNames(users) && forall i :: 0 <= i < |users| ==> Sound(users[i])
  }

  /** The record `register` pushes. */
  function NewUser(username: string, password: string): (u: User)
    ensures Sound(u) && u.balance == 0 && u.transactions == [] && !u.isAdmin
  {
    User(username, password, 0, [], false)
  }

  /** `user.balance += amt` and the "Added" transaction. */
  function Credit(u: User, amount: int, date: string): (r: User)
    ensures r.transactions == u.transactions + [Transaction(Added, None, amount, date)]
    ensures r.username == u.username && r.password == u.password && r.isAdmin == u.isAdmin
  {
    u.(balance := u.balance + amount, transactions := u.transactions + [Transaction(Added, None, amount, date)])
  }

  /** `user.balance -= amt` and the "Booked Service" transaction. */
  function Debit(u: User, amount: int, service: string, date: string): (r: User)
    ensures r.transactions == u.transactions + [Transaction(BookedService, Some(service), amount, date)]
    ensures r.username == u.username && r.password == u.password && r.isAdmin == u.isAdmin
  {
    u.(balance := u.balance - amount, transactions := u.transactions + [Transaction(BookedService, Some(service), amount, date)])
  }

  /** A top-up keeps the ledger balanced and raises the balance by exactly the amount. */
  lemma CreditSound(u: User, amount: int, date: string)
    requires Sound(u) && amount > 0
    ensures Sound(Credit(u, amount, date)) && Credit(u, amount, date).balance == u.balance + amount
  {
    var txs := Credit(u, amount, date).transactions;
    assert txs[..|txs| - 1] == u.transactions;
  }

  /** A booking the balance covers keeps the ledger balanced and the balance non-negative. */
  lemma DebitSound(u: User, amount: int, service: string, date: string)
    requires Sound(u) && 0 < amount <= u.balance
    ensures Sound(Debit(u, amount, service, date)) && Debit(u, amount, service, date).balance == u.balance - amount
  {
    var txs := Debit(u, amount, service, date).transactions;
    assert txs[..|txs| - 1] == u.transactions;
  }

  /** Replacing one record by a sound one with the same name keeps the table valid. */
  lemma ReplaceValid(users: seq<User>, i: nat, u: User)
    requires Valid(users) && i < |users| && Sound(u) && u.username == users[i].username
    ensures Valid(users[i := u])
  {
  }

  /** Pushing a sound record under a new name keeps the table valid. */
  lemma PushValid(users: seq<User>, u: User)
    requires Valid(users) && Sound(u) && Find(users, u.username).None?
    ensures Valid(users + [u])
  {
    var t := users + [u];
    forall i, j | 0 <= i < j < |t| ensures t[i].username != t[j].username {
      if j < |users| {
        assert t[i] == users[i] && t[j] == users[j];
      } else {
        assert t[i] == users[i];
      }
    }
  }

  /** `user.balance < LOW_BALANCE_THRESHOLD`, the class on the balance. */
  function LowBalance(u: User): (r: bool)
    ensures r <==> u.balance < 5000
  {
    u.balance < LowBalanceThreshold
  }

  /** A top-up never turns the low-balance flag on, and a booking never turns it off. */
  lemma FlagMoves(u: User, amount: int, service: string, date: string)
    requires amount > 0
    ensures LowBalance(Credit(u, amount, date)) ==> LowBalance(u)
    ensures LowBalance(u) ==> LowBalance(Debit(u, amount, service, date))
  {
  }

  // ------------------------------------------------------------ history view

  /** The history's type filter: "all" shows everything, otherwise the exact `type`. */
  predicate Matches(t: Transaction, filter: string) {
    filter == "all" || KindName(t.kind) == filter
  }

  /** `updateTransactionHistory`: the filtered transactions, newest first. */
  function History(txs: seq<Transaction>, filter: string): (r: seq<Transaction>)
    ensures forall t :: t in r <==> t in txs && Matches(t, filter)
    ensures |r| <= |txs|
  {
    Seqs.Reverse(Seqs.Filter(txs, t => Matches(t, filter)))
  }

  /** Without a filter the history is the transactions in reverse order of insertion. */
  lemma HistoryAll(txs: seq<Transaction>)
    ensures |History(txs, "all")| == |txs|
    ensures forall k :: 0 <= k < |txs| ==> History(txs, "all")[k] == txs[|txs| - 1 - k]
  {
    Seqs.FilterAll(txs, t => Matches(t, "all"));
  }

  /** A new transaction the filter shows heads the history, above the earlier ones in the same order. */
  lemma {:induction false} HistoryNewestFirst(txs: seq<Transaction>, t: Transaction, filter: string)
    ensures Matches(t, filter) ==> History(txs + [t], filter) == [t] + History(txs, filter)
    ensures !Matches(t, filter) ==> History(txs + [t], filter) == History(txs, filter)
  {
    var keep := (x: Transaction) => Matches(x, filter);
    Seqs.FilterAppend(txs, [t], keep);
    assert Seqs.Filter([t], keep) == if keep(t) then [t] else [];
    ReverseAppend(Seqs.Filter(txs, keep), Seqs.Filter([t], keep));
  }

  lemma ReverseAppend<T(!new)>(a: seq<T>, b: seq<T>)
    ensures Seqs.Reverse(a + b) == Seqs.Reverse(b) + Seqs.Reverse(a)
  {
    var l, r := Seqs.Reverse(a + b), Seqs.Reverse(b) + Seqs.Reverse(a);
    assert |l| == |r|;
    forall k | 0 <= k < |l| ensures l[k] == r[k] {
      if k < |b| {
        assert r[k] == Seqs.Reverse(b)[k];
      } else {
        assert r[k] == Seqs.Reverse(a)[k - |b|];
      }
    }
  }

  // ---------------------------------------------------------------- CSV export

  /** `${amount}` for a number of cents: the dollars, then the cents without trailing zeros. */
  function AmountText(cents: int): (r: string)
    ensures forall i :: 0 <= i < |r| ==> Js.IsDigit(r[i]) || r[i] == '.' || r[i] == '-'
    decreases if cents < 0 then 1 else 0
  {
    if cents < 0 then "-" + AmountText(-cents)
    else
      var dollars, rest := cents / 100, cents % 100;
      var whole := Js.NatToString(dollars);
      if rest == 0 then whole
      else if rest % 10 == 0 then whole + "." + [Js.DigitChar(rest / 10)]
      else whole + "." + [Js.DigitChar(rest / 10), Js.DigitChar(rest % 10)]
  }

  /** `${t.service || ''}` */
  function ServiceText(t: Transaction): string {
    if t.service.Some? then t.service.value else ""
  }

  const CsvHeader := "data:text/csv;charset=utf-8,Date,Type,Service,Amount\n"

  /** One CSV line: date, type, service (empty for none), amount. */
  function Row(t: Transaction): string {
    t.date + "," + KindName(t.kind) + "," + ServiceText(t) + "," + AmountText(t.amount) + "\n"
  }

  /** The lines of the transactions, in insertion order. */
  function Rows(txs: seq<Transaction>): string {
    Seqs.FlatMap(txs, Row)
  }

  /** The export of two lists one after the other is the export of the first followed by that of the second. */
  lemma RowsAppend(a: seq<Transaction>, b: seq<Transaction>)
    ensures Rows(a + b) == Rows(a) + Rows(b)
  {
    Seqs.FlatMapAppend(a, b, Row);
  }

  /** Appending the next transaction's line to a header and the lines so far gives the header and one more line. */
  lemma RowsStep(header: string, txs: seq<Transaction>, i: nat, csv: string)
    requires i < |txs| && csv == header + Rows(txs[..i])
    ensures csv + Row(txs[i]) == header + Rows(txs[..i + 1])
  {
    RowsSnoc(txs, i);
  }

  lemma RowsSnoc(txs: seq<Transaction>, i: nat)
    requires i < |txs|
    ensures Rows(txs[..i + 1]) == Rows(txs[..i]) + Row(txs[i])
  {
    assert txs[..i + 1][..i] == txs[..i];
  }

  /** The number of times `c` occurs in `s`. */
  function Occurrences(s: string, c: char): nat
    decreases |s|
  {
    if s == [] then 0 else Occurrences(s[..|s| - 1], c) + (if s[|s| - 1] == c then 1 else 0)
  }

  lemma {:induction false} OccurrencesAppend(s: string, t: string, c: char)
    ensures Occurrences(s + t, c) == Occurrences(s, c) + Occurrences(t, c)
    decreases |t|
  {
    if t == [] {
      assert s + t == s;
    } else {
      var n := |t| - 1;
      assert (s + t)[..|s + t| - 1] == s + t[..n];
      OccurrencesAppend(s, t[..n], c);
    }
  }

  lemma {:induction false} NoOccurrences(s: string, c: char)
    requires forall i :: 0 <= i < |s| ==> s[i] != c
    ensures Occurrences(s, c) == 0
    decreases |s|
  {
    if s != [] {
      NoOccurrences(s[..|s| - 1], c);
    }
  }

  /** A transaction whose date and service hold no line break makes exactly one line. */
  lemma RowIsOneLine(t: Transaction)
    requires forall i :: 0 <= i < |t.date| ==> t.date[i] != '\n'
    requires forall i :: 0 <= i < |ServiceText(t)| ==> ServiceText(t)[i] != '\n'
    ensures Occurrences(Row(t), '\n') == 1
  {
    var kind, amount := KindName(t.kind), AmountText(t.amount);
    NoOccurrences(t.date, '\n');
    NoOccurrences(ServiceText(t), '\n');
    NoOccurrences(amount, '\n');
    assert Occurrences(kind, '\n') == 0 by {
      if t.kind == Added {
        NoOccurrences("Added", '\n');
      } else {
        NoOccurrences("Booked Service", '\n');
      }
    }
    NoOccurrences(",", '\n');
    OccurrencesAppend(t.date, ",", '\n');
    OccurrencesAppend(t.date + ",", kind, '\n');
    OccurrencesAppend(t.date + "," + kind, ",", '\n');
    OccurrencesAppend(t.date + "," + kind + ",", ServiceText(t), '\n');
    OccurrencesAppend(t.date + "," + kind + "," + ServiceText(t), ",", '\n');
    OccurrencesAppend(t.date + "," + kind + "," + ServiceText(t) + ",", amount, '\n');
    OccurrencesAppend(t.date + "," + kind + "," + ServiceText(t) + "," + amount, "\n", '\n');
  }

  /** Rows hold one line per transaction when no date or service holds a line break. */
  lemma {:induction false} OneLinePerTransaction(txs: seq<Transaction>)
    requires forall k :: 0 <= k < |txs| ==> forall i :: 0 <= i < |txs[k].date| ==> txs[k].date[i] != '\n'
    requires forall k :: 0 <= k < |txs| ==> forall i :: 0 <= i < |ServiceText(txs[k])| ==> ServiceText(txs[k])[i] != '\n'
    ensures Occurrences(Rows(txs), '\n') == |txs|
    decreases |txs|
  {
    if txs != [] {
      var n := |txs| - 1;
      OneLinePerTransaction(txs[..n]);
      RowIsOneLine(txs[n]);
      OccurrencesAppend(Rows(txs[..n]), Row(txs[n]), '\n');
    }
  }

  /** The `forEach` that appends one line per transaction to the header. */
  method BuildCsv(txs: seq<Transaction>) returns (csv: string)
    ensures csv == CsvHeader + Rows(txs)
  {
    csv := CsvHeader;
    var i := 0;
    while i < |txs|
      invariant 0 <= i <= |txs|
      invariant csv == CsvHeader + Rows(txs[..i])
    {
      RowsStep(CsvHeader, txs, i, csv);
      csv := csv + Row(txs[i]);
      i := i + 1;
    }
    assert txs[..i] == txs;
  }

  // ---------------------------------------------------------- admin dashboard

  /** How many of the transactions name the service. */
  function Uses(txs: seq<Transaction>, name: string): nat
    decreases |txs|
  {
    if txs == [] then 0
    else Uses(txs[..|txs| - 1], name) + (if txs[|txs| - 1].service == Some(name) then 1 else 0)
  }

  /** `users.reduce((acc, u) => acc + u.transactions.filter(t => t.service === name).length, 0)` */
  function Bookings(users: seq<User>, name: string): nat
    decreases |users|
  {
    if users == [] then 0 else Uses(users[0].transactions, name) + Bookings(users[1..], name)
  }

  /** The service chart's data: one count per service, in the order of the services. */
  function ServiceCounts(services: seq<Service>, users: seq<User>): (r: seq<nat>)
    ensures |r| == |services|
    ensures forall i :: 0 <= i < |services| ==> r[i] == Bookings(users, services[i].name)
  {
    seq(|services|, i requires 0 <= i < |services| => Bookings(users, services[i].name))
  }

  /** Replacing one user's record changes the total by the difference in that user's count. */
  lemma {:induction false} BookingsReplace(users: seq<User>, i: nat, u: User, name: string)
    requires i < |users|
    ensures Bookings(users[i := u], name) + Uses(users[i].transactions, name) == Bookings(users, name) + Uses(u.transactions, name)
    decreases |users|
  {
    var t := users[i := u];
    if i == 0 {
      assert t[1..] == users[1..];
    } else {
      assert t[1..] == users[1..][i - 1 := u];
      BookingsReplace(users[1..], i - 1, u, name);
    }
  }

  /** A booking counts once for the service booked and for no other; a top-up counts for none. */
  lemma BookingCounted(users: seq<User>, i: nat, amount: int, service: string, date: string, name: string)
    requires i < |users|
    ensures Bookings(users[i := Debit(users[i], amount, service, date)], name) == Bookings(users, name) + (if service == name then 1 else 0)
    ensures Bookings(users[i := Credit(users[i], amount, date)], name) == Bookings(users, name)
  {
    var txs := users[i].transactions;
    var d, c := Debit(users[i], amount, service, date), Credit(users[i], amount, date);
    assert d.transactions[..|d.transactions| - 1] == txs;
    assert c.transactions[..|c.transactions| - 1] == txs;
    BookingsReplace(users, i, d, name);
    BookingsReplace(users, i, c, name);
  }

  // ------------------------------------------------------------------ the page

  class Page {
    /** The user table and the service list, as `saveData` persists them. */
    var users: seq<User>
    var services: seq<Service>
    var currentUser: Option<string>

    /** The page starts from the stored tables, with nobody signed in. */
    constructor(users: seq<User>, services: seq<Service>)
      ensures this.users == users && this.services == services && currentUser == None
    {
      this.users := users;
      this.services := services;
      currentUser := None;
    }

    /** The signed-in user's record, as `users.find(u => u.username === currentUser)` finds it. */
    function Current(): (r: Option<nat>)
      reads this
      ensures r.Some? ==> currentUser.Some? && r.value < |users| && users[r.value].username == currentUser.value
      ensures r.None? ==> currentUser.None? || Find(users, currentUser.value).None?
    {
      if currentUser.None? then None else Find(users, currentUser.value)
    }

    /** `register`: both trimmed fields filled in and a new name, then a fresh record. */
    method Register(usernameInput: string, passwordInput: string) returns (alert: Notice)
      modifies this
      ensures var name, password := Trim(usernameInput), Trim(passwordInput);
        (name == "" || password == "" ==> alert == EnterCredentials && users == old(users)) &&
        (name != "" && password != "" && Find(old(users), name).Some? ==> alert == UsernameExists && users == old(users)) &&
        (name != "" && password != "" && Find(old(users), name).None? ==>
          alert == Registered && users == old(users) + [NewUser(name, password)])
      ensures old(Valid(users)) ==> Valid(users)
      ensures services == old(services) && currentUser == old(currentUser)
    {
      var name := Trim(usernameInput);
      var password := Trim(passwordInput);
      if name == "" || password == "" {
        return EnterCredentials;
      }
      if Find(users, name).Some? {
        return UsernameExists;
      }
      if Valid(users) {
        PushValid(users, NewUser(name, password));
      }
      users := users + [NewUser(name, password)];
      alert := Registered;
    }

    /**
     * `login`: the first record with the trimmed name must hold the trimmed
     * password. `admin` is whether the admin section is shown.
     */
    method Login(usernameInput: string, passwordInput: string) returns (ok: bool, admin: bool)
      modifies this
      ensures var found := Find(users, Trim(usernameInput));
        ok <==> found.Some? && users[found.value].password == Trim(passwordInput)
      ensures ok ==> currentUser == Some(Trim(usernameInput)) && admin == users[Current().value].isAdmin
      ensures !ok ==> currentUser == old(currentUser) && !admin
      ensures users == old(users) && services == old(services)
    {
      var name := Trim(usernameInput);
      var found := Find(users, name);
      if found.None? || users[found.value].password != Trim(passwordInput) {
        return false, false;
      }
      currentUser := Some(name);
      ok, admin := true, users[found.value].isAdmin;
    }

    /** `addMoney`: a positive amount is added to the signed-in user's balance and logged once. */
    method AddMoney(amount: Option<int>, now: string) returns (alert: Notice)
      modifies this
      ensures amount.None? || amount.value <= 0 ==> alert == InvalidAmount && users == old(users)
      ensures amount.Some? && amount.value > 0 && old(Current()).None? ==> alert == NoSession && users == old(users)
      ensures amount.Some? && amount.value > 0 && old(Current()).Some? ==>
        alert == AddedMoney(amount.value) &&
        users == old(users)[old(Current()).value := Credit(old(users)[old(Current()).value], amount.value, now)]
      ensures old(Valid(users)) ==> Valid(users)
      ensures services == old(services) && currentUser == old(currentUser)
    {
      if amount.None? || amount.value <= 0 {
        return InvalidAmount;
      }
      var i := Current();
      if i.None? {
        return NoSession;
      }
      var u := users[i.value];
      if Valid(users) {
        assert Sound(u);
        CreditSound(u, amount.value, now);
        ReplaceValid(users, i.value, Credit(u, amount.value, now));
      }
      users := users[i.value := Credit(u, amount.value, now)];
      alert := AddedMoney(amount.value);
    }

    /** `deductMoney`: a positive amount the balance covers is taken off and logged with the service. */
    method DeductMoney(amount: Option<int>, service: string, now: string) returns (alert: Notice)
      modifies this
      ensures amount.None? || amount.value <= 0 ==> alert == InvalidAmount && users == old(users)
      ensures amount.Some? && amount.value > 0 && old(Current()).None? ==> alert == NoSession && users == old(users)
      ensures amount.Some? && amount.value > 0 && old(Current()).Some? && amount.value > old(users)[old(Current()).value].balance ==>
        alert == Insufficient && users == old(users)
      ensures amount.Some? && amount.value > 0 && old(Current()).Some? && amount.value <= old(users)[old(Current()).value].balance ==>
        alert == BookedFor(service, amount.value) &&
        users == old(users)[old(Current()).value := Debit(old(users)[old(Current()).value], amount.value, service, now)]
      ensures old(Valid(users)) ==> Valid(users)
      ensures services == old(services) && currentUser == old(currentUser)
    {
      if amount.None? || amount.value <= 0 {
        return InvalidAmount;
      }
      var i := Current();
      if i.None? {
        return NoSession;
      }
      var u := users[i.value];
      if amount.value > u.balance {
        return Insufficient;
      }
      if Valid(users) {
        assert Sound(u);
        DebitSound(u, amount.value, service, now);
        ReplaceValid(users, i.value, Debit(u, amount.value, service, now));
      }
      users := users[i.value := Debit(u, amount.value, service, now)];
      alert := BookedFor(service, amount.value);
    }

    /** `exportCSV`: the header and one line per transaction; refused when there are none. */
    method ExportCsv() returns (r: Result<string, Notice>)
      ensures Current().None? ==> r == Err(NoSession)
      ensures Current().Some? && users[Current().value].transactions == [] ==> r == Err(NoTransactions)
      ensures Current().Some? && users[Current().value].transactions != [] ==>
        r == Ok(CsvHeader + Rows(users[Current().value].transactions))
    {
      var i := Current();
      if i.None? {
        return Err(NoSession);
      }
      var txs := users[i.value].transactions;
      if txs == [] {
        return Err(NoTransactions);
      }
      var csv := BuildCsv(txs);
      r := Ok(csv);
    }

    /** `addService`: a trimmed name and a positive price, appended to the list. */
    method AddService(nameInput: string, price: Option<int>) returns (alert: Option<Notice>)
      modifies this
      ensures Trim(nameInput) == "" || price.None? || price.value <= 0 ==> alert == Some(InvalidService) && services == old(services)
      ensures Trim(nameInput) != "" && price.Some? && price.value > 0 ==>
        alert == None && services == old(services) + [Service(Trim(nameInput), price.value)]
      ensures users == old(users) && currentUser == old(currentUser)
    {
      var name := Trim(nameInput);
      if name == "" || price.None? || price.value <= 0 {
        return Some(InvalidService);
      }
      services := services + [Service(name, price.value)];
      alert := None;
    }
  }

  /** With unique names, signing in succeeds exactly for a record holding both the name and the password. */
  lemma LoginIff(users: seq<User>, name: string, password: string)
    requires UniqueNames(users)
    ensures (Find(users, name).Some? && users[Find(users, name).value].password == password) <==>
      exists i :: 0 <= i < |users| && users[i].username == name && users[i].password == password
  {
    if exists i :: 0 <= i < |users| && users[i].username == name && users[i].password == password {
      var i :| 0 <= i < |users| && users[i].username == name && users[i].password == password;
      FindUnique(users, name, i);
    }
  }
}
