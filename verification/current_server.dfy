/** The request handlers of the current server, app.py, over an in-memory
    store: registration, the transaction list with its date filter, adding
    (id assignment and proof-link normalisation), deleting, the currency
    setting, the statistics, and the two exports. */
module CurrentServer {
  import opened Ledger
  import opened Export

  // ---------------------------------------------------------------------
  // Proof-link normalisation

  function StartsWith(s: string, prefix: string): bool {
    |prefix| <= |s| && s[..|prefix|] == prefix
  }

  /** `s.startswith('http://') or s.startswith('https://')` */
  function HasScheme(s: string): (scheme: bool)
    ensures scheme ==> 7 <= |s| && s[..4] == "http"
    ensures scheme <==> (7 <= |s| && s[..7] == "http://") || (8 <= |s| && s[..8] == "https://")
  {
    StartsWith(s, "http://") || StartsWith(s, "https://")
  }

  /** The proof details stored with a new transaction. */
  function NormaliseProof(hasProof: bool, details: string): (stored: string)
    ensures !hasProof ==> stored == NoProof
    ensures hasProof && (details == "" || HasScheme(details)) ==> stored == details
    ensures hasProof && details != "" && !HasScheme(details) ==> stored == "https://" + details
  {
    if hasProof && details != "" then
      (if !HasScheme(details) then "https://" + details else details)
    else if !hasProof then NoProof
    else details
  }

  /** With proof on, what is stored is empty or a link with a scheme. */
  lemma NormalisedProofIsLink(details: string)
    ensures NormaliseProof(true, details) == "" || HasScheme(NormaliseProof(true, details))
  {
  }

  /** Normalising stored details again changes nothing. */
  lemma NormaliseProofIdempotent(hasProof: bool, details: string)
    ensures NormaliseProof(hasProof, NormaliseProof(hasProof, details)) == NormaliseProof(hasProof, details)
  {
  }

  /** The record `add_transaction` builds from a request: type "expense",
      description "Tanpa keterangan", today's date and amount 0 when the keys
      are absent, the proof normalised, and a failure when the amount is not
      a number. */
  function NewTransaction(p: Payload, id: int, today: string, now: string): (r: Result<Transaction>)
    ensures r.Err? <==> p.amount == NotNumeric
    ensures r.Err? ==> r.failure == Unexpected
    ensures r.Ok? ==> r.value.id == Some(id) && r.value.createdAt == now
    ensures r.Ok? ==> r.value.kind == (if p.kind.Some? then p.kind.value else Expense)
    ensures r.Ok? ==> r.value.amount == (if p.amount.Numeric? then p.amount.value else 0)
    ensures r.Ok? ==> r.value.description == (if p.description.Some? then p.description.value else DefaultDescription)
    ensures r.Ok? ==> r.value.date == (if p.date.Some? then p.date.value else today)
    ensures r.Ok? ==> (r.value.hasProof <==> p.hasProof == Some(true))
    ensures r.Ok? && p.hasProof != Some(true) ==> r.value.proofDetails == NoProof
    ensures r.Ok? && p.hasProof == Some(true) ==> r.value.proofDetails == NormaliseProof(true, p.proofDetails.GetOr(""))
  {
    match AmountOf(p.amount)
    case Err(f) => Err(f)
    case Ok(amount) =>
      var hasProof := p.hasProof.GetOr(false);
      Ok(Transaction(
        Some(id), p.kind.GetOr(Expense), amount, p.description.GetOr(DefaultDescription),
        p.date.GetOr(today), hasProof, NormaliseProof(hasProof, p.proofDetails.GetOr("")), now))
  }

  // ---------------------------------------------------------------------
  // Registration

  /** The ASCII characters Python's `str.isspace()` accepts. */
  predicate IsSpace(c: char) {
    0x09 <= c as int <= 0x0D || 0x1C <= c as int <= 0x20
  }

  function TrimStart(s: string): (r: string)
    ensures |r| <= |s| && r == s[|s| - |r|..]
    ensures forall k :: 0 <= k < |s| - |r| ==> IsSpace(s[k])
    ensures r == [] || !IsSpace(r[0])
    decreases |s|
  {
    if s != [] && IsSpace(s[0]) then TrimStart(s[1..]) else s
  }

  function TrimEnd(s: string): (r: string)
    ensures |r| <= |s| && r == s[..|r|]
    ensures forall k :: |r| <= k < |s| ==> IsSpace(s[k])
    ensures r == [] || !IsSpace(r[|r| - 1])
    decreases |s|
  {
    if s != [] && IsSpace(s[|s| - 1]) then TrimEnd(s[..|s| - 1]) else s
  }

  /** `s.strip()`: the longest middle part of `s` without surrounding white space. */
  function Strip(s: string): (r: string)
    ensures r == [] || (!IsSpace(r[0]) && !IsSpace(r[|r| - 1]))
    ensures exists a, b :: 0 <= a <= b <= |s| && r == s[a..b]
                           && (forall k :: 0 <= k < a ==> IsSpace(s[k]))
                           && (forall k :: b <= k < |s| ==> IsSpace(s[k]))
  {
    var front := TrimStart(s);
    var r := TrimEnd(front);
    var a := |s| - |front|;
    assert r == s[a..a + |r|];
    assert forall k :: a + |r| <= k < |s| ==> s[k] == front[k - a];
    r
  }

  lemma StripIdempotent(s: string)
    ensures Strip(Strip(s)) == Strip(s)
  {
  }

  /** The checks of `register`, in the order the handler makes them. */
  function RegistrationCheck(username: string, password: string, registered: set<string>): (r: Option<Failure>)
    ensures r == None <==> 3 <= |username| && 6 <= |password| && username !in registered
    ensures username == "" || password == "" ==> r == Some(CredentialsMissing)
    ensures username != "" && password != "" && |username| < 3 ==> r == Some(UsernameTooShort)
    ensures username != "" && password != "" && 3 <= |username| && |password| < 6 ==> r == Some(PasswordTooShort)
    ensures 3 <= |username| && 6 <= |password| && username in registered ==> r == Some(UsernameTaken)
    ensures r == Some(UsernameTaken) ==> username in registered
  {
    if username == "" || password == "" then Some(CredentialsMissing)
    else if |username| < 3 then Some(UsernameTooShort)
    else if |password| < 6 then Some(PasswordTooShort)
    else if username in registered then Some(UsernameTaken)
    else None
  }

  // ---------------------------------------------------------------------
  // Responses

  datatype User = User(password: string, email: string, createdAt: string, lastLogin: string)

  /** The body of GET /api/transactions. */
  datatype Listing = Listing(transactions: seq<Transaction>, count: nat, filtered: bool, filterDate: Option<string>)

  /** The `stats` object of GET /api/stats. */
  datatype StatsReport = StatsReport(totals: Totals, currency: string, filtered: bool, filterDate: Option<string>)

  /** The first record of a list that carries the id, as the search loop of
      `delete_transaction` finds it. */
  method FindById(txs: seq<Transaction>, id: int) returns (found: Option<Transaction>)
    ensures found.None? <==> forall i :: 0 <= i < |txs| ==> txs[i].id != Some(id)
    ensures found.Some? ==> exists i :: 0 <= i < |txs| && txs[i] == found.value && txs[i].id == Some(id)
                                        && forall j :: 0 <= j < i ==> txs[j].id != Some(id)
  {
    found := None;
    var i := 0;
    while i < |txs|
      invariant 0 <= i <= |txs|
      invariant forall j :: 0 <= j < i ==> txs[j].id != Some(id)
    {
      if txs[i].id == Some(id) {
        found := Some(txs[i]);
        return;
      }
      i := i + 1;
    }
  }

  // ---------------------------------------------------------------------
  // The Word report

  const CurrencySymbols: map<string, string> := map[
    "IDR" := "Rp", "USD" := "$", "EUR" := "\U{20AC}", "GBP" := "\U{00A3}",
    "JPY" := "\U{00A5}", "SGD" := "S$", "THB" := "\U{0E3F}", "KHR" := "\U{17DB}"]

  /** `currency_symbols.get(code, code)` */
  function SymbolFor(code: string): (symbol: string)
    ensures code in CurrencySymbols ==> symbol == CurrencySymbols[code]
    ensures code !in CurrencySymbols ==> symbol == code
    ensures symbol == code <==> code !in CurrencySymbols
  {
    if code in CurrencySymbols then CurrencySymbols[code] else code
  }

  /** The cells of one row of the report's table; `amount` is shown through
      `format_currency` (`f"{amount:,.2f}"`), which is not modelled. */
  datatype WordRow = WordRow(
    no: nat,
    date: string,
    typeLabel: string,
    description: string,
    rowClass: string,
    sign: string,
    symbol: string,
    amount: int,
    proofDetails: string,
    createdAt: string)

  /** The `no`-th table row: `{sign} {symbol} {amount}` in the amount cell. */
  function WordRowOf(no: nat, t: Transaction, symbol: string): (row: WordRow)
    ensures row.no == no && row.amount == t.amount && row.symbol == symbol
    ensures row.sign == "+" <==> t.kind == Income
    ensures row.typeLabel == InLabel <==> row.sign == "+"
  {
    WordRow(no, t.date, TypeLabel(t.kind), t.description, RowClass(t.kind), AmountSign(t.kind),
            symbol, t.amount, t.proofDetails, t.createdAt)
  }

  /** A Word row says what the CSV row for the same transaction says. */
  lemma WordRowMatchesCsvRow(no: nat, t: Transaction, symbol: string, currency: string)
    ensures var v, row := ReadCsvRow(CsvRow(no, t, currency)), WordRowOf(no, t, symbol);
      v.Some? && v.value.no == row.no && v.value.date == row.date && v.value.description == row.description
      && (v.value.incoming <==> row.sign == "+") && v.value.amount == row.amount
      && v.value.proofDetails == row.proofDetails && v.value.createdAt == row.createdAt
  {
  }

  /** The `for i, t in enumerate(txs, 1)` loop that appends the table rows. */
  method BuildWordRows(txs: seq<Transaction>, symbol: string) returns (rows: seq<WordRow>)
    ensures |rows| == |txs|
    ensures forall k :: 0 <= k < |txs| ==> rows[k] == WordRowOf(k + 1, txs[k], symbol)
    ensures forall k :: 0 <= k < |txs| ==>
      rows[k].no == k + 1 && rows[k].amount == txs[k].amount && (rows[k].sign == "+" <==> txs[k].kind == Income)
  {
    rows := [];
    var i := 0;
    while i < |txs|
      invariant 0 <= i <= |txs|
      invariant |rows| == i
      invariant forall k :: 0 <= k < i ==> rows[k] == WordRowOf(k + 1, txs[k], symbol)
    {
      rows := rows + [WordRowOf(i + 1, txs[i], symbol)];
      i := i + 1;
    }
  }

  /** The Word download: the header data, the filter note shown only for an
      active filter, the summary totals, the table rows and the file name. */
  datatype WordReport = WordReport(
    owner: string,
    currency: string,
    symbol: string,
    filterNote: Option<string>,
    summary: Totals,
    rows: seq<WordRow>,
    fileName: string)

  // ---------------------------------------------------------------------
  // The store and its handlers

  /** The contents of the three data files; each handler loads them, changes
      them and saves them, which the model does on the fields. */
  class Server {
    var users: map<string, User>
    var transactions: map<string, seq<Transaction>>
    var settings: map<string, string>

    constructor (users0: map<string, User>, transactions0: map<string, seq<Transaction>>, settings0: map<string, string>)
      ensures users == users0 && transactions == transactions0 && settings == settings0
    {
      users, transactions, settings := users0, transactions0, settings0;
    }

    /** No owner's list holds two records with the same id. */
    ghost predicate IdsUnique()
      reads this
    {
      forall owner :: owner in transactions ==> UniqueIds(transactions[owner])
    }

    /** POST /api/register */
    method Register(username: string, email: string, password: string, now: string) returns (r: Status)
      modifies this
      ensures var u, pw := Strip(username), Strip(password);
        var check := RegistrationCheck(u, pw, old(users).Keys);
        (check.Some? ==> r == Failed(check.value) && users == old(users)
                         && transactions == old(transactions) && settings == old(settings))
        && (check.None? ==>
              r == Success && users == old(users)[u := User(pw, Strip(email), now, now)]
              && settings == (if u in old(settings) then old(settings) else old(settings)[u := DefaultCurrency])
              && transactions == (if u in old(transactions) then old(transactions) else old(transactions)[u := []]))
    {
      var u, mail, pw := Strip(username), Strip(email), Strip(password);
      var check := RegistrationCheck(u, pw, users.Keys);
      if check.Some? {
        return Failed(check.value);
      }
      users := users[u := User(pw, mail, now, now)];
      if u !in settings {
        settings := settings[u := DefaultCurrency];
      }
      if u !in transactions {
        transactions := transactions[u := []];
      }
      r := Success;
    }

    /** GET /api/transactions: an unknown owner gets an empty list created for them. */
    method GetTransactions(owner: string, filterDate: Option<string>) returns (r: Result<Listing>)
      modifies this
      ensures users == old(users) && settings == old(settings)
      ensures owner == "" ==> r == Err(UsernameMissing) && transactions == old(transactions)
      ensures owner != "" && owner !in old(transactions) ==>
        r == Ok(Listing([], 0, false, None)) && transactions == old(transactions)[owner := []]
      ensures owner != "" && owner in old(transactions) ==>
        transactions == old(transactions) && r.Ok?
        && r.value.transactions == ApplyDateFilter(old(transactions)[owner], filterDate)
        && r.value.count == |r.value.transactions|
        && r.value.filtered == FilterActive(filterDate)
        && r.value.filterDate == (if FilterActive(filterDate) then filterDate else None)
    {
      if owner == "" {
        return Err(UsernameMissing);
      }
      if owner !in transactions {
        transactions := transactions[owner := []];
        return Ok(Listing([], 0, false, None));
      }
      var list := transactions[owner];
      if FilterActive(filterDate) {
        var kept := OnDate(list, filterDate.value);
        r := Ok(Listing(kept, |kept|, true, filterDate));
      } else {
        r := Ok(Listing(list, |list|, false, None));
      }
    }

    /** POST /api/transactions: the new record gets the next id and is appended
        to the owner's list, which is created when absent. */
    method AddTransaction(p: Payload, today: string, now: string) returns (r: Result<Transaction>)
      modifies this
      ensures users == old(users) && settings == old(settings)
      ensures p.username == "" ==> r == Err(UsernameMissing)
      ensures p.username != "" && p.amount == NotNumeric ==> r == Err(Unexpected)
      ensures r.Err? ==> transactions == old(transactions)
      ensures p.username != "" && p.amount != NotNumeric ==>
        var before := ListOf(old(transactions), p.username);
        r == NewTransaction(p, NextId(before), today, now) && r.Ok?
        && transactions == old(transactions)[p.username := before + [r.value]]
        && forall i :: 0 <= i < |before| ==> IdOrZero(before[i]) < IdOrZero(r.value)
      ensures old(IdsUnique()) ==> IdsUnique()
    {
      if p.username == "" {
        return Err(UsernameMissing);
      }
      var list := if p.username in transactions then transactions[p.username] else [];
      var id := NextId(list);
      r := NewTransaction(p, id, today, now);
      if r.Err? {
        return;
      }
      if p.username in transactions && IdsUnique() {
        NextIdKeepsIdsUnique(list, r.value);
      }
      transactions := transactions[p.username := list + [r.value]];
    }

    /** DELETE /api/transactions/<id>: every record with the id goes; the first
        one found is reported. */
    method DeleteTransaction(owner: string, id: int) returns (r: Result<Transaction>)
      modifies this
      ensures users == old(users) && settings == old(settings)
      ensures owner == "" ==> r == Err(UsernameMissing)
      ensures owner != "" && owner !in old(transactions) ==> r == Err(UserNotFound)
      ensures r.Err? ==> transactions == old(transactions)
      ensures owner != "" && owner in old(transactions) ==>
        var before := old(transactions)[owner];
        (r == Err(TransactionNotFound) <==> forall i :: 0 <= i < |before| ==> before[i].id != Some(id))
      ensures owner != "" && owner in old(transactions) ==>
        (r.Ok? <==> exists i :: 0 <= i < |old(transactions)[owner]| && old(transactions)[owner][i].id == Some(id))
      ensures r.Ok? ==> owner in old(transactions)
      ensures r.Ok? ==> transactions == old(transactions)[owner := WithoutId(old(transactions)[owner], id)]
      ensures r.Ok? ==> r.value.id == Some(id)
      ensures r.Ok? ==> (exists i :: 0 <= i < |old(transactions)[owner]| && old(transactions)[owner][i] == r.value &&
                          forall j :: 0 <= j < i ==> old(transactions)[owner][j].id != Some(id))
      ensures old(IdsUnique()) ==> IdsUnique()
    {
      if owner == "" {
        return Err(UsernameMissing);
      }
      if owner !in transactions {
        return Err(UserNotFound);
      }
      var list := transactions[owner];
      var found := FindById(list, id);
      if found.None? {
        return Err(TransactionNotFound);
      }
      if IdsUnique() {
        FilterKeepsIdsUnique(list, IdIsNot(id));
      }
      transactions := transactions[owner := WithoutId(list, id)];
      r := Ok(found.value);
    }

    /** GET /api/settings: an owner without settings gets "IDR" stored. */
    method GetSettings(owner: string) returns (r: Result<string>)
      modifies this
      ensures users == old(users) && transactions == old(transactions)
      ensures owner == "" ==> r == Err(UsernameMissing) && settings == old(settings)
      ensures owner != "" ==> r == Ok(CurrencyOf(old(settings), owner))
      ensures owner != "" ==>
        settings == (if owner in old(settings) then old(settings) else old(settings)[owner := DefaultCurrency])
    {
      if owner == "" {
        return Err(UsernameMissing);
      }
      if owner !in settings {
        settings := settings[owner := DefaultCurrency];
      }
      r := Ok(settings[owner]);
    }

    /** POST /api/settings/currency: sets this owner's currency ("IDR" when the
        request names none) and no one else's. */
    method UpdateCurrency(owner: string, currency: Option<string>) returns (r: Result<string>)
      modifies this
      ensures users == old(users) && transactions == old(transactions)
      ensures owner == "" ==> r == Err(UsernameMissing) && settings == old(settings)
      ensures owner != "" ==> r == Ok(currency.GetOr(DefaultCurrency))
      ensures owner != "" ==> settings == old(settings)[owner := currency.GetOr(DefaultCurrency)]
      ensures owner != "" ==> CurrencyOf(settings, owner) == currency.GetOr(DefaultCurrency)
      ensures forall o :: o != owner ==> CurrencyOf(settings, o) == CurrencyOf(old(settings), o)
    {
      if owner == "" {
        return Err(UsernameMissing);
      }
      var code := currency.GetOr(DefaultCurrency);
      settings := settings[owner := code];
      r := Ok(code);
    }

    /** GET /api/stats: zero totals for an unknown owner, otherwise the totals
        of the (date-filtered) list. `filtered` reports whether a filter
        parameter was sent at all, even an empty one. */
    function Stats(owner: string, filterDate: Option<string>): (r: Result<StatsReport>)
      reads this
      ensures r.Err? <==> owner == ""
      ensures r.Err? ==> r.failure == UsernameMissing
      ensures r.Ok? ==> r.value.currency == CurrencyOf(settings, owner)
      ensures r.Ok? ==> r.value.totals.balance == r.value.totals.totalIncome - r.value.totals.totalExpense
      ensures r.Ok? ==> r.value.totals.transactionCount == |ApplyDateFilter(ListOf(transactions, owner), filterDate)|
      ensures r.Ok? && owner !in transactions ==> r.value == StatsReport(NoTotals, CurrencyOf(settings, owner), false, None)
      ensures r.Ok? && owner in transactions ==>
        r.value.totals == Aggregate(ApplyDateFilter(transactions[owner], filterDate))
        && r.value.filtered == filterDate.Some? && r.value.filterDate == filterDate
    {
      if owner == "" then Err(UsernameMissing)
      else if owner !in transactions then Ok(StatsReport(NoTotals, CurrencyOf(settings, owner), false, None))
      else
        var txs := ApplyDateFilter(transactions[owner], filterDate);
        Ok(StatsReport(Aggregate(txs), CurrencyOf(settings, owner), filterDate.Some?, filterDate))
    }

    /** GET /api/export/excel */
    method ExportCsv(owner: string, filterDate: Option<string>, stamp: string) returns (r: Result<CsvExport>)
      ensures owner == "" ==> r == Err(UsernameMissing)
      ensures owner != "" && owner !in transactions ==> r == Err(UserNotFound)
      ensures owner != "" && owner in transactions ==> r.Ok?
      ensures r.Ok? ==> (
        owner in transactions &&
        var txs, rows := ApplyDateFilter(transactions[owner], filterDate), r.value.rows;
        |rows| == |txs| + 1 && rows[0] == CsvHeader
        && (forall k :: 0 <= k < |txs| ==> rows[k + 1] == CsvRow(k + 1, txs[k], CurrencyOf(settings, owner)))
        && |rows| - 1 == Stats(owner, filterDate).value.totals.transactionCount
        && r.value.fileName == ExportFileName(owner, filterDate, stamp, "csv"))
    {
      if owner == "" {
        return Err(UsernameMissing);
      }
      if owner !in transactions {
        return Err(UserNotFound);
      }
      var txs := ApplyDateFilter(transactions[owner], filterDate);
      var rows := BuildCsvRows(txs, CurrencyOf(settings, owner));
      r := Ok(CsvExport(rows, ExportFileName(owner, filterDate, stamp, "csv")));
    }

    /** GET /api/export/word: the summary holds the same totals and currency as
        the statistics for the same owner and filter. */
    method ExportWord(owner: string, filterDate: Option<string>, stamp: string) returns (r: Result<WordReport>)
      ensures owner == "" ==> r == Err(UsernameMissing)
      ensures owner != "" && owner !in transactions ==> r == Err(UserNotFound)
      ensures owner != "" && owner in transactions ==> r.Ok?
      ensures r.Ok? ==> (
        Stats(owner, filterDate).Ok?
        && r.value.summary == Stats(owner, filterDate).value.totals
        && r.value.currency == Stats(owner, filterDate).value.currency
        && r.value.symbol == SymbolFor(r.value.currency)
        && r.value.filterNote == (if FilterActive(filterDate) then filterDate else None)
        && r.value.fileName == ExportFileName(owner, filterDate, stamp, "doc"))
      ensures r.Ok? ==> (
        owner in transactions &&
        var txs := ApplyDateFilter(transactions[owner], filterDate);
        |r.value.rows| == |txs|
        && forall k :: 0 <= k < |txs| ==> r.value.rows[k] == WordRowOf(k + 1, txs[k], r.value.symbol))
    {
      if owner == "" {
        return Err(UsernameMissing);
      }
      if owner !in transactions {
        return Err(UserNotFound);
      }
      var txs := ApplyDateFilter(transactions[owner], filterDate);
      var currency := CurrencyOf(settings, owner);
      var symbol := SymbolFor(currency);
      var rows := BuildWordRows(txs, symbol);
      var note := if FilterActive(filterDate) then filterDate else None;
      r := Ok(WordReport(owner, currency, symbol, note, Aggregate(txs), rows,
                         ExportFileName(owner, filterDate, stamp, "doc")));
    }
  }
}
