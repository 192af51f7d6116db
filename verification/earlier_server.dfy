/** The request handlers of the earlier server, App.py: no date filter, no
    proof-link normalisation, statistics that refuse an unknown owner, a
    delete that is detected by the list getting shorter, and a Word report
    that writes the currency code after each amount. */
module EarlierServer {
  import opened Ledger
  import opened Export
  import CurrentServer

  /** The record App.py's `add_transaction` builds: the same defaults as the
      current server, but the proof details are stored as sent, and the
      placeholder only stands in for an absent field. */
  function NewTransaction(p: Payload, id: int, today: string, now: string): (r: Result<Transaction>)
    ensures r.Err? <==> p.amount == NotNumeric
    ensures r.Err? ==> r.failure == Unexpected
    ensures r.Ok? ==> r.value.id == Some(id) && r.value.createdAt == now
    ensures r.Ok? ==> r.value.kind == (if p.kind.Some? then p.kind.value else Expense)
    ensures r.Ok? ==> r.value.amount == (if p.amount.Numeric? then p.amount.value else 0)
    ensures r.Ok? ==> r.value.description == (if p.description.Some? then p.description.value else DefaultDescription)
    ensures r.Ok? ==> r.value.date == (if p.date.Some? then p.date.value else today)
    ensures r.Ok? ==> (r.value.hasProof <==> p.hasProof == Some(true))
    ensures r.Ok? ==> r.value.proofDetails == (if p.proofDetails.Some? then p.proofDetails.value else NoProof)
  {
    match AmountOf(p.amount)
    case Err(f) => Err(f)
    case Ok(amount) =>
      Ok(Transaction(
        Some(id), p.kind.GetOr(Expense), amount, p.description.GetOr(DefaultDescription),
        p.date.GetOr(today), p.hasProof.GetOr(false), p.proofDetails.GetOr(NoProof), now))
  }

  /** The two servers build the same record whenever the request asks for a
      proof and sends details that are empty or already carry a scheme. */
  lemma NewTransactionsAgree(p: Payload, id: int, today: string, now: string)
    requires p.hasProof == Some(true) && p.proofDetails.Some?
    requires p.proofDetails.value == "" || CurrentServer.HasScheme(p.proofDetails.value)
    ensures NewTransaction(p, id, today, now) == CurrentServer.NewTransaction(p, id, today, now)
  {
  }

  /** Without a proof flag the earlier server keeps details the current one
      replaces by the placeholder. */
  lemma NewTransactionsDisagree(p: Payload, id: int, today: string, now: string)
    requires p.amount != NotNumeric && p.hasProof != Some(true)
    requires p.proofDetails.Some? && p.proofDetails.value != NoProof
    ensures NewTransaction(p, id, today, now).value.proofDetails != CurrentServer.NewTransaction(p, id, today, now).value.proofDetails
  {
  }

  /** The `stats` object of App.py's GET /api/stats. */
  datatype StatsReport = StatsReport(totals: Totals, currency: string)

  /** One row of the earlier Word table: `{sign} {amount} {currency}` in the
      amount cell, with the currency code instead of a symbol. */
  datatype WordRow = WordRow(
    no: nat,
    date: string,
    typeLabel: string,
    description: string,
    rowClass: string,
    sign: string,
    amount: int,
    currency: string,
    proofDetails: string,
    createdAt: string)

  function WordRowOf(no: nat, t: Transaction, currency: string): (row: WordRow)
    ensures row.no == no && row.amount == t.amount && row.currency == currency
    ensures row.sign == "+" <==> t.kind == Income
    ensures row.typeLabel == InLabel <==> row.sign == "+"
  {
    WordRow(no, t.date, TypeLabel(t.kind), t.description, RowClass(t.kind), AmountSign(t.kind),
            t.amount, currency, t.proofDetails, t.createdAt)
  }

  /** The row loop of App.py's `export_word`. */
  method BuildWordRows(txs: seq<Transaction>, currency: string) returns (rows: seq<WordRow>)
    ensures |rows| == |txs|
    ensures forall k :: 0 <= k < |txs| ==> rows[k] == WordRowOf(k + 1, txs[k], currency)
    ensures forall k :: 0 <= k < |txs| ==>
      rows[k].no == k + 1 && rows[k].amount == txs[k].amount && (rows[k].sign == "+" <==> txs[k].kind == Income)
  {
    rows := [];
    for i := 0 to |txs|
      invariant |rows| == i
      invariant forall k :: 0 <= k < i ==> rows[k] == WordRowOf(k + 1, txs[k], currency)
    {
      rows := rows + [WordRowOf(i + 1, txs[i], currency)];
    }
  }

  /** The earlier Word download: no filter note and no symbol. */
  datatype WordReport = WordReport(
    owner: string,
    currency: string,
    summary: Totals,
    rows: seq<WordRow>,
    fileName: string)

  class Server {
    var transactions: map<string, seq<Transaction>>
    var settings: map<string, string>

    constructor (transactions0: map<string, seq<Transaction>>, settings0: map<string, string>)
      ensures transactions == transactions0 && settings == settings0
    {
      transactions, settings := transactions0, settings0;
    }

    /** No owner's list holds two records with the same id. */
    ghost predicate IdsUnique()
      reads this
    {
      forall owner :: owner in transactions ==> UniqueIds(transactions[owner])
    }

    /** GET /api/transactions: the whole list, created empty for an unknown owner. */
    method GetTransactions(owner: string) returns (r: Result<seq<Transaction>>)
      modifies this
      ensures settings == old(settings)
      ensures owner == "" ==> r == Err(UsernameMissing) && transactions == old(transactions)
      ensures owner != "" && owner !in old(transactions) ==> r == Ok([]) && transactions == old(transactions)[owner := []]
      ensures owner != "" && owner in old(transactions) ==> r == Ok(old(transactions)[owner]) && transactions == old(transactions)
      ensures r.Ok? ==> owner in transactions && r.value == transactions[owner]
    {
      if owner == "" {
        return Err(UsernameMissing);
      }
      if owner !in transactions {
        transactions := transactions[owner := []];
      }
      r := Ok(transactions[owner]);
    }

    /** POST /api/transactions */
    method AddTransaction(p: Payload, today: string, now: string) returns (r: Result<Transaction>)
      modifies this
      ensures settings == old(settings)
      ensures p.username == "" ==> r == Err(UsernameMissing)
      ensures p.username != "" && p.amount == NotNumeric ==> r == Err(Unexpected)
      ensures r.Err? ==> transactions == old(transactions)
      ensures p.username != "" && p.amount != NotNumeric ==>
        var before := ListOf(old(transactions), p.username);
        r == NewTransaction(p, NextId(before), today, now) && r.Ok?
        && transactions == old(transactions)[p.username := before + [r.value]]
        && forall i :: 0 <= i < |before| ==> IdOrZero(before[i]) < IdOrZero(r.value)
      ensures old(IdsUnique()) ==> IdsUnique()
    {
      if p.username == "" {
        return Err(UsernameMissing);
      }
      var list := if p.username in transactions then transactions[p.username] else [];
      r := NewTransaction(p, NextId(list), today, now);
      if r.Err? {
        return;
      }
      if p.username in transactions && IdsUnique() {
        NextIdKeepsIdsUnique(list, r.value);
      }
      transactions := transactions[p.username := list + [r.value]];
    }

    /** DELETE /api/transactions/<id>: the list is rebuilt without the id and
        success is read off its length. */
    method DeleteTransaction(owner: string, id: int) returns (r: Status)
      modifies this
      ensures settings == old(settings)
      ensures owner == "" ==> r == Failed(UsernameMissing)
      ensures owner != "" && owner !in old(transactions) ==> r == Failed(UserNotFound)
      ensures r.Failed? ==> transactions == old(transactions)
      ensures owner != "" && owner in old(transactions) ==>
        (r == Success <==> exists i :: 0 <= i < |old(transactions)[owner]| && old(transactions)[owner][i].id == Some(id))
      ensures owner != "" && owner in old(transactions) && r.Failed? ==> r == Failed(TransactionNotFound)
      ensures r == Success ==> owner in old(transactions)
      ensures r == Success ==> transactions == old(transactions)[owner := WithoutId(old(transactions)[owner], id)]
      ensures old(IdsUnique()) ==> IdsUnique()
    {
      if owner == "" {
        return Failed(UsernameMissing);
      }
      if owner !in transactions {
        return Failed(UserNotFound);
      }
      var before := transactions[owner];
      var after := WithoutId(before, id);
      FilterShorter(before, IdIsNot(id));
      if |after| < |before| {
        if IdsUnique() {
          FilterKeepsIdsUnique(before, IdIsNot(id));
        }
        transactions := transactions[owner := after];
        r := Success;
      } else {
        r := Failed(TransactionNotFound);
      }
    }

    /** POST /api/settings/currency: only this owner's currency changes. */
    method UpdateCurrency(owner: string, currency: Option<string>) returns (r: Status)
      modifies this
      ensures transactions == old(transactions)
      ensures owner == "" ==> r == Failed(UsernameMissing) && settings == old(settings)
      ensures owner != "" ==> r == Success && settings == old(settings)[owner := currency.GetOr(DefaultCurrency)]
      ensures owner != "" ==> CurrencyOf(settings, owner) == currency.GetOr(DefaultCurrency)
      ensures forall o :: o != owner ==> CurrencyOf(settings, o) == CurrencyOf(old(settings), o)
    {
      if owner == "" {
        return Failed(UsernameMissing);
      }
      settings := settings[owner := currency.GetOr(DefaultCurrency)];
      r := Success;
    }

    /** GET /api/stats: an unknown owner is an error, not zero totals. */
    function Stats(owner: string): (r: Result<StatsReport>)
      reads this
      ensures owner == "" ==> r == Err(UsernameMissing)
      ensures owner != "" && owner !in transactions ==> r == Err(UserNotFound)
      ensures r.Ok? <==> owner != "" && owner in transactions
      ensures r.Ok? ==> r.value.currency == CurrencyOf(settings, owner)
      ensures r.Ok? ==> r.value.totals.balance == r.value.totals.totalIncome - r.value.totals.totalExpense
      ensures r.Ok? ==> r.value.totals.transactionCount == |transactions[owner]|
      ensures r.Ok? ==> r.value.totals == Aggregate(transactions[owner])
    {
      if owner == "" then Err(UsernameMissing)
      else if owner !in transactions then Err(UserNotFound)
      else Ok(StatsReport(Aggregate(transactions[owner]), CurrencyOf(settings, owner)))
    }

    /** GET /api/export/excel: every stored transaction, no filter. */
    method ExportCsv(owner: string, stamp: string) returns (r: Result<CsvExport>)
      ensures owner == "" ==> r == Err(UsernameMissing)
      ensures owner != "" && owner !in transactions ==> r == Err(UserNotFound)
      ensures owner != "" && owner in transactions ==> r.Ok?
      ensures r.Ok? ==> (
        owner in transactions &&
        var txs, rows := transactions[owner], r.value.rows;
        |rows| == |txs| + 1 && rows[0] == CsvHeader
        && (forall k :: 0 <= k < |txs| ==> rows[k + 1] == CsvRow(k + 1, txs[k], CurrencyOf(settings, owner)))
        && r.value.fileName == ExportFileName(owner, None, stamp, "csv"))
    {
      if owner == "" {
        return Err(UsernameMissing);
      }
      if owner !in transactions {
        return Err(UserNotFound);
      }
      var rows := BuildCsvRows(transactions[owner], CurrencyOf(settings, owner));
      r := Ok(CsvExport(rows, ExportFileName(owner, None, stamp, "csv")));
    }

    /** GET /api/export/word: the summary equals the statistics, counting the whole list. */
    method ExportWord(owner: string, stamp: string) returns (r: Result<WordReport>)
      ensures owner == "" ==> r == Err(UsernameMissing)
      ensures owner != "" && owner !in transactions ==> r == Err(UserNotFound)
      ensures r.Ok? <==> Stats(owner).Ok?
      ensures r.Ok? ==> (
        r.value.summary == Stats(owner).value.totals
        && r.value.currency == Stats(owner).value.currency
        && r.value.summary.transactionCount == |transactions[owner]|
        && r.value.fileName == ExportFileName(owner, None, stamp, "doc"))
      ensures r.Ok? ==> (
        owner in transactions &&
        |r.value.rows| == |transactions[owner]|
        && forall k :: 0 <= k < |transactions[owner]| ==>
             r.value.rows[k] == WordRowOf(k + 1, transactions[owner][k], r.value.currency))
    {
      if owner == "" {
        return Err(UsernameMissing);
      }
      if owner !in transactions {
        return Err(UserNotFound);
      }
      var txs := transactions[owner];
      var currency := CurrencyOf(settings, owner);
      var rows := BuildWordRows(txs, currency);
      r := Ok(WordReport(owner, currency, Aggregate(txs), rows, ExportFileName(owner, None, stamp, "doc")));
    }
  }
}
