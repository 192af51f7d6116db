/** The ledger shared by both versions of the DH Finance server (app.py and
    its predecessor App.py): the stored transaction record, the incoming
    payload, the failure answers of the request handlers, the per-owner
    lookups, the list filter used for dates and deletions, and the totals. */
module Ledger {

  datatype Option<+T> = None | Some(value: T) {
    /** `dict.get(key, default)` on a field that may be absent */
    function GetOr(default: T): T {
      match this
      case Some(v) => v
      case None => default
    }
  }

  /** Why a handler answered `success: false`; each constructor stands for
      the message shown beside it. */
  datatype Failure =
    | UsernameMissing       // "Username tidak ditemukan"
    | UserNotFound          // "User tidak ditemukan"
    | TransactionNotFound   // "Transaksi tidak ditemukan"
    | CredentialsMissing    // "Username dan password harus diisi"
    | UsernameTooShort      // "Username minimal 3 karakter"
    | PasswordTooShort      // "Password minimal 6 karakter"
    | UsernameTaken         // "Username sudah terdaftar"
    | Unexpected            // "Terjadi kesalahan: ..." from the handler's `except` clause

  datatype Result<+T> = Ok(value: T) | Err(failure: Failure)

  /** Answer of a handler that reports only success or a failure. */
  datatype Status = Success | Failed(failure: Failure)

  const Income: string := "income"
  const Expense: string := "expense"
  const DefaultCurrency: string := "IDR"
  const DefaultDescription: string := "Tanpa keterangan"
  const NoProof: string := "Tidak ada bukti transfer"

  /** A stored transaction. `kind` is the record's `type` key, kept as the
      string the client sent; `id` is optional because a record without one
      can sit in the store. Amounts are integers (minor units). */
  datatype Transaction = Transaction(
    id: Option<int>,
    kind: string,
    amount: int,
    description: string,
    date: string,
    hasProof: bool,
    proofDetails: string,
    createdAt: string)

  /** The `amount` key of a request: absent, a number, or something `float()` rejects. */
  datatype AmountField = Absent | Numeric(value: int) | NotNumeric

  /** The JSON body of a POST to /api/transactions; `username` is "" when absent. */
  datatype Payload = Payload(
    username: string,
    kind: Option<string>,
    amount: AmountField,
    description: Option<string>,
    date: Option<string>,
    hasProof: Option<bool>,
    proofDetails: Option<string>)

  /** `float(data.get('amount', 0))`, whose ValueError the handler catches */
  function AmountOf(a: AmountField): (r: Result<int>)
    ensures r.Err? <==> a == NotNumeric
    ensures a == Absent ==> r == Ok(0)
    ensures a.Numeric? ==> r == Ok(a.value)
  {
    match a
    case Absent => Ok(0)
    case Numeric(v) => Ok(v)
    case NotNumeric => Err(Unexpected)
  }

  // ---------------------------------------------------------------------
  // Per-owner lookups

  /** The owner's list, or the empty list the handlers create for a new owner */
  function ListOf(store: map<string, seq<Transaction>>, owner: string): seq<Transaction> {
    if owner in store then store[owner] else []
  }

  /** `settings_data.get(owner, {}).get('currency', 'IDR')` */
  function CurrencyOf(settings: map<string, string>, owner: string): (code: string)
    ensures owner in settings ==> code == settings[owner]
    ensures owner !in settings ==> code == DefaultCurrency
  {
    if owner in settings then settings[owner] else DefaultCurrency
  }

  // ---------------------------------------------------------------------
  // Id assignment

  /** `t.get('id', 0)` */
  function IdOrZero(t: Transaction): (n: int)
    ensures t.id.Some? ==> n == t.id.value
    ensures t.id.None? ==> n == 0
  {
    t.id.GetOr(0)
  }

  /** `max(existing_ids)` over a non-empty list */
  function MaxId(txs: seq<Transaction>): (m: int)
    requires |txs| > 0
    ensures forall i :: 0 <= i < |txs| ==> IdOrZero(txs[i]) <= m
    ensures exists i :: 0 <= i < |txs| && IdOrZero(txs[i]) == m
    decreases |txs|
  {
    if |txs| == 1 then IdOrZero(txs[0])
    else
      var rest := MaxId(txs[1..]);
      if rest <= IdOrZero(txs[0]) then IdOrZero(txs[0]) else rest
  }

  /** `max(existing_ids) + 1 if existing_ids else 1` */
  function NextId(txs: seq<Transaction>): (n: int)
    ensures forall i :: 0 <= i < |txs| ==> IdOrZero(txs[i]) < n
    ensures |txs| == 0 ==> n == 1
    ensures |txs| > 0 ==> exists i :: 0 <= i < |txs| && n == IdOrZero(txs[i]) + 1
  {
    if |txs| == 0 then 1 else MaxId(txs) + 1
  }

  /** No two records of a list carry the same id (records without an id are not compared). */
  ghost predicate UniqueIds(txs: seq<Transaction>) {
    forall i, j :: 0 <= i < |txs| && 0 <= j < |txs| && i != j && txs[i].id.Some? ==> txs[i].id != txs[j].id
  }

  /** Appending a record stamped with NextId keeps the ids of a list distinct. */
  lemma NextIdKeepsIdsUnique(txs: seq<Transaction>, t: Transaction)
    requires UniqueIds(txs)
    requires t.id == Some(NextId(txs))
    ensures UniqueIds(txs + [t])
  {
    var s := txs + [t];
    forall i, j | 0 <= i < |s| && 0 <= j < |s| && i != j && s[i].id.Some?
      ensures s[i].id != s[j].id
    {
      if i == |txs| {
        assert IdOrZero(s[j]) < NextId(txs);
      } else if j == |txs| {
        assert IdOrZero(s[i]) < NextId(txs);
      } else {
        assert s[i] == txs[i] && s[j] == txs[j];
      }
    }
  }

  // ---------------------------------------------------------------------
  // List comprehensions `[t for t in s if <condition>]`

  /** The conditions the handlers' list comprehensions test. */
  datatype Condition = DateIs(date: string) | IdIsNot(id: int) | KindIs(kind: string)

  predicate Holds(c: Condition, t: Transaction) {
    match c
    case DateIs(d) => t.date == d
    case IdIsNot(id) => t.id != Some(id)
    case KindIs(k) => t.kind == k
  }

  function Filter(s: seq<Transaction>, c: Condition): (r: seq<Transaction>)
    ensures |r| <= |s|
    decreases |s|
  {
    if s == [] then [] else (if Holds(c, s[0]) then [s[0]] else []) + Filter(s[1..], c)
  }

  /** The filter keeps exactly the elements that satisfy the condition, each as often as it occurs. */
  lemma {:induction false} FilterCounts(s: seq<Transaction>, c: Condition)
    ensures forall x :: multiset(Filter(s, c))[x] == if Holds(c, x) then multiset(s)[x] else 0
    ensures forall x :: x in Filter(s, c) <==> x in s && Holds(c, x)
    decreases |s|
  {
    if s != [] {
      FilterCounts(s[1..], c);
      assert s == [s[0]] + s[1..];
      assert multiset(s) == multiset([s[0]]) + multiset(s[1..]);
      var head: seq<Transaction> := if Holds(c, s[0]) then [s[0]] else [];
      assert multiset(Filter(s, c)) == multiset(head) + multiset(Filter(s[1..], c));
      forall x ensures x in Filter(s, c) <==> x in s && Holds(c, x) {
        assert x in Filter(s, c) <==> multiset(Filter(s, c))[x] > 0;
        assert x in s <==> multiset(s)[x] > 0;
      }
    }
  }

  /** Filtering distributes over concatenation: kept elements stay in their original order. */
  lemma {:induction false} FilterAppend(a: seq<Transaction>, b: seq<Transaction>, c: Condition)
    ensures Filter(a + b, c) == Filter(a, c) + Filter(b, c)
    decreases |a|
  {
    if a == [] {
      assert a + b == b;
    } else {
      var head: seq<Transaction> := if Holds(c, a[0]) then [a[0]] else [];
      assert (a + b)[0] == a[0];
      assert (a + b)[1..] == a[1..] + b;
      FilterAppend(a[1..], b, c);
      calc {
        Filter(a + b, c);
        head + Filter(a[1..] + b, c);
        head + (Filter(a[1..], c) + Filter(b, c));
        (head + Filter(a[1..], c)) + Filter(b, c);
      }
    }
  }

  /** The filtered list is shorter exactly when some element fails the condition,
      and a filter that drops nothing returns the list itself. */
  lemma {:induction false} FilterShorter(s: seq<Transaction>, c: Condition)
    ensures |Filter(s, c)| < |s| <==> exists i :: 0 <= i < |s| && !Holds(c, s[i])
    ensures |Filter(s, c)| == |s| ==> Filter(s, c) == s
    decreases |s|
  {
    if s != [] {
      FilterShorter(s[1..], c);
      if !Holds(c, s[0]) {
        assert !Holds(c, s[0]);
      } else if exists i :: 0 <= i < |s[1..]| && !Holds(c, s[1..][i]) {
        var i :| 0 <= i < |s[1..]| && !Holds(c, s[1..][i]);
        assert !Holds(c, s[i + 1]);
      } else {
        assert s == [s[0]] + s[1..];
        forall i | 0 <= i < |s| ensures Holds(c, s[i]) {
          if i > 0 { assert s[i] == s[1..][i - 1]; }
        }
      }
    }
  }

  /** A list headed by `h` has distinct ids exactly when its rest has and no
      record of the rest repeats the id of `h`. */
  lemma UniqueIdsCons(h: Transaction, rest: seq<Transaction>)
    ensures UniqueIds([h] + rest) <==>
      UniqueIds(rest) && (h.id.Some? ==> forall x :: x in rest ==> x.id != h.id)
  {
    var s := [h] + rest;
    if UniqueIds(s) {
      forall i, j | 0 <= i < |rest| && 0 <= j < |rest| && i != j && rest[i].id.Some?
        ensures rest[i].id != rest[j].id
      {
        assert rest[i] == s[i + 1] && rest[j] == s[j + 1];
      }
      forall x | x in rest && h.id.Some? ensures x.id != h.id {
        var m :| 0 <= m < |rest| && rest[m] == x;
        assert s[m + 1] == x && s[0] == h;
      }
    }
    if UniqueIds(rest) && (h.id.Some? ==> forall x :: x in rest ==> x.id != h.id) {
      forall i, j | 0 <= i < |s| && 0 <= j < |s| && i != j && s[i].id.Some?
        ensures s[i].id != s[j].id
      {
        if i == 0 {
          assert s[j] == rest[j - 1];
        } else if j == 0 {
          assert s[i] == rest[i - 1] && s[i] in rest;
        } else {
          assert s[i] == rest[i - 1] && s[j] == rest[j - 1];
        }
      }
    }
  }

  /** Filtering a list with distinct ids leaves the ids distinct. */
  lemma {:induction false} FilterKeepsIdsUnique(s: seq<Transaction>, c: Condition)
    requires UniqueIds(s)
    ensures UniqueIds(Filter(s, c))
    decreases |s|
  {
    if s != [] {
      assert s == [s[0]] + s[1..];
      UniqueIdsCons(s[0], s[1..]);
      FilterKeepsIdsUnique(s[1..], c);
      FilterCounts(s[1..], c);
      if Holds(c, s[0]) {
        UniqueIdsCons(s[0], Filter(s[1..], c));
      }
    }
  }

  /** `[t for t in txs if t.get('date') == d]` */
  function OnDate(txs: seq<Transaction>, d: string): (r: seq<Transaction>)
    ensures forall t :: t in r <==> t in txs && t.date == d
  {
    FilterCounts(txs, DateIs(d));
    Filter(txs, DateIs(d))
  }

  /** `[t for t in txs if t.get('id') != id]` */
  function WithoutId(txs: seq<Transaction>, id: int): (r: seq<Transaction>)
    ensures forall t :: t in r <==> t in txs && t.id != Some(id)
  {
    FilterCounts(txs, IdIsNot(id));
    Filter(txs, IdIsNot(id))
  }

  /** `if filter_date:` is false for an absent and for an empty filter */
  function FilterActive(filterDate: Option<string>): (active: bool)
    ensures !active <==> filterDate == None || filterDate == Some("")
  {
    filterDate.Some? && filterDate.value != ""
  }

  /** The date filter of app.py: exact string equality, and no filtering without a filter. */
  function ApplyDateFilter(txs: seq<Transaction>, filterDate: Option<string>): (r: seq<Transaction>)
    ensures !FilterActive(filterDate) ==> r == txs
    ensures FilterActive(filterDate) ==> forall t :: t in r <==> t in txs && t.date == filterDate.value
  {
    if FilterActive(filterDate) then OnDate(txs, filterDate.value) else txs
  }

  // ---------------------------------------------------------------------
  // Totals

  /** `sum(t.get('amount', 0) for t in txs if t.get('type') == kind)` */
  function SumOfKind(txs: seq<Transaction>, kind: string): (total: int)
    ensures (forall i :: 0 <= i < |txs| ==> txs[i].kind != kind) ==> total == 0
    ensures (forall i :: 0 <= i < |txs| ==> txs[i].amount >= 0) ==> total >= 0
    decreases |txs|
  {
    if txs == [] then 0
    else (if txs[0].kind == kind then txs[0].amount else 0) + SumOfKind(txs[1..], kind)
  }

  /** The sum of every amount in a list, whatever its type. */
  function SumAmounts(txs: seq<Transaction>): int
    decreases |txs|
  {
    if txs == [] then 0 else txs[0].amount + SumAmounts(txs[1..])
  }

  /** A per-type sum is the plain sum over the records of that type. */
  lemma {:induction false} SumOfKindIsFilteredSum(txs: seq<Transaction>, kind: string)
    ensures SumOfKind(txs, kind) == SumAmounts(Filter(txs, KindIs(kind)))
    decreases |txs|
  {
    if txs != [] {
      SumOfKindIsFilteredSum(txs[1..], kind);
      var rest := Filter(txs[1..], KindIs(kind));
      if txs[0].kind == kind {
        assert Filter(txs, KindIs(kind)) == [txs[0]] + rest;
        assert ([txs[0]] + rest)[1..] == rest;
      } else {
        assert Filter(txs, KindIs(kind)) == rest;
      }
    }
  }

  lemma {:induction false} SumOfKindAppend(a: seq<Transaction>, b: seq<Transaction>, kind: string)
    ensures SumOfKind(a + b, kind) == SumOfKind(a, kind) + SumOfKind(b, kind)
    decreases |a|
  {
    if a == [] {
      assert a + b == b;
    } else {
      assert (a + b)[1..] == a[1..] + b;
      SumOfKindAppend(a[1..], b, kind);
    }
  }

  /** The stats block of the responses and of the Word report. */
  datatype Totals = Totals(totalIncome: int, totalExpense: int, balance: int, transactionCount: nat)

  const NoTotals: Totals := Totals(0, 0, 0, 0)

  function Aggregate(txs: seq<Transaction>): (r: Totals)
    ensures r.balance == r.totalIncome - r.totalExpense
    ensures r.transactionCount == |txs|
    ensures txs == [] ==> r == NoTotals
  {
    var income := SumOfKind(txs, Income);
    var expense := SumOfKind(txs, Expense);
    Totals(income, expense, income - expense, |txs|)
  }

  /** What one more record adds to running totals: its amount goes to the
      income or the expense side according to its type, or to neither. */
  function Contribute(totals: Totals, t: Transaction): Totals {
    var income := totals.totalIncome + (if t.kind == Income then t.amount else 0);
    var expense := totals.totalExpense + (if t.kind == Expense then t.amount else 0);
    Totals(income, expense, income - expense, totals.transactionCount + 1)
  }

  /** Totals accumulated record by record, as a running ledger would keep them. */
  function RunningTotals(txs: seq<Transaction>): Totals
    decreases |txs|
  {
    if txs == [] then NoTotals else Contribute(RunningTotals(txs[..|txs| - 1]), txs[|txs| - 1])
  }

  /** Appending a record changes the totals by exactly that record's contribution. */
  lemma AggregateAppend(txs: seq<Transaction>, t: Transaction)
    ensures Aggregate(txs + [t]) == Contribute(Aggregate(txs), t)
  {
    SumOfKindAppend(txs, [t], Income);
    SumOfKindAppend(txs, [t], Expense);
  }

  /** The totals computed at once equal the totals accumulated one record at a time. */
  lemma {:induction false} AggregateIsRunningTotals(txs: seq<Transaction>)
    ensures Aggregate(txs) == RunningTotals(txs)
    decreases |txs|
  {
    if txs != [] {
      var init := txs[..|txs| - 1];
      AggregateIsRunningTotals(init);
      assert txs == init + [txs[|txs| - 1]];
      AggregateAppend(init, txs[|txs| - 1]);
    }
  }

  /** A record whose type is neither "income" nor "expense" is counted and summed nowhere. */
  lemma OtherKindOnlyCounted(txs: seq<Transaction>, t: Transaction)
    requires t.kind != Income && t.kind != Expense
    ensures var before, after := Aggregate(txs), Aggregate(txs + [t]);
      after.totalIncome == before.totalIncome && after.totalExpense == before.totalExpense
      && after.balance == before.balance && after.transactionCount == before.transactionCount + 1
  {
    AggregateAppend(txs, t);
  }

  /** Totals over a filtered list after appending a record: unchanged when the
      record misses the filter, otherwise increased by its contribution. */
  lemma FilteredTotalsAfterAppend(txs: seq<Transaction>, t: Transaction, filterDate: Option<string>)
    ensures Aggregate(ApplyDateFilter(txs + [t], filterDate)) ==
      if !FilterActive(filterDate) || t.date == filterDate.value
      then Contribute(Aggregate(ApplyDateFilter(txs, filterDate)), t)
      else Aggregate(ApplyDateFilter(txs, filterDate))
  {
    if FilterActive(filterDate) {
      var c := DateIs(filterDate.value);
      assert ApplyDateFilter(txs + [t], filterDate) == Filter(txs + [t], c);
      assert ApplyDateFilter(txs, filterDate) == Filter(txs, c);
      FilterAppend(txs, [t], c);
      assert [t][1..] == [];
      assert Filter([t], c) == (if Holds(c, t) then [t] else []) + Filter([], c);
      if Holds(c, t) {
        assert Filter([t], c) == [t];
        AggregateAppend(Filter(txs, c), t);
      } else {
        assert Filter(txs, c) + [] == Filter(txs, c);
      }
    } else {
      AggregateAppend(txs, t);
    }
  }
}
