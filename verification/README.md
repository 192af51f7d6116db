# DH Finance ledger model

DH Finance is a small Flask application that keeps a personal income/expense
ledger per user. It stores three JSON files: users, per-owner transaction lists
and per-owner settings (the display currency). This project models the ledger
engine inside its request handlers, with HTTP and file I/O removed. There are
two server variants, each a module over shared datatypes:

- `Ledger` (ledger.dfy) holds what both variants share:
  - the transaction record and the request payload;
  - id assignment: the largest existing id plus one, with a missing id counting as 0;
  - the list comprehensions as one order-preserving `Filter`;
  - the exact-string date filter;
  - the income/expense/balance/count totals.
- `Export` (export.dfy) holds the CSV header and rows, the "Uang Masuk"/"Uang
  Keluar" labels, the `+`/`-` signs, a reader that turns a data row back into
  what it says, and the download file names.
- `CurrentServer` (current_server.dfy) models `app.py`:
  - registration checks;
  - the listing with its date filter;
  - adding with proof-link normalisation;
  - deleting via a search loop;
  - the currency settings and the statistics, which give zero totals to an unknown owner;
  - the CSV and Word exports, the latter with a currency-symbol table.
- `EarlierServer` (earlier_server.dfy) models `App.py`:
  - adding, which stores the proof details as sent;
  - deleting, which is detected by the list getting shorter;
  - the listing, which has no filter;
  - statistics that refuse an unknown owner;
  - the currency update;
  - exports without a filter, whose Word rows carry the currency code instead of a symbol.

The store of each variant is a `Server` class. Its fields are maps from owner to
transaction list, owner to currency and, for `app.py`, user name to user record.
Each handler loads the files, changes them and saves them; here it reassigns
those fields instead. Clock readings (today's date, `createdAt`, the file-name
time stamp) are parameters. Amounts are integers, for example minor units.

Where the behaviour described for the system and the code differ, the model
follows the code:

- The Word export's symbol for an unknown currency code is the code itself (`currency_symbols.get(code, code)`), not "Rp".
- A transaction's type is stored as sent and is not forced to "expense".
- The statistics report `filtered` as "a filter parameter was sent", so an empty filter reads as filtered while nothing is filtered.

## Model

| member | source | states |
|---|---|---|
| Ledger.AmountOf | app.py:474 | `float(amount)` fails exactly for a non-numeric amount; an absent amount is 0 and a numeric one passes through |
| Ledger.IdOrZero | app.py:458 | `t.get('id', 0)`: the stored id, or 0 for a record without one |
| Ledger.CurrencyOf | app.py:674 | the owner's stored currency, or "IDR" for an owner without settings |
| Ledger.FilterActive | app.py:664 | `if filter_date:` is false exactly for an absent or empty filter |
| Ledger.SumOfKind | app.py:670-671 | a per-type sum is 0 when no record has that type, and never negative when no amount is |
| Ledger.MaxId | app.py:458-459 | the result bounds every id (a missing id counts as 0) and is one of them |
| Ledger.NextId | app.py:458-459 | the new id exceeds every existing id; it is 1 for an empty list and otherwise one more than some existing id |
| Ledger.NextIdKeepsIdsUnique | app.py:458-482 | appending a record stamped with the next id keeps the ids of a list distinct |
| Ledger.Filter | app.py:413-417 | a comprehension never lengthens the list |
| Ledger.FilterCounts | app.py:413-417 | the filter keeps exactly the elements meeting the condition, each with its multiplicity in the input |
| Ledger.FilterAppend | app.py:413-417 | filtering distributes over concatenation, so the kept records stay in their original order |
| Ledger.FilterShorter | App.py:444-451 | the rebuilt list is shorter iff some record fails the condition; if it is not shorter, it is the list itself |
| Ledger.FilterKeepsIdsUnique | app.py:531-534 | removing records keeps the remaining ids distinct |
| Ledger.OnDate | app.py:413-417 | a record is kept iff its date string equals the filter |
| Ledger.WithoutId | app.py:531-534 | a record is kept iff it does not carry the deleted id (records without an id are kept) |
| Ledger.ApplyDateFilter | app.py:664-668 | an absent or empty filter keeps everything; otherwise membership is exact date equality |
| Ledger.SumOfKindIsFilteredSum | app.py:670-671 | a per-type sum equals the plain sum over the records of that type |
| Ledger.SumOfKindAppend | app.py:670-671 | per-type sums add up over concatenated lists |
| Ledger.Aggregate | app.py:670-682 | balance = income - expense, the count is the list length, and an empty list gives zero totals |
| Ledger.AggregateAppend | app.py:670-672 | one more record changes the totals by exactly its contribution |
| Ledger.AggregateIsRunningTotals | app.py:670-672 | the totals computed at once equal the totals accumulated record by record |
| Ledger.OtherKindOnlyCounted | app.py:670-672 | a record typed neither income nor expense is counted but added to neither total |
| Ledger.FilteredTotalsAfterAppend | app.py:664-672 | after an append, the filtered totals move by the record's contribution iff it passes the filter |
| Export.TypeLabel | app.py:737 | the label is "Uang Masuk" iff the type is income, otherwise "Uang Keluar" |
| Export.AmountSign | app.py:891 | the sign is "+" iff the type is income, otherwise "-" |
| Export.RowClass | app.py:890 | the cell class is income iff the type is income, otherwise expense |
| Export.CsvRow | app.py:734-743 | a data row has as many cells as the header |
| Export.ReadCsvRow | app.py:731-743 | only well-formed data rows are read back |
| Export.CsvRowReadsBack | app.py:734-743 | a data row reads back as its transaction: number, date, direction, description, amount, currency, proof, creation time |
| Export.HeaderIsNotData | app.py:731 | the header row never reads as a transaction |
| Export.BuildCsvRows | app.py:731-743 | the header comes first even for no transactions; then one row per transaction in order, numbered 1..n whatever the ids, each reading back as its transaction |
| Export.ExportFileName | app.py:751-752 | the name starts with `dh_finance_<owner>` and ends with `.<ext>` |
| Export.FileNamesDifferByStamp | app.py:751-752 | exports with different time stamps get different file names |
| CurrentServer.HasScheme | app.py:466 | true exactly for text starting with `http://` or `https://` |
| CurrentServer.NormaliseProof | app.py:462-469 | no proof gives the placeholder; details with a scheme or empty details are kept; other details get `https://` |
| CurrentServer.NormalisedProofIsLink | app.py:465-467 | with proof on, the stored details are empty or carry an http(s) scheme |
| CurrentServer.NormaliseProofIdempotent | app.py:465-469 | normalising stored details again changes nothing |
| CurrentServer.NewTransaction | app.py:461-480 | the record has the given id and defaults (expense, "Tanpa keterangan", today, amount 0) and normalised proof; a non-numeric amount fails |
| CurrentServer.TrimStart | app.py:323-325 | removes exactly the leading white space |
| CurrentServer.TrimEnd | app.py:323-325 | removes exactly the trailing white space |
| CurrentServer.Strip | app.py:323-325 | the result is a middle slice of the input, everything cut off on either side is white space, and it neither starts nor ends with white space |
| CurrentServer.StripIdempotent | app.py:323-325 | stripping twice is stripping once |
| CurrentServer.RegistrationCheck | app.py:327-351 | registration passes iff the user name has at least 3 characters, the password at least 6 and the name is free; otherwise the first failing check in the handler's order is reported: missing credentials, short user name, short password, name taken |
| CurrentServer.FindById | app.py:518-522 | finds nothing iff no record has the id; otherwise it returns the first record with it |
| CurrentServer.SymbolFor | app.py:816-827 | the table's symbol for a known code; for an unknown code the code itself, and only then |
| CurrentServer.WordRowOf | app.py:889-913 | the row keeps number and amount; the sign is "+" iff income, in step with the label |
| CurrentServer.WordRowMatchesCsvRow | app.py:889-913 | a Word row states the same number, date, direction, description, amount, proof and time as the CSV row |
| CurrentServer.BuildWordRows | app.py:889-913 | one row per transaction in order, numbered from 1, with the sign "+" iff income |
| CurrentServer.Server.Register | app.py:319-377 | a failed check changes nothing; otherwise the user is stored with stripped fields, and the currency "IDR" and an empty list are created when absent |
| CurrentServer.Server.GetTransactions | app.py:386-437 | an unknown owner gets an empty list stored and returned; otherwise the date-filtered list with its count, and `filtered` iff the filter is active |
| CurrentServer.Server.AddTransaction | app.py:440-495 | appends exactly the new record to the owner's list, creating it if absent; no other list changes; the id exceeds all earlier ids; distinct ids stay distinct |
| CurrentServer.Server.DeleteTransaction | app.py:498-548 | not found iff no record has the id, and then nothing changes; success iff some record has it, and then every record with the id goes, the rest keep their order, and the first match is reported |
| CurrentServer.Server.GetSettings | app.py:551-577 | returns the owner's currency, storing "IDR" for an owner without settings |
| CurrentServer.Server.UpdateCurrency | app.py:580-611 | sets the owner's currency ("IDR" when none is sent) and no other owner's |
| CurrentServer.Server.Stats | app.py:633-693 | balance = income - expense; the count is the filtered length; an unknown owner gets zero totals and the currency from settings or "IDR" |
| CurrentServer.Server.ExportCsv | app.py:696-765 | the header, then one row per filtered transaction with the owner's currency; the row count equals the statistics count; the file name carries the filter |
| CurrentServer.Server.ExportWord | app.py:768-946 | the summary equals the statistics totals and currency; the symbol comes from the table; the filter note appears only for an active filter; one row per filtered transaction |
| EarlierServer.NewTransaction | App.py:394-404 | the same defaults, but the proof details are stored as sent and the placeholder applies only when they are absent |
| EarlierServer.NewTransactionsAgree | App.py:394-404 | with proof on and details empty or with a scheme, both variants build the same record |
| EarlierServer.NewTransactionsDisagree | App.py:402 | without the proof flag the earlier variant keeps details the current one replaces |
| EarlierServer.WordRowOf | App.py:688-702 | the row keeps number, amount and currency code; the sign is "+" iff income |
| EarlierServer.BuildWordRows | App.py:688-702 | one row per stored transaction in order, numbered from 1 |
| EarlierServer.Server.GetTransactions | App.py:341-368 | an unknown owner gets an empty list created; otherwise the whole list, unchanged |
| EarlierServer.Server.AddTransaction | App.py:371-420 | appends exactly the new record, creating the list if absent; the id exceeds all earlier ids; distinct ids stay distinct |
| EarlierServer.Server.DeleteTransaction | App.py:423-466 | succeeds iff some record had the id, and then removes them all in order; otherwise reports not found and changes nothing |
| EarlierServer.Server.UpdateCurrency | App.py:498-528 | sets only this owner's currency, creating the record if absent |
| EarlierServer.Server.Stats | App.py:737-782 | an unknown owner is an error; otherwise balance = income - expense over the whole list and the count is its length |
| EarlierServer.Server.ExportCsv | App.py:531-594 | the header, then one row per stored transaction in order, numbered from 1, with no filter |
| EarlierServer.Server.ExportWord | App.py:597-734 | the summary equals the statistics and counts the whole list; rows carry the sign and the currency code |

## Left out

- Reading and writing the JSON files, the demo data, backup/restore, the health checks, the HTML fallback pages and Flask routing and responses are not modelled. The store is an in-memory object.
- Login, its plaintext password comparison, and App.py's `register`, `login` and `get_settings` are not modelled. App.py's `get_settings` matches the current one.
- `get_currencies` only returns a constant list and is not modelled.
- Floating point is not modelled. Amounts are integers, and `:.2f`/`:,.2f` formatting is represented by the amount itself (`Fixed2`).
- CSV quoting, the UTF-8 BOM and the HTML markup around the Word rows are not modelled. Rows are sequences of fields or records of cell values.
- CurrentServer.WordRowOf: the date cell holds the stored date string. The `strptime`/`strftime` reformatting to a long date is left out because it depends on the locale.
- CurrentServer.Strip: it removes ASCII white space only. Unicode white space that Python's `str.strip()` also removes is not modelled.
- A request value that is present but null, and a non-boolean `hasProof` value, are not modelled. Owners are strings, with "" standing for a missing user name, and `hasProof` is a boolean.
- Stored records missing keys other than `id` are not modelled. A settings record without a `currency` key is not modelled either; settings map an owner straight to a currency code.
- Unexpected exceptions other than a non-numeric amount, which becomes `Unexpected` with the store unchanged, are not modelled.
- Concurrent requests and their unsynchronised read-modify-write of the shared files are not modelled.
