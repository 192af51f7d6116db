/** The row builders of the two exports: the spreadsheet (CSV) rows, the
    labels and signs the Word report shares with them, a reader that turns a
    data row back into what it says about its transaction, and the download
    file names. */
module Export {
  import opened Ledger

  /** One CSV cell. `Fixed2(a)` stands for the amount written with two
      decimals (`f"{amount:.2f}"`); the digits themselves are not modelled. */
  datatype Field = Num(n: int) | Text(s: string) | Fixed2(amount: int)

  const InLabel: string := "Uang Masuk"
  const OutLabel: string := "Uang Keluar"

  /** `'Uang Masuk' if t.get('type') == 'income' else 'Uang Keluar'` */
  function TypeLabel(kind: string): (text: string)
    ensures text == InLabel || text == OutLabel
    ensures text == InLabel <==> kind == Income
  {
    if kind == Income then InLabel else OutLabel
  }

  /** `'+' if t.get('type') == 'income' else '-'` */
  function AmountSign(kind: string): (sign: string)
    ensures sign == "+" || sign == "-"
    ensures sign == "+" <==> kind == Income
  {
    if kind == Income then "+" else "-"
  }

  /** The CSS class of a Word table cell: any type other than income is shown as an expense. */
  function RowClass(kind: string): (cls: string)
    ensures cls == Income || cls == Expense
    ensures cls == Income <==> kind == Income
  {
    if kind == Income then Income else Expense
  }

  const CsvHeader: seq<Field> := [
    Text("No"), Text("Tanggal"), Text("Jenis"), Text("Keterangan"),
    Text("Jumlah"), Text("Mata Uang"), Text("Bukti Transfer"), Text("Dibuat Pada")]

  /** The CSV row of the `no`-th exported transaction. */
  function CsvRow(no: nat, t: Transaction, currency: string): (row: seq<Field>)
    ensures |row| == |CsvHeader|
  {
    [Num(no), Text(t.date), Text(TypeLabel(t.kind)), Text(t.description),
     Fixed2(t.amount), Text(currency), Text(t.proofDetails), Text(t.createdAt)]
  }

  /** What a spreadsheet user reads off one data row. */
  datatype RowView = RowView(
    no: int,
    date: string,
    incoming: bool,
    description: string,
    amount: int,
    currency: string,
    proofDetails: string,
    createdAt: string)

  /** The view a data row should give of the `no`-th transaction. */
  function ViewOf(no: nat, t: Transaction, currency: string): RowView {
    RowView(no, t.date, t.kind == Income, t.description, t.amount, currency, t.proofDetails, t.createdAt)
  }

  /** Reads a data row back; the header and malformed rows read as None. */
  function ReadCsvRow(row: seq<Field>): (v: Option<RowView>)
    ensures v.Some? ==> |row| == |CsvHeader| && row[0].Num?
  {
    if |row| == 8 && row[0].Num? && row[1].Text? && row[2].Text? && row[3].Text?
       && row[4].Fixed2? && row[5].Text? && row[6].Text? && row[7].Text?
       && (row[2].s == InLabel || row[2].s == OutLabel)
    then Some(RowView(row[0].n, row[1].s, row[2].s == InLabel, row[3].s,
                      row[4].amount, row[5].s, row[6].s, row[7].s))
    else None
  }

  /** Every data row reads back as its transaction: number, date, direction,
      description, amount, currency, proof and creation time. */
  lemma CsvRowReadsBack(no: nat, t: Transaction, currency: string)
    ensures ReadCsvRow(CsvRow(no, t, currency)) == Some(ViewOf(no, t, currency))
  {
  }

  /** The header is never mistaken for a data row. */
  lemma HeaderIsNotData()
    ensures ReadCsvRow(CsvHeader) == None
  {
  }

  /** `writer.writerow(header)` followed by the `for i, t in enumerate(txs, 1)`
      loop: the header first, then one row per transaction in order, numbered
      from 1 whatever the stored ids are. */
  method BuildCsvRows(txs: seq<Transaction>, currency: string) returns (rows: seq<seq<Field>>)
    ensures |rows| == |txs| + 1
    ensures rows[0] == CsvHeader && ReadCsvRow(rows[0]) == None
    ensures forall k :: 0 <= k < |txs| ==> rows[k + 1] == CsvRow(k + 1, txs[k], currency)
    ensures forall k :: 0 <= k < |txs| ==> ReadCsvRow(rows[k + 1]) == Some(ViewOf(k + 1, txs[k], currency))
  {
    HeaderIsNotData();
    rows := [CsvHeader];
    var i := 0;
    while i < |txs|
      invariant 0 <= i <= |txs|
      invariant |rows| == i + 1
      invariant rows[0] == CsvHeader
      invariant forall k :: 0 <= k < i ==> rows[k + 1] == CsvRow(k + 1, txs[k], currency)
      invariant forall k :: 0 <= k < i ==> ReadCsvRow(rows[k + 1]) == Some(ViewOf(k + 1, txs[k], currency))
    {
      CsvRowReadsBack(i + 1, txs[i], currency);
      rows := rows + [CsvRow(i + 1, txs[i], currency)];
      i := i + 1;
    }
  }

  /** The CSV download: its rows and its file name. */
  datatype CsvExport = CsvExport(rows: seq<seq<Field>>, fileName: string)

  const FilePrefix: string := "dh_finance_"

  /** `dh_finance_{owner}[_filter_{date}]_{stamp}.{ext}`, where `stamp` is the
      clock reading formatted as `%Y%m%d_%H%M%S`. */
  function ExportFileName(owner: string, filterDate: Option<string>, stamp: string, ext: string): (name: string)
    ensures |FilePrefix + owner| <= |name| && name[..|FilePrefix + owner|] == FilePrefix + owner
    ensures |ext| + 1 <= |name| && name[|name| - |ext| - 1..] == "." + ext
  {
    FileNameHead(owner, filterDate) + stamp + "." + ext
  }

  /** Everything of a file name before the time stamp. */
  function FileNameHead(owner: string, filterDate: Option<string>): string {
    FilePrefix + owner + (if FilterActive(filterDate) then "_filter_" + filterDate.value else "") + "_"
  }

  /** Two exports whose time stamps differ get different file names. */
  lemma FileNamesDifferByStamp(owner: string, filterDate: Option<string>, s1: string, s2: string, ext: string)
    requires s1 != s2
    ensures ExportFileName(owner, filterDate, s1, ext) != ExportFileName(owner, filterDate, s2, ext)
  {
    var head, tail := FileNameHead(owner, filterDate), "." + ext;
    var n1, n2 := ExportFileName(owner, filterDate, s1, ext), ExportFileName(owner, filterDate, s2, ext);
    assert n1 == head + s1 + tail;
    assert n2 == head + s2 + tail;
    assert n1[|head|..|head| + |s1|] == s1;
    assert n2[|head|..|head| + |s2|] == s2;
  }
}
