/**
 The three reports of the salary calculator (payroll, PAYE and SSNIT):
 a table of header labels and one row per ledger entry, the same data as
 one JSON object per entry, and the table as CSV.

 Reports only select and relabel stored amounts, rounding each again to
 hundredths; the SSNIT report also splits the basic salary into the
 contribution tiers. The date stamp of the file name is passed in.
 */
module Reports {
  import opened Money
  import opened Payroll
  import opened Ledger
  import Csv
  import Optional

  /** A table cell: the employee name or an amount. */
  datatype Cell = Text(text: string) | Num(amount: real)

  datatype ReportKind = PayrollReport | PayeReport | SsnitReport

  /** A built report: the JSON objects are key/value lists, in key order. */
  datatype Report = Report(
    title: string,
    filename: string,
    headers: seq<string>,
    rows: seq<seq<Cell>>,
    json: seq<seq<(string, Cell)>>)

  function Title(kind: ReportKind): string {
    match kind
    case PayeReport => "PAYE Report"
    case SsnitReport => "SSNIT Report"
    case PayrollReport => "Payroll Report"
  }

  function FilePrefix(kind: ReportKind): string {
    match kind
    case PayeReport => "paye-report-"
    case SsnitReport => "ssnit-report-"
    case PayrollReport => "payroll-report-"
  }

  /** The number of columns of each report. */
  function ColumnCount(kind: ReportKind): nat {
    match kind
    case PayeReport => 3
    case SsnitReport => 6
    case PayrollReport => 10
  }

  function Headers(kind: ReportKind): seq<string> {
    match kind
    case PayeReport => ["Employee", "Chargeable Income", "PAYE"]
    case SsnitReport => [
      "Employee", "Basic Salary", "Tier 1 Employer (5%)", "Tier 2 Employee (5.5%)",
      "Tier 2 Employer (8%)", "Tier 2 Total (13.5%)"]
    case PayrollReport => [
      "Employee", "Basic Salary", "Allowances", "Gross Pay", "SSNIT Employee (5.5%)",
      "PAYE", "Loan", "Total Deductions", "Net Pay", "SSNIT Employer (13%)"]
  }

  /** The JSON keys, column by column. */
  function JsonKeys(kind: ReportKind): seq<string> {
    match kind
    case PayeReport => ["employee", "chargeable_income", "paye"]
    case SsnitReport => [
      "employee", "basic_salary", "tier_1_employer", "tier_2_employee",
      "tier_2_employer", "tier_2_total"]
    case PayrollReport => [
      "employee", "basic_salary", "allowances", "gross_pay", "ssnit_employee",
      "paye", "loan", "total_deductions", "net_pay", "ssnit_employer"]
  }

  /** True iff `row` has `width` cells: the employee name, then amounts
      in whole hundredths. */
  predicate NameThenAmounts(row: seq<Cell>, name: string, width: nat) {
    && |row| == width && width > 0
    && row[0] == Text(name)
    && forall k :: 1 <= k < |row| ==> row[k].Num? && IsCents(row[k].amount)
  }

  /** The table row of one entry: the name, then one amount in
      hundredths per further column. */
  function Row(kind: ReportKind, e: Entry): (r: seq<Cell>)
    ensures NameThenAmounts(r, e.name, ColumnCount(kind))
  {
    match kind
    case PayeReport => PayeRow(e)
    case SsnitReport => SsnitRow(e)
    case PayrollReport => PayrollRow(e)
  }

  function PayeRow(e: Entry): (r: seq<Cell>)
    ensures NameThenAmounts(r, e.name, 3)
  {
    [Text(e.name), Num(RoundMoney(e.pay.chargeable)), Num(RoundMoney(e.pay.paye))]
  }

  /** The SSNIT row splits the basic salary into the contribution tiers. */
  function SsnitRow(e: Entry): (r: seq<Cell>)
    ensures NameThenAmounts(r, e.name, 6)
  {
    var basic := e.pay.basic;
    var tier1 := RoundMoney(EmployerTier1On(basic));
    var tier2Employee := RoundMoney(EmployeeSsnitOn(basic));
    var tier2Employer := RoundMoney(EmployerTier2On(basic));
    var tier2Total := RoundMoney(Tier2TotalOn(basic));
    [Text(e.name), Num(RoundMoney(basic)), Num(tier1), Num(tier2Employee), Num(tier2Employer), Num(tier2Total)]
  }

  function PayrollRow(e: Entry): (r: seq<Cell>)
    ensures NameThenAmounts(r, e.name, 10)
  {
    var p := e.pay;
    [Text(e.name), Num(RoundMoney(p.basic)), Num(RoundMoney(p.allowances)), Num(RoundMoney(p.gross)),
     Num(RoundMoney(p.employeeSsnit)), Num(RoundMoney(p.paye)), Num(RoundMoney(p.loan)),
     Num(RoundMoney(p.totalDeductions)), Num(RoundMoney(p.netPay)), Num(RoundMoney(p.employerSsnit))]
  }

  /** The JSON object of one entry: one key per column, in column order. */
  function JsonObject(kind: ReportKind, e: Entry): (r: seq<(string, Cell)>)
    ensures |r| == ColumnCount(kind)
    ensures forall k :: 0 <= k < |r| ==> r[k].0 == JsonKeys(kind)[k]
  {
    var p := e.pay;
    match kind
    case PayeReport => [
      ("employee", Text(e.name)),
      ("chargeable_income", Num(RoundMoney(p.chargeable))),
      ("paye", Num(RoundMoney(p.paye)))]
    case SsnitReport => [
      ("employee", Text(e.name)),
      ("basic_salary", Num(RoundMoney(p.basic))),
      ("tier_1_employer", Num(RoundMoney(EmployerTier1On(p.basic)))),
      ("tier_2_employee", Num(RoundMoney(EmployeeSsnitOn(p.basic)))),
      ("tier_2_employer", Num(RoundMoney(EmployerTier2On(p.basic)))),
      ("tier_2_total", Num(RoundMoney(Tier2TotalOn(p.basic))))]
    case PayrollReport => [
      ("employee", Text(e.name)),
      ("basic_salary", Num(RoundMoney(p.basic))),
      ("allowances", Num(RoundMoney(p.allowances))),
      ("gross_pay", Num(RoundMoney(p.gross))),
      ("ssnit_employee", Num(RoundMoney(p.employeeSsnit))),
      ("paye", Num(RoundMoney(p.paye))),
      ("loan", Num(RoundMoney(p.loan))),
      ("total_deductions", Num(RoundMoney(p.totalDeductions))),
      ("net_pay", Num(RoundMoney(p.netPay))),
      ("ssnit_employer", Num(RoundMoney(p.employerSsnit)))]
  }

  /** The header and the JSON keys have one label per column. */
  lemma HeaderShape(kind: ReportKind)
    ensures |Headers(kind)| == |JsonKeys(kind)| == ColumnCount(kind)
  {
  }

  /** An entry's row fits the header, starts with the employee name, and
      holds the same values, column by column, as its JSON object. */
  lemma RowMatchesJson(kind: ReportKind, e: Entry)
    ensures |Row(kind, e)| == ColumnCount(kind) && Row(kind, e)[0] == Text(e.name)
    ensures |JsonObject(kind, e)| == ColumnCount(kind)
    ensures forall k :: 0 <= k < ColumnCount(kind) ==> JsonObject(kind, e)[k] == (JsonKeys(kind)[k], Row(kind, e)[k])
  {
  }

  /** A report of the given kind over the ledger: one row and one JSON
      object per entry, in ledger order; each row as wide as the header
      (3, 6 or 10 columns), starting with the employee name and agreeing
      column by column with the entry's JSON object. */
  function BuildReport(kind: ReportKind, entries: seq<Entry>, dateStamp: string): (r: Report)
    ensures r.title == Title(kind) && r.filename == FilePrefix(kind) + dateStamp
    ensures |r.headers| == ColumnCount(kind) && r.headers == Headers(kind)
    ensures |r.rows| == |entries| && |r.json| == |entries|
    ensures forall i :: 0 <= i < |entries| ==> |r.rows[i]| == |r.headers| && r.rows[i][0] == Text(entries[i].name)
    ensures forall i :: 0 <= i < |entries| ==> r.rows[i] == Row(kind, entries[i])
    ensures forall i, k :: 0 <= i < |entries| && 0 <= k < |r.headers| ==>
      |r.json[i]| == |r.headers| && r.json[i][k] == (JsonKeys(kind)[k], r.rows[i][k])
  {
    var rows := seq(|entries|, i requires 0 <= i < |entries| => Row(kind, entries[i]));
    var json := seq(|entries|, i requires 0 <= i < |entries| => JsonObject(kind, entries[i]));
    forall i | 0 <= i < |entries|
      ensures |rows[i]| == ColumnCount(kind) && rows[i][0] == Text(entries[i].name)
      ensures |json[i]| == ColumnCount(kind)
      ensures forall k :: 0 <= k < ColumnCount(kind) ==> json[i][k] == (JsonKeys(kind)[k], rows[i][k])
    {
      RowMatchesJson(kind, entries[i]);
    }
    HeaderShape(kind);
    Report(Title(kind), FilePrefix(kind) + dateStamp, Headers(kind), rows, json)
  }

  /** For a ledger whose amounts are all in hundredths (as every ledger
      built by adding employees is), re-rounding in the reports changes
      nothing: the payroll and PAYE rows show the stored amounts. */
  lemma ReportsShowStoredAmounts(e: Entry)
    requires AllCents(e.pay)
    ensures var p := e.pay;
      PayrollRow(e) == [
        Text(e.name), Num(p.basic), Num(p.allowances), Num(p.gross), Num(p.employeeSsnit),
        Num(p.paye), Num(p.loan), Num(p.totalDeductions), Num(p.netPay), Num(p.employerSsnit)]
    ensures PayeRow(e) == [Text(e.name), Num(e.pay.chargeable), Num(e.pay.paye)]
  {
    var p := e.pay;
    RoundMoneyIdempotent(p.basic);
    RoundMoneyIdempotent(p.allowances);
    RoundMoneyIdempotent(p.gross);
    RoundMoneyIdempotent(p.employeeSsnit);
    RoundMoneyIdempotent(p.chargeable);
    RoundMoneyIdempotent(p.paye);
    RoundMoneyIdempotent(p.loan);
    RoundMoneyIdempotent(p.totalDeductions);
    RoundMoneyIdempotent(p.netPay);
    RoundMoneyIdempotent(p.employerSsnit);
  }

  /** The SSNIT tiers split the contributions: Tier 1 and the employer's
      Tier 2 make up the employer's 13%, and the two Tier 2 parts make up
      the 13.5% Tier 2 total. */
  lemma SsnitRatesSplit(basic: real)
    ensures EmployerTier1On(basic) + EmployerTier2On(basic) == EmployerSsnitOn(basic) == 0.13 * basic
    ensures EmployeeSsnitOn(basic) + EmployerTier2On(basic) == Tier2TotalOn(basic) == 0.135 * basic
  {
  }

  /** Two rounded parts of a sum add up to within a hundredth of the
      rounded sum, for both tier sums of a row at once. */
  lemma TierSumsDrift(x1: real, x2e: real, x2r: real, xe: real, xt: real)
    requires xe == x1 + x2r && xt == x2e + x2r
    ensures -0.01 <= RoundMoney(x1) + RoundMoney(x2r) - RoundMoney(xe) <= 0.01
    ensures -0.01 <= RoundMoney(x2e) + RoundMoney(x2r) - RoundMoney(xt) <= 0.01
  {
    RoundMoneySumDrift(x1, x2r, xe);
    RoundMoneySumDrift(x2e, x2r, xt);
  }

  /** In the SSNIT row, the rounded Tier 1 and employer Tier 2 amounts add
      up to within a hundredth of the rounded employer contribution, and
      the two rounded Tier 2 parts to within a hundredth of the rounded
      Tier 2 total. */
  lemma SsnitTiersAddUp(e: Entry)
    ensures var row := SsnitRow(e);
      && -0.01 <= row[2].amount + row[4].amount - RoundMoney(EmployerSsnitOn(e.pay.basic)) <= 0.01
      && -0.01 <= row[3].amount + row[4].amount - row[5].amount <= 0.01
  {
    var b := e.pay.basic;
    SsnitRatesSplit(b);
    TierSumsDrift(EmployerTier1On(b), EmployeeSsnitOn(b), EmployerTier2On(b), EmployerSsnitOn(b), Tier2TotalOn(b));
  }

  /** The text a cell is exported as; `show` stands for JavaScript's
      `String` on numbers. */
  function CellText(c: Cell, show: real -> string): string {
    match c
    case Text(s) => s
    case Num(x) => show(x)
  }

  function RowText(row: seq<Cell>, show: real -> string): (r: seq<string>)
    ensures |r| == |row|
    ensures forall k :: 0 <= k < |row| ==> r[k] == CellText(row[k], show)
  {
    seq(|row|, k requires 0 <= k < |row| => CellText(row[k], show))
  }

  /** The texts of a report's rows, one sequence of cell texts per row. */
  function RowTexts(r: Report, show: real -> string): (t: seq<seq<string>>)
    ensures |t| == |r.rows|
    ensures forall i :: 0 <= i < |r.rows| ==> t[i] == RowText(r.rows[i], show)
  {
    seq(|r.rows|, i requires 0 <= i < |r.rows| => RowText(r.rows[i], show))
  }

  /** The report as CSV. With a header and no empty row, it reads back as
      the header followed by the texts of the rows. */
  function ExportReportCsv(r: Report, show: real -> string): (csv: string)
    ensures |r.headers| > 0 && (forall i :: 0 <= i < |r.rows| ==> |r.rows[i]| > 0) ==>
      Csv.ParseCsv(csv) == Optional.Some([r.headers] + RowTexts(r, show))
  {
    Csv.ExportCsv(r.headers, RowTexts(r, show))
  }

  /** The CSV of a report reads back as its header line and then the
      texts of its rows, one line per ledger entry, in order. */
  lemma ReportCsvRoundTrip(kind: ReportKind, entries: seq<Entry>, dateStamp: string, show: real -> string)
    ensures var r := BuildReport(kind, entries, dateStamp);
      Csv.ParseCsv(ExportReportCsv(r, show)) == Optional.Some([Headers(kind)] + RowTexts(r, show))
  {
    var r := BuildReport(kind, entries, dateStamp);
    assert |r.headers| > 0 && forall i :: 0 <= i < |r.rows| ==> |r.rows[i]| > 0;
  }

  /** The text lines of a report: one per ledger entry, in order, each as
      wide as the header and starting with the employee name. */
  lemma ReportRowTexts(kind: ReportKind, entries: seq<Entry>, dateStamp: string, show: real -> string)
    ensures var t := RowTexts(BuildReport(kind, entries, dateStamp), show);
      && |t| == |entries|
      && forall i :: 0 <= i < |entries| ==> |t[i]| == ColumnCount(kind) && t[i][0] == entries[i].name
  {
  }
}
