# Salary calculator payroll engine, in Dafny

A model of the payroll engine behind the salary calculator page of the
utilities site (`utilities/src/app/tools/salary/page.tsx`). Money is held as
exact `real`s. The model covers:

- money rounding to pesewas (`roundMoney`);
- the progressive monthly PAYE schedule, both as the page's if-chain
  (`calculatePaye`) and as its bracket table (`PAYE_BRACKETS`);
- the net-to-chargeable solver (`calculateChargeableFromNet`);
- the forward breakdown: basic salary and allowances, through SSNIT, PAYE
  and loan, to net pay, with every field rounded on its own;
- the reverse breakdown from a net pay;
- the session ledger of employees: add, and remove by id;
- the three reports (payroll, PAYE, SSNIT), as rows and as JSON objects;
- the CSV export of a report.

Modules, one per file:

| module | file | holds |
|---|---|---|
| `Optional` | Optional.dfy | `Option` |
| `Money` | Money.dfy | `RoundMoney` and its laws |
| `Paye` | Paye.dfy | the if-chain, the bracket table, monotonicity, the step at 3896.67 |
| `NetSolver` | NetSolver.dfy | the band-by-band solver and its inverse property |
| `Payroll` | Payroll.dfy | SSNIT contributions, the forward and reverse breakdowns |
| `Ledger` | Ledger.dfy | `Trim`, adding and removing employees |
| `Reports` | Reports.dfy | report rows, JSON objects, the report as CSV |
| `Csv` | Csv.dfy | the quoted CSV encoding and a parser that reads it back |

Rates follow the page's constants:

- the employee pays 5.5% of the basic salary (Tier 2);
- the employer pays 5% (Tier 1) and 8% (Tier 2), which is 13% in all;
- the Tier 2 total is 13.5%.

Two results follow from working in exact reals:

- **The PAYE schedule has a step at 3896.67.** The 17.5% band ends at
  572.66725, while the next band starts from a base tax of 572.67. The tax
  is therefore non-decreasing and continuous at every other edge, but steps
  up by 0.00275 at 3896.67 (`Paye.PayeStepAtEdge`).
- **The net pay for a basic salary of 1000 is 888.88.** The code rounds net
  pay from the unrounded net, 888.875, which gives 888.88. Subtracting the
  rounded deductions from the rounded gross would give 888.87 instead
  (`Payroll.BasicThousandScenario`). The rounded net can therefore differ by
  one hundredth from the rounded gross less the rounded deductions
  (`Payroll.RoundedNetDriftHappens`), but never by more
  (`Payroll.RoundedNetDrift`).

## Model

| member | source | states |
|---|---|---|
| Money.RoundMoney | utilities/src/app/tools/salary/page.tsx:25-27 | the result is a whole number of hundredths, in the window (x - 0.005, x + 0.005], so halves round up |
| Money.RoundMoneyUnique | utilities/src/app/tools/salary/page.tsx:25-27 | any whole number of hundredths in that window is the rounded value, so rounding is fully determined by the window |
| Money.RoundMoneyIdempotent | utilities/src/app/tools/salary/page.tsx:25-27 | values already in hundredths are unchanged, and rounding twice equals rounding once |
| Money.RoundMoneyMonotone | utilities/src/app/tools/salary/page.tsx:25-27 | rounding preserves order |
| Money.RoundMoneyClose | utilities/src/app/tools/salary/page.tsx:25-27 | amounts less than a hundredth apart round at most a hundredth apart |
| Money.RoundMoneySumDrift | utilities/src/app/tools/salary/page.tsx:25-27 | the sum of two rounded parts is within a hundredth of the rounded sum |
| Paye.CalculatePaye | utilities/src/app/tools/salary/page.tsx:31-40 | the tax is never negative; it is zero exactly when the clamped income is at most 490 (490 included); it is at most 35% of the clamped income |
| Paye.BracketsWellFormed | utilities/src/app/tools/salary/page.tsx:88-96 | the table starts at 0, each band ends where the next begins, the top band is open and every rate is below 1; each base tax is the band below's tax at the shared edge, except at 3896.67, where it is 0.00275 higher |
| Paye.PayeInBand | utilities/src/app/tools/salary/page.tsx:31-40 | inside every band of the table (lower, upper], the if-chain equals baseTax + (income - lower) * rate |
| Paye.PayeMatchesTable | utilities/src/app/tools/salary/page.tsx:88-96 | for every income, the if-chain equals the tax read off the bracket table at the clamped income |
| Paye.PayeMonotone | utilities/src/app/tools/salary/page.tsx:31-40 | the tax never decreases as income grows |
| Paye.PayeGrowth | utilities/src/app/tools/salary/page.tsx:31-40 | the tax grows by at most 35% of the income increase, plus 0.00275 when the increase crosses 3896.67, so the tax is continuous away from that edge |
| Paye.PayeStepAtEdge | utilities/src/app/tools/salary/page.tsx:36-37 | the tax at 3896.67 is 572.66725, and every larger income pays at least 0.00275 more |
| Paye.PayeContinuousAtEdges | utilities/src/app/tools/salary/page.tsx:33-39 | at 490, 600, 730, 19896.67 and 50416.67 the formulas of both neighbouring bands give the same tax |
| NetSolver.FirstFit | utilities/src/app/tools/salary/page.tsx:101-109 | the search returns the first band at or after the start whose solution lies within 0.0001 of its bounds, together with that solution; it returns nothing exactly when no such band exists |
| NetSolver.ChargeableFromNet | utilities/src/app/tools/salary/page.tsx:98-100 | a net pay that is not positive gives a chargeable income of 0 |
| NetSolver.CandidateSolves | utilities/src/app/tools/salary/page.tsx:104-105 | a band's candidate solves that band's equation: candidate minus the band's tax on it equals the net pay |
| NetSolver.AcceptsWindow | utilities/src/app/tools/salary/page.tsx:102-108 | each band accepts exactly the net pays in a fixed window of net pays |
| NetSolver.SolverFindsBand | utilities/src/app/tools/salary/page.tsx:101-110 | for every positive net pay some band accepts, so the fall-back at the end of the loop is never reached; the accepted solution lies above the band's lower edge |
| NetSolver.StepIntoNextBand | utilities/src/app/tools/salary/page.tsx:31-40 | just past a band's upper edge, within the solver's 0.0001 tolerance, the next band's tax is above the band's own formula by more than 0 and at most 0.00275 + 0.0001, and the band's own formula is not negative |
| NetSolver.ChargeableFromNetSolves | utilities/src/app/tools/salary/page.tsx:98-111 | for a positive net pay the result is the accepting band's candidate and is at least the net pay; its take-home pay equals the net pay exactly when the result lies inside that band, and is otherwise at most 0.00275 + 0.0001 below it |
| NetSolver.NetOfGrowth | utilities/src/app/tools/salary/page.tsx:31-40 | take-home pay grows with chargeable income at a rate of at least 65%, less the 0.00275 step |
| NetSolver.SolverInvertsNetOf | utilities/src/app/tools/salary/page.tsx:98-111 | for a positive chargeable income, solving for its take-home pay gives back that income to within 0.0087 |
| Payroll.UnroundedBreakdown | utilities/src/app/tools/salary/page.tsx:133-147 | gross is basic plus the five allowances; employee SSNIT is 5.5% of basic; chargeable is gross less SSNIT, clamped at 0 (so never negative); PAYE is the schedule's tax on it; deductions are SSNIT + PAYE + loan; net plus deductions is gross; employer SSNIT is the Tier 1 plus the Tier 2 employer part |
| Payroll.Calculate | utilities/src/app/tools/salary/page.tsx:149-160 | every returned field is in whole hundredths and is the rounding of its own unrounded value |
| Payroll.UnroundedReverse | utilities/src/app/tools/salary/page.tsx:177-182 | basic equals gross; gross less employee SSNIT is the solver's chargeable income; PAYE is the tax on it; employee SSNIT is 5.5% and employer SSNIT 13% of that basic; net pay is the input |
| Payroll.Reverse | utilities/src/app/tools/salary/page.tsx:163-193 | a zero net pay gives the all-zero record; otherwise each of the seven fields is the rounding of the same field of the unrounded reverse; every field is in hundredths; basic equals gross; net pay echoes the rounded input |
| Payroll.RoundedNetDrift | utilities/src/app/tools/salary/page.tsx:145-158 | the rounded net pay is within a hundredth of the rounded gross less the rounded total deductions |
| Payroll.BasicThousandScenario | utilities/src/app/tools/salary/page.tsx:132-161 | a basic salary of 1000 alone gives SSNIT 55, chargeable 945, PAYE 56.13, deductions 111.13, net 888.88 and employer SSNIT 130 |
| Payroll.RoundedNetDriftHappens | utilities/src/app/tools/salary/page.tsx:145-158 | for a basic salary of 1000 the rounded net pay exceeds the rounded gross less the rounded deductions by one hundredth |
| Payroll.ReverseThenForward | utilities/src/app/tools/salary/page.tsx:132-193 | feeding the reverse basic salary, with no allowances or loan, into the forward breakdown gives back the solver's chargeable income, and a net pay at most 0.00285 below the requested one |
| Payroll.ForwardThenReverse | utilities/src/app/tools/salary/page.tsx:132-193 | the net pay of a non-negative basic salary is zero exactly when the salary is zero; otherwise reversing it gives back the salary to within a hundredth before rounding |
| Payroll.ReverseOfNetOf | utilities/src/app/tools/salary/page.tsx:177-179 | reversing the take-home pay of 94.5% of a basic salary gives back that salary to within a hundredth |
| Payroll.ForwardThenReverseRounded | utilities/src/app/tools/salary/page.tsx:132-193 | the reverse of a non-negative basic salary's net pay shows that salary to within 0.015 when given the unrounded net pay, and to within 0.025 when given the rounded net pay the forward calculation displays and stores |
| Payroll.DisplayedRoundTrip | utilities/src/app/tools/salary/page.tsx:158-193 | for every non-negative basic salary, reversing the rounded take-home pay of 94.5% of it gives a rounded basic within 0.025 of that salary, including when that pay rounds to zero |
| NetSolver.SolverNearNetOf | utilities/src/app/tools/salary/page.tsx:98-111 | solving for any positive net pay within half a hundredth of a chargeable income's take-home pay gives back that income to within 0.0164 |
| Payroll.RoundedRoundTrip | utilities/src/app/tools/salary/page.tsx:163-193 | for any net pay that is the take-home pay of 94.5% of a non-negative basic salary, the rounded reverse basic is within 0.015 of that salary |
| Ledger.Trim | utilities/src/app/tools/salary/page.tsx:200 | the trimmed name is no longer than the input, neither starts nor ends with white space, and a name with no white space at either end is unchanged |
| Ledger.TrimSpec | utilities/src/app/tools/salary/page.tsx:200 | the trimmed name is the input with white space removed from both ends; it neither starts nor ends with white space, and it is empty exactly when the input is all white space |
| Ledger.AddEmployee | utilities/src/app/tools/salary/page.tsx:199-223 | a name that is blank after trimming leaves the ledger unchanged; otherwise exactly one entry goes in front, with the given id, the trimmed name and the current calculations, all in hundredths |
| Ledger.RemoveEntry | utilities/src/app/tools/salary/page.tsx:225-227 | no entry with the id remains; every other entry stays as often as before; the result keeps the original order |
| Ledger.RemoveAbsent | utilities/src/app/tools/salary/page.tsx:225-227 | removing an id that no entry has changes nothing |
| Ledger.RemoveUndoesAdd | utilities/src/app/tools/salary/page.tsx:199-227 | removing the entry just added under a fresh id restores the ledger |
| Ledger.RemoveIdempotent | utilities/src/app/tools/salary/page.tsx:225-227 | removing the same id twice is the same as removing it once |
| Ledger.LedgerStaysInCents | utilities/src/app/tools/salary/page.tsx:199-227 | adding and removing keep every stored amount in whole hundredths |
| Reports.Row | utilities/src/app/tools/salary/page.tsx:352-428 | an entry's row for any report kind is as wide as that kind's header, starts with the employee name, and every other cell is an amount in whole hundredths |
| Reports.PayeRow | utilities/src/app/tools/salary/page.tsx:352-356 | a PAYE row has 3 cells: the name, then two amounts in hundredths |
| Reports.SsnitRow | utilities/src/app/tools/salary/page.tsx:377-390 | an SSNIT row has 6 cells: the name, then five amounts in hundredths |
| Reports.PayrollRow | utilities/src/app/tools/salary/page.tsx:417-428 | a payroll row has 10 cells: the name, then nine amounts in hundredths |
| Reports.JsonObject | utilities/src/app/tools/salary/page.tsx:357-440 | an entry's JSON object has one member per column, keyed in column order by that kind's JSON keys |
| Reports.HeaderShape | utilities/src/app/tools/salary/page.tsx:347-441 | each report kind has one header label and one JSON key per column: 3, 6 or 10 |
| Reports.RowMatchesJson | utilities/src/app/tools/salary/page.tsx:352-440 | an entry's row is as wide as the header, starts with the employee name, and holds the same values column by column as its JSON object |
| Reports.BuildReport | utilities/src/app/tools/salary/page.tsx:340-442 | the title and file name follow the kind and date stamp; there is one row and one JSON object per entry, in ledger order; each row is as wide as the header, starts with the name and agrees with its JSON object |
| Reports.ReportsShowStoredAmounts | utilities/src/app/tools/salary/page.tsx:417-428 | for stored amounts in hundredths, re-rounding changes nothing: the payroll and PAYE rows show the stored values |
| Reports.SsnitRatesSplit | utilities/src/app/tools/salary/page.tsx:13-17 | Tier 1 plus the employer Tier 2 is 13% of basic; employee plus employer Tier 2 is the 13.5% Tier 2 total |
| Reports.SsnitTiersAddUp | utilities/src/app/tools/salary/page.tsx:377-390 | in an SSNIT row, the rounded tiers add up to within a hundredth of the rounded employer contribution and of the rounded Tier 2 total |
| Reports.ExportReportCsv | utilities/src/app/tools/salary/page.tsx:507-508 | when the header and every row are non-empty, the exported CSV reads back as the header line and then the row texts, in order |
| Reports.ReportCsvRoundTrip | utilities/src/app/tools/salary/page.tsx:456-466 | a report's CSV reads back as the header line and then the texts of its rows, in order, every cell's text unchanged |
| Reports.ReportRowTexts | utilities/src/app/tools/salary/page.tsx:352-428 | a report has one text line per ledger entry, in order, each as wide as the header and starting with the employee name |
| Csv.DoubleQuotes | utilities/src/app/tools/salary/page.tsx:459 | doubling never shortens a text, and a text without quotes is unchanged |
| Csv.Escape | utilities/src/app/tools/salary/page.tsx:457-460 | an escaped field starts and ends with a quote; a field without quotes is just wrapped in quotes |
| Csv.EncodeRecord | utilities/src/app/tools/salary/page.tsx:461-463 | a record with no fields encodes as the empty text; otherwise the encoding starts and ends with a quote |
| Csv.EscapeRoundTrip | utilities/src/app/tools/salary/page.tsx:457-460 | unescaping an escaped field gives back the field and leaves what follows it untouched |
| Csv.ParseQuotedBodyOfEscaped | utilities/src/app/tools/salary/page.tsx:457-460 | reading the inside of a quoted field undoes the doubling of quotes |
| Csv.RecordRoundTrip | utilities/src/app/tools/salary/page.tsx:461-463 | a comma-joined record of escaped fields reads back as its fields |
| Csv.RecordsRoundTrip | utilities/src/app/tools/salary/page.tsx:461-465 | line-feed-joined records read back as the records, in order |
| Csv.ExportCsv | utilities/src/app/tools/salary/page.tsx:456-466 | when the header and every row are non-empty, the exported document reads back as the header and then the rows, in order |

## Left out

- `toNumber` (page.tsx:19-23) parses text with `parseFloat` after stripping commas. The model takes already-parsed reals.
- `Number.EPSILON` in `roundMoney`, and all IEEE-754 drift, are left out: money is exact `real`.
- `formatMoney` and the summary text built from it are left out: they are locale formatting in a library.
- Clipboard copies, snapshots, file downloads, the PDF export and `JSON.stringify` in the export dispatch are browser I/O or foreign libraries. They are left out.
- `String(value)` on numbers in the CSV export is left out. It is the parameter `show` of `Reports.ExportReportCsv`.
- The report date stamp comes from the clock. It is the parameter `dateStamp` of `Reports.BuildReport`.
- The entry id comes from `Date.now` and `Math.random`. It is the parameter `id` of `Ledger.AddEmployee`.
- The `alert` for a blank name is left out. Only the unchanged ledger is modelled.
- Resetting the form after adding an employee is left out: the form is UI state.
- The JSX rendering is left out.
- The other pages, the theme toggle, the layout and the Tailwind configuration are not part of this model: they hold no payroll logic.
- Csv.ExportCsv: promises the read-back only for a non-empty header and non-empty rows, because a record with no fields is an empty line, and this parser reads no record from an empty line. Every report has a non-empty header and rows.
- Payroll.ForwardThenReverseRounded: bounds the round trip through the displayed net pay by 0.025, not by one hundredth. Rounding the net pay moves it by up to 0.005. The solver and the step at 3896.67 add up to 0.0164 of chargeable income. Rounding the basic salary adds another 0.005.
- Payroll.ReverseThenForward: states the forward net pay to within 0.00285 of the requested one, not exactly. The solver accepts solutions up to 0.0001 past a band edge, and the schedule steps by 0.00275 at 3896.67.
