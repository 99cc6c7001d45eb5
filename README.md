# Uganda net-pay calculator: a verified model of its payroll engine

This project models the computing core of a browser calculator for Ugandan
salaries (`script.js`). Four parts are modelled:

- **PAYE.** The monthly Pay As You Earn income tax is a four-band
  progressive schedule. Income up to 235,000 UGX is tax-free. Above that the
  marginal rates are 10% up to 335,000, 20% up to 410,000 and 30% beyond.
- **NSSF.** The National Social Security Fund contribution is charged on the
  gross salary, capped at 240,000. The employee pays 5% and the employer
  10%, depending on the option chosen in the form.
- **Net pay.** `calculateNetPay` normalises an annual salary to a month and
  adds the allowances to get the taxable income. It then deducts PAYE, the
  employee's NSSF share and other deductions.
- **Display and history.** The model covers the PAYE breakdown shown under
  the result and the history of the last ten calculations.

Money is modelled as Dafny `real`, so all arithmetic is exact. Inputs arrive
already parsed. The NSSF option is a parameter (`NssfOption`) rather than a
value read from the page.

Modules:

- `Deductions` (deductions.dfy): `Paye`, `Nssf` and their properties.
- `Explanation` (explanation.dfy): the breakdown lines of `explainPAYE`.
- `Payroll` (payroll.dfy): `calculateNetPay` as a pure function from a
  `SalaryInput` to a `PayrollResult`, and the argument the display step
  passes to the breakdown.
- `History` (history.dfy): the calculation history as a `HistoryLog` class
  over a sequence of entries. `Add` (shift a full log, then push), `Clear`
  and `Find` are its methods. The pure `Pushed` and `PushedAll` specify what
  one append and many appends do.

Two facts about the code shape the model:

- `script.js` never computes an employer cost. The page only reads one back
  for the PDF, so the model has none.
- The breakdown is built from the gross salary as entered plus the
  allowances, not from the taxable income the tax was computed on. See
  Findings.

## Model

| member | source | states |
|---|---|---|
| Deductions.Paye | script.js:44-49 | the tax is never negative, and it is zero exactly when the taxable income is at most 235,000 |
| Deductions.PayeIsBasePlusMarginal | script.js:44-49 | in every bracket the tax is the bracket's fixed base plus its marginal rate times the income above the bracket floor |
| Deductions.PayeAtBracketEdges | script.js:45-48 | the tax is 0 at 235,000, 10,000 at 335,000 and 25,000 at 410,000, and above each edge it is the tax at the edge plus the next bracket's rate on the excess, so adjacent formulas meet |
| Deductions.PayeMonotoneAndBounded | script.js:44-49 | for x <= y, Paye(x) <= Paye(y) and Paye(y) - Paye(x) <= 30% of (y - x), so the schedule is non-decreasing and continuous |
| Deductions.Nssf | script.js:52-67 | employee share = 5% of min(gross, 240,000) for the employee and both options, else 0; employer share = 10% of it for the employer and both options, else 0 |
| Deductions.NssfCapped | script.js:53-54 | every gross of 240,000 or more yields the same split as exactly 240,000 |
| Deductions.NssfBounds | script.js:53-65 | the employee share is at most 12,000 and the employer share at most 24,000; both are non-negative for a non-negative gross |
| Deductions.NssfOtherIsZero | script.js:57-66 | an unrecognised option yields (0, 0) for every gross |
| Deductions.NssfEmployeeMonotoneAndBounded | script.js:53-61 | a raise never lowers the employee share and raises it by at most 5% of the raise |
| Explanation.ExplainPaye | script.js:83-93 | there are no lines exactly when the income is at most 235,000; otherwise there are two lines, a fixed-base line whose threshold is below the income and a remainder line for the income above that threshold |
| Explanation.ExplainedBracketIsPayeBracket | script.js:87-91 | the strict `>` tests of the breakdown pick the same bracket as the `<=` tests of the tax function |
| Explanation.ExplanationAddsUpToPaye | script.js:83-93 | the displayed amounts add up to Paye of the same income; the first line is the bracket's floor and base, the second its rate times the remainder |
| Payroll.MonthlyGross | script.js:22-23 | an "annual" salary is twelve times the monthly gross; any other salary type is taken as monthly |
| Payroll.CalculateNetPay | script.js:21-35 | the gross is the monthly gross; PAYE is charged on gross + housing + transport; both NSSF shares are charged on the monthly gross alone; total deductions = PAYE + employee NSSF + other deductions; net pay = taxable income - total deductions |
| Payroll.AnnualIsMonthlyOverTwelve | script.js:21-35 | an annual gross G gives the same result in every field as a monthly gross G/12 |
| Payroll.OtherSalaryTypesAreMonthly | script.js:23 | every salary type other than "annual" gives the result of "monthly" |
| Payroll.EmployerShareNeverAffectsNetPay | script.js:33-35 | adding or removing the employer's share (both vs employee, employer vs none) changes neither net pay nor total deductions |
| Payroll.RaiseNeverLowersNetPay | script.js:21-35 | a higher gross salary, all else equal, never gives a lower net pay |
| Payroll.MonthlyBothExample | script.js:28-35 | 500,000 a month with both shares: PAYE 52,000, NSSF 12,000 and 24,000, deductions 64,000, net pay 436,000 |
| Payroll.MonthlyEmployeeExample | script.js:28-35 | 200,000 a month with the employee share only: PAYE 0, NSSF 10,000 and 0, net pay 190,000 |
| Payroll.AnnualBothExample | script.js:21-35 | 6,000,000 a year gives the same result as 500,000 a month |
| Payroll.DisplayedExplanation | script.js:77-80 | the breakdown built by the display step adds up to the displayed PAYE whenever the salary type is not "annual" |
| Payroll.DisplayedExplanationMismatchesAnnual | script.js:77-80 | for 6,000,000 a year the displayed breakdown totals 1,702,000, while the displayed PAYE is 52,000 |
| Payroll.ResultExplanation | script.js:29-32 | a breakdown built from the calculation's taxable income adds up to its PAYE for every salary type, and is empty exactly when the PAYE is 0 |
| History.Pushed | script.js:184-185 | the new entry is last; a log of at most ten entries stays at most ten and becomes the last ten of the old log followed by the new entry |
| History.PushedBounded | script.js:184-185 | from at most ten entries, an append leaves at most ten; the new entry is last; with fewer than ten the old log is an unchanged prefix; with ten, the prefix is the old log minus its oldest entry |
| History.PushedAllKeepsRecent | script.js:184-185 | after any sequence of appends to a log of at most ten, the log is exactly the last ten of everything appended, in order |
| History.ElevenCalculations | script.js:184-185 | eleven appends to an empty log leave the last ten in order, with the first evicted |
| History.HistoryLog.constructor | script.js:168 | a new history is empty |
| History.HistoryLog.Add | script.js:184-185 | the new log is Pushed(old log, entry), and a log of at most ten stays at most ten |
| History.HistoryLog.Clear | script.js:226-228 | the log becomes empty |
| History.HistoryLog.Find | script.js:213-216 | returns the first entry with the timestamp, scanning oldest first, and returns nothing exactly when no entry has that timestamp |

## Left out

- Reading the form and writing the results (script.js:21-27, 55, 70-75). This is page I/O. Inputs are modelled as already-parsed numbers and the NSSF option as a parameter.
- Parsing with `parseFloat(...) || 0` and clamping negative entries to 0 (script.js:257-262). These are page I/O. Properties that need non-negative amounts state that as a hypothesis.
- Text formatting: `toFixed`, `toLocaleString`, the bullet text of the breakdown and the history list markup (script.js:84-92, 190-211). The breakdown is modelled as lines that carry the numbers they display.
- IEEE-754 double rounding. Money is exact `real`, so nothing here claims bit-exact agreement with the page: for example, `0.1 * (x - 235000)` is not exact in doubles.
- NaN inputs to `Math.min` and the object lookups, and option strings that name inherited object properties. The model assumes the option is one of the strings "employee", "employer" or "both", mapped to `Employee`, `Employer` and `Both`, or some other string, mapped to `Other`.
- Storage of the history and the form in the browser's local storage, including JSON serialisation (script.js:168, 186, 191, 232-254). Only the in-memory log is modelled. Every calculation re-reads the stored log, which the model does not capture.
- History.HistoryLog.Find models only the lookup in `loadHistoryEntry`. Refilling the form and recalculating (script.js:218-223) is page I/O. Entries do not record the NSSF option, so a reloaded entry is recalculated with whatever option is currently selected.
- The chart, the PDF export, the clock, toasts, dark mode and the history toggle (script.js:2, 99-163, 264-303). These rely on foreign libraries or are presentation only.
- Employer cost. script.js never computes it; it is only read back from the page (script.js:130).

## Findings

| source | as written | input that shows it | evidently intended | confidence | as-written member | corrected member |
|---|---|---|---|---|---|---|
| script.js:77-80 | the PAYE breakdown is built from the gross salary as entered plus allowances, without dividing an annual salary by 12 | gross 6,000,000, salary type "annual", no allowances: the breakdown totals 1,702,000 while PAYE is 52,000 | the breakdown explains the taxable income the PAYE was computed from | high (the arithmetic is exact); not executed | Payroll.DisplayedExplanationMismatchesAnnual | Payroll.ResultExplanation |
