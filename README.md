# Monthly ledger of the Lacaisse budget tracker, in Dafny

The tracker records expenses and provisions ("alimentation", income top-ups),
each dated, and shows for a selected month and year:

- the month's totals (getMonthlyStats);
- the carry-over from the earlier months of the same year (getCarryOver);
- the total available and what remains;
- a within-budget / overspent label.

It also exports the month as a spreadsheet. Privileged actions (edit,
delete, export) sit behind a four-digit PIN pad.

This project models that logic, all of which lives in `App.tsx`:

| file | module | what |
|---|---|---|
| `records.dfy` | `Wrappers`, `Records` | `Option`; the two record shapes (`types.ts`), with the date kept as its text plus what the date parser makes of it |
| `aggregation.dfy` | `Aggregation` | the month filter and the sum from 0, plus the reference sum over a period with its concatenation and permutation lemmas |
| `ledger.dfy` | `Ledger` | monthly totals, carry-over (the loop and its specification), available, remaining, the label, the month lists, `isFuture` |
| `forms.dfy` | `Forms` | building the saved record from a form, with the defaults |
| `pin.dfy` | `PinEntry` | the PIN pad as a class with `pin`, `error` and the pending 800 ms resets |
| `auth.dfy` | `AuthGate` | the pending-action gate as a class, and the gate wired to the PIN pad |
| `sheet.dfy` | `Sheet` | the spreadsheet rows and their reconciliation with the ledger |
| `scenarios.dfy` | `Scenarios` | worked examples over concrete records |

Modelling choices:

- Amounts are `real`: exact arithmetic instead of IEEE doubles.
- A date is `Date(text, parsed)`. `parsed` is `Some(YearMonth(year, month))` with a 0-based month, or `None` for text that does not parse (`new Date` gives NaN year and month, which equal no month).
- The current date, the current year and month, and the fresh id are parameters, as are the 800 ms timer firing and the PIN dialog being closed.
- The filter and the fold are generic in the record kind. They take the field accessors (`ExpenseDate`, `ExpensePrice`, `AlimentationDate`, `AlimentationAmount`) as function values.

Behaviour of the code that the model keeps:

- **Spreadsheet text.** The header and row labels are the French strings of the code.
- **Unparseable dates.** A record whose date does not parse is excluded from every sum, because NaN compares unequal to every year and month.
- **Empty month.** For a month with no records, what remains equals the carry-over itself, whatever its sign (`EmptyMonthRemaining`).

## Model

| member | source | states |
|---|---|---|
| `Aggregation.InMonth` | App.tsx:136-138 | the month filter keeps no more records than it is given |
| `Aggregation.InMonthMembers` | App.tsx:136-138 | a record is kept by the month filter exactly when it is in the list and its parsed date has that year and that month; an unparseable date is never kept |
| `Aggregation.InMonthCounts` | App.tsx:136-138 | the month filter keeps each record dated in the month as many times as the list holds it, and keeps no record dated elsewhere or undated |
| `Aggregation.InMonthAppend` | App.tsx:136-138 | the month filter keeps the list order: filtering `a + b` gives the filtered `a` followed by the filtered `b` |
| `Aggregation.InMonthSingle` | App.tsx:136-138 | a single record is kept when its parsed year and month are the requested ones and dropped otherwise |
| `Aggregation.Total` | App.tsx:139-144 | the `reduce` from 0; by `MonthTotalIsPeriodSum` and `TotalAppend`, folding the filtered list gives the sum over exactly the month's records, and a fold over a concatenation is the sum of the folds |
| `Aggregation.MonthTotalIsPeriodSum` | App.tsx:136-144 | filtering to the month and then folding `sum + value` from 0 equals the sum of the value over exactly the records dated in that month and year |
| `Aggregation.TotalAppend` | App.tsx:139-144 | folding `sum + value` from 0 over `a + b` gives the fold over `a` plus the fold over `b` |
| `Aggregation.PeriodSumPermutation` | App.tsx:136-144 | the sum over a period is the same for any two lists holding the same records (as multisets), whatever their order |
| `Aggregation.PeriodSumInsertOutside` | App.tsx:136-144 | inserting a record dated outside the period, at any position, leaves the sum unchanged |
| `Aggregation.YearBeforeStep` | App.tsx:151-154 | the year's sum before month m+1 is the year's sum before month m plus the sum of month m |
| `Ledger.MonthlyStats` | App.tsx:135-147 | getMonthlyStats; what its two totals are is stated by `MonthlyStatsExact`, `MonthlyStatsEmpty`, `UnparseableIgnored` and `MonthlyStatsPermutation` |
| `Ledger.MonthlyStatsExact` | App.tsx:135-147 | the expense total is the sum of `price` over exactly the expenses dated in (month, year); the provision total is the sum of `amount` over exactly the provisions dated there |
| `Ledger.MonthlyStatsEmpty` | App.tsx:135-147 | with no record of either kind dated in the month, both totals are 0 |
| `Ledger.UnparseableIgnored` | App.tsx:136-144 | an expense and a provision with unparseable dates, inserted anywhere in the lists, change neither total of any month; the other records are still summed |
| `Ledger.MonthlyStatsPermutation` | App.tsx:136-144 | both monthly totals are unchanged by any reordering of either list |
| `Ledger.MonthExpenses` | App.tsx:163-166 | the listed expenses are exactly those dated in the selected month and year, and their prices sum to that month's expense total |
| `Ledger.MonthAlimentation` | App.tsx:168-171 | the listed provisions are exactly those dated in the selected month and year, and their amounts sum to that month's provision total |
| `Ledger.MonthListsCounts` | App.tsx:163-171 | each expense dated in the selected month is listed as many times as the store holds it, likewise each provision, and nothing else is listed |
| `Ledger.MonthListsAppend` | App.tsx:163-171 | both month lists keep the store's order: the month list of `a + b` is the month list of `a` followed by that of `b` |
| `Ledger.GetCarryOver` | App.tsx:149-156 | the loop returns the nets of months 0..month-1 accumulated in order; that is 0 for month 0 (or less), and equals the year's provisions before `month` minus the year's expenses before `month` |
| `Ledger.CarryOverIsYearToDate` | App.tsx:149-156 | carry-over(m, y) = provisions dated in year y before month m − expenses dated in year y before month m |
| `Ledger.ToDateIsolation` | App.tsx:149-156 | records dated in another year, or undated, add nothing to the year-to-date sums |
| `Ledger.CarryOverYearIsolation` | App.tsx:149-156 | appending records dated in other years (or undated) never changes the carry-over; in particular a December never reaches the next January |
| `Ledger.CarryOverPermutation` | App.tsx:149-156 | the carry-over is unchanged by any reordering of either list |
| `Ledger.TotalAvailable` | App.tsx:160 | the month's provisions plus the carry-over; `EmptyMonthRemaining` shows it is the carry-over itself for a month without records |
| `Ledger.Remaining` | App.tsx:161 | total available minus the month's expenses; `RemainingIsNextCarryOver` proves it equals the carry-over into the next month and the year-to-date balance through the month |
| `Ledger.DashboardFigures` | App.tsx:158-161 | the dashboard's totals, carry-over, total available (provisions + carry-over) and remaining (available − expenses), and remaining equals the carry-over into the next month |
| `Ledger.MonthCardRemaining` | App.tsx:383-385 | the yearly card's `mRem` equals the dashboard's remaining for the same month |
| `Ledger.RemainingIsNextCarryOver` | App.tsx:158-161 | remaining(m, y) = carry-over(m+1, y) = the year's provisions through month m − the year's expenses through month m, for every month index |
| `Ledger.EmptyMonthRemaining` | App.tsx:158-161 | for a month with no records of either kind, the total available and what remains both equal the carry-over, whatever its sign |
| `Ledger.StandingOf` | App.tsx:350 | the label: `StandingOfMonth` states when it is "EN RÈGLE" |
| `Ledger.StandingOfMonth` | App.tsx:350 | the month is labelled "EN RÈGLE" exactly when the year's provisions through that month cover its expenses through that month; a balance of exactly 0 is "EN RÈGLE" |
| `Ledger.IsFuture` | App.tsx:386 | the yearly view's isFuture; `IsFutureIffLater` states it as a comparison of month indices |
| `Ledger.IsFutureIffLater` | App.tsx:386 | a yearly-view month is disabled as future exactly when year·12 + month lies after the current year·12 + month |
| `Forms.BuildExpense` | App.tsx:173-180 | the saved expense has the edited record's id when editing with a non-empty id, else the fresh id (no record edited, or an empty id); the form's date, or today when missing or its text is empty; the form's name, or "Produit sans nom" when missing or empty, so never empty; the form's price, or 0 when missing or NaN; the photo unchanged |
| `Forms.BuildAlimentation` | App.tsx:187-192 | the saved provision has the edited record's id when it is non-empty, else the fresh id; the form's date, or today when missing or its text is empty; the form's amount, or 0 when missing or NaN |
| `Forms.ExpenseFormOf` | App.tsx:209 | startEdit fills the expense form with the record; `EditUnchangedRoundTrip` proves saving it unchanged gives the record back |
| `Forms.AlimentationFormOf` | App.tsx:212 | startEdit fills the provision form with the record; `EditUnchangedRoundTrip` proves saving it unchanged gives the record back |
| `Forms.EditUnchangedRoundTrip` | App.tsx:205-216 | opening a record for editing and saving it unchanged gives back the identical record under the same id |
| `Forms.NewFromEmptyForm` | App.tsx:173-192 | saving an empty new form gives the fresh id, today's date, "Produit sans nom", 0 and no photo |
| `PinEntry.PinPad.constructor` | App.tsx:41-42 | the pad starts with no digits and no error |
| `PinEntry.PinPad.Press` | App.tsx:44-57 | a digit is appended only while fewer than 4 are held, so at most 4 are held; onSuccess fires exactly when the fourth digit completes "1997"; a wrong fourth digit sets "Code PIN invalide" and schedules one reset |
| `PinEntry.PinPad.Fingerprint` | App.tsx:59-61 | the fingerprint button always succeeds |
| `PinEntry.PinPad.Clear` | App.tsx:91 | "Effacer" empties the digits |
| `PinEntry.PinPad.ResetAfterDelay` | App.tsx:53 | a scheduled reset empties both the digits and the error |
| `PinEntry.EnterCode` | App.tsx:44-57 | keys typed on a fresh pad with no Effacer and no timer reset in between: onSuccess fires once if the first four are "1997" and never otherwise; the pad ends holding the first four keys |
| `AuthGate.Gate.constructor` | App.tsx:104-105 | the dialog starts closed with no pending action |
| `AuthGate.Gate.RequireAuth` | App.tsx:122-125 | the action becomes the pending one and the PIN dialog opens |
| `AuthGate.Gate.AuthSuccess` | App.tsx:127-133 | the dialog closes; the pending action, if any, is the one run, and none is pending afterwards |
| `AuthGate.Gate.Close` | App.tsx:308 | closing the dialog by hand keeps the pending action |
| `AuthGate.RunBehindPin` | App.tsx:122-133 | an action requested behind the PIN pad, followed by keys typed with no Effacer and no timer reset in between, runs exactly once when the first four keys are "1997"; otherwise it has not run and is still pending |
| `Sheet.SheetRows` | App.tsx:289-295 | the rows are the header, one row per expense of the month in order (provision column empty), one row per provision in order (expense columns empty), an empty row and the balance row, so 3 more rows than the month's expenses and provisions together |
| `Sheet.ExportRows` | App.tsx:285-295 | the rows exportExcel builds for the selected month, from its two month lists and its remaining; their layout is stated by `SheetRows`, their figures by `ExportReconciles` |
| `Sheet.ExportReconciles` | App.tsx:285-295 | in the exported sheet, the expense-amount column sums to the month's expense total, the provision column sums to the month's provision total, and the balance row carries the carry-over into the next month |
| `Scenarios.ThreeMonths2025` | App.tsx:149-161 | Jan 2025 (provision 2000, expense 800) leaves 1200; Feb (500, 300) starts from 1200, has 1700 available and leaves 1400; an empty March starts from and leaves 1400 |
| `Scenarios.DecemberSurplusStaysInItsYear` | App.tsx:149-156 | December 2024 ending 500 ahead gives January 2025 a carry-over of 0, and April 2025, with no records, both starts and ends at 0 |

## Left out

- The record store (`db.ts`): the IndexedDB open, put, delete and getAll calls are asynchronous browser I/O. The model works on the two full lists that a reload returns.
- Reloading after a write (`loadData`) and React's state batching: `useState`, `useEffect` and the stale values that closures capture.
- The view switching (`setView`) and all rendering: the modal, the cards and the transaction list with its date sort.
- Camera capture: media devices, a canvas and a fixed 1500 ms delay. A photo is an opaque optional string that the forms carry through.
- PDF export: it only calls a foreign library. The figures it prints are the ledger figures modelled here.
- The spreadsheet library calls and the file name: the row array is modelled, not the file written from it.
- Number formatting (`toFixed`, the "DH" suffix): the balance cell is `Money(value)`, standing for the formatted text.
- Floating-point rounding: sums are exact, so order independence is proved for exact arithmetic only. IEEE addition is not associative.
- Date parsing and time zones: `new Date('YYYY-MM-DD')` parses as UTC but `getMonth()` reads local time. The parsed year and month are given with each record.
- Ambient values: `crypto.randomUUID`, `new Date()` and `getTodayDate`. They are parameters (`freshId`, `today`, `nowYear`, `nowMonth`).
- Time: the 800 ms PIN reset is the explicit step `ResetAfterDelay`, counted by `pendingResets`; nothing forces it to happen.
- `EntryType` and `MonthlySummary` in `types.ts`: no code uses them.
- `Aggregation.InMonth`: its own contract states only the length bound. Which records it keeps is stated by `InMonthMembers`, because a membership postcondition on the function itself makes every proof that unfolds the ledger too costly for the solver.
