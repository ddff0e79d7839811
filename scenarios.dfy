/** Worked examples of the ledger on small concrete record lists. */
module Scenarios {
  import opened Wrappers
  import opened Records
  import opened Aggregation
  import opened Ledger

  function On(text: string, year: int, month: Month0): Date {
    Date(text, Some(YearMonth(year, month)))
  }

  /**
   Year 2025: January has a provision of 2000 and an expense of 800,
   February a provision of 500 and an expense of 300, March nothing.
   January leaves 1200; February starts from 1200, has 1700 available and
   leaves 1400; March starts from and leaves 1400.
   */
  lemma ThreeMonths2025()
    ensures var expenses := [ExpenseRecord("e1", On("2025-01-10", 2025, 0), "Courses", 800.0, None),
                       ExpenseRecord("e2", On("2025-02-03", 2025, 1), "Pain", 300.0, None)];
            var provisions := [AlimentationRecord("a1", On("2025-01-01", 2025, 0), 2000.0),
                       AlimentationRecord("a2", On("2025-02-01", 2025, 1), 500.0)];
            && Remaining(expenses, provisions, 0, 2025) == 1200.0
            && CarryOver(expenses, provisions, 1, 2025) == 1200.0
            && TotalAvailable(expenses, provisions, 1, 2025) == 1700.0
            && Remaining(expenses, provisions, 1, 2025) == 1400.0
            && CarryOver(expenses, provisions, 2, 2025) == 1400.0
            && Remaining(expenses, provisions, 2, 2025) == 1400.0
  {
    var expenses := [ExpenseRecord("e1", On("2025-01-10", 2025, 0), "Courses", 800.0, None),
               ExpenseRecord("e2", On("2025-02-03", 2025, 1), "Pain", 300.0, None)];
    var provisions := [AlimentationRecord("a1", On("2025-01-01", 2025, 0), 2000.0),
               AlimentationRecord("a2", On("2025-02-01", 2025, 1), 500.0)];
    MonthlyStatsExact(expenses, provisions, 0, 2025);
    MonthlyStatsExact(expenses, provisions, 1, 2025);
    MonthlyStatsExact(expenses, provisions, 2, 2025);
  }

  /**
   A December that ends 500 ahead is not carried into the next year: every
   month of the next year up to April starts from 0 and, with no records of
   its own, ends at 0.
   */
  lemma DecemberSurplusStaysInItsYear()
    ensures var provisions := [AlimentationRecord("a1", On("2024-12-02", 2024, 11), 500.0)];
            && Remaining([], provisions, 11, 2024) == 500.0
            && CarryOver([], provisions, 0, 2025) == 0.0
            && CarryOver([], provisions, 3, 2025) == 0.0
            && Remaining([], provisions, 3, 2025) == 0.0
  {
    var provisions := [AlimentationRecord("a1", On("2024-12-02", 2024, 11), 500.0)];
    CarryOverIsYearToDate([], provisions, 11, 2024);
    MonthlyStatsExact([], provisions, 11, 2024);
    CarryOverIsYearToDate([], provisions, 3, 2025);
    MonthlyStatsExact([], provisions, 3, 2025);
  }
}
