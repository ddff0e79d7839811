/**
 The monthly ledger of the budget tracker: the totals of one calendar
 month, the carry-over accumulated from the earlier months of the same
 year, the amount available and what remains, and the standing label.

 Months are 0-based (0 = January). The carry-over is scoped to one year:
 January starts from zero whatever the previous December left.
 */
module Ledger {
  import opened Wrappers
  import opened Records
  import opened Aggregation

  /** The result of getMonthlyStats: the month's expense total and provision total. */
  datatype Stats = Stats(expenses: real, alimentation: real)

  /** The figures the dashboard shows for the selected month. */
  datatype Figures = Figures(stats: Stats, carryOver: real, totalAvailable: real, remaining: real)

  /** The dashboard label: "EN RÈGLE" or "DÉPASSEMENT". */
  datatype Standing = WithinBudget | Overspent

  /** getMonthlyStats: filter each list to the month, then sum price and amount from 0. */
  function MonthlyStats(expenses: seq<ExpenseRecord>, alimentation: seq<AlimentationRecord>, month: int, year: int): Stats {
    Stats(
      Total(InMonth(expenses, ExpenseDate, month, year), ExpensePrice),
      Total(InMonth(alimentation, AlimentationDate, month, year), AlimentationAmount))
  }

  /**
   The net of one month: the provisions dated in that month and year minus
   the expenses dated in that month and year.
   */
  function MonthNet(expenses: seq<ExpenseRecord>, alimentation: seq<AlimentationRecord>, month: int, year: int): real {
    PeriodSum(alimentation, AlimentationDate, AlimentationAmount, Month(month, year))
    - PeriodSum(expenses, ExpenseDate, ExpensePrice, Month(month, year))
  }

  /** Specification of getCarryOver: the nets of months 0 .. month - 1, accumulated in that order. */
  function CarryOver(expenses: seq<ExpenseRecord>, alimentation: seq<AlimentationRecord>, month: int, year: int): real
    decreases month
  {
    if month <= 0 then 0.0
    else CarryOver(expenses, alimentation, month - 1, year) + MonthNet(expenses, alimentation, month - 1, year)
  }

  function TotalAvailable(expenses: seq<ExpenseRecord>, alimentation: seq<AlimentationRecord>, month: int, year: int): real {
    MonthlyStats(expenses, alimentation, month, year).alimentation + CarryOver(expenses, alimentation, month, year)
  }

  function Remaining(expenses: seq<ExpenseRecord>, alimentation: seq<AlimentationRecord>, month: int, year: int): real {
    TotalAvailable(expenses, alimentation, month, year) - MonthlyStats(expenses, alimentation, month, year).expenses
  }

  function StandingOf(remaining: real): Standing {
    if remaining >= 0.0 then WithinBudget else Overspent
  }

  /** Provisions dated in `year` before `month`, summed. */
  function AlimentationToDate(alimentation: seq<AlimentationRecord>, month: int, year: int): real {
    PeriodSum(alimentation, AlimentationDate, AlimentationAmount, YearBefore(month, year))
  }

  /** Expenses dated in `year` before `month`, summed. */
  function ExpensesToDate(expenses: seq<ExpenseRecord>, month: int, year: int): real {
    PeriodSum(expenses, ExpenseDate, ExpensePrice, YearBefore(month, year))
  }

  /** The expenses listed (and exported) for the selected month. */
  function MonthExpenses(expenses: seq<ExpenseRecord>, month: int, year: int): (r: seq<ExpenseRecord>)
    ensures forall e :: e in r <==>
      e in expenses && e.date.parsed.Some? && e.date.parsed.value.year == year && e.date.parsed.value.month == month
    ensures Total(r, ExpensePrice) == MonthlyStats(expenses, [], month, year).expenses
  {
    InMonthMembers(expenses, ExpenseDate, month, year);
    InMonth(expenses, ExpenseDate, month, year)
  }

  /** The provisions listed (and exported) for the selected month. */
  function MonthAlimentation(alimentation: seq<AlimentationRecord>, month: int, year: int): (r: seq<AlimentationRecord>)
    ensures forall a :: a in r <==>
      a in alimentation && a.date.parsed.Some? && a.date.parsed.value.year == year && a.date.parsed.value.month == month
    ensures Total(r, AlimentationAmount) == MonthlyStats([], alimentation, month, year).alimentation
  {
    InMonthMembers(alimentation, AlimentationDate, month, year);
    InMonth(alimentation, AlimentationDate, month, year)
  }

  /**
   Each expense dated in the month is listed as many times as the store
   holds it, each provision likewise, and nothing else is listed.
   */
  lemma MonthListsCounts(expenses: seq<ExpenseRecord>, alimentation: seq<AlimentationRecord>, month: int, year: int)
    ensures forall e :: multiset(MonthExpenses(expenses, month, year))[e]
                     == if InPeriod(e.date, Month(month, year)) then multiset(expenses)[e] else 0
    ensures forall a :: multiset(MonthAlimentation(alimentation, month, year))[a]
                     == if InPeriod(a.date, Month(month, year)) then multiset(alimentation)[a] else 0
  {
    InMonthCounts(expenses, ExpenseDate, month, year);
    InMonthCounts(alimentation, AlimentationDate, month, year);
  }

  /** The month lists keep the store's order: the records of a longer list are listed after those of its prefix. */
  lemma MonthListsAppend(
    expenses: seq<ExpenseRecord>, moreExpenses: seq<ExpenseRecord>,
    alimentation: seq<AlimentationRecord>, moreAlimentation: seq<AlimentationRecord>,
    month: int, year: int)
    ensures MonthExpenses(expenses + moreExpenses, month, year)
         == MonthExpenses(expenses, month, year) + MonthExpenses(moreExpenses, month, year)
    ensures MonthAlimentation(alimentation + moreAlimentation, month, year)
         == MonthAlimentation(alimentation, month, year) + MonthAlimentation(moreAlimentation, month, year)
  {
    InMonthAppend(expenses, moreExpenses, ExpenseDate, month, year);
    InMonthAppend(alimentation, moreAlimentation, AlimentationDate, month, year);
  }

  /** isFuture in the yearly view: a month after the current one, in the current year or a later year. */
  function IsFuture(selectedYear: int, idx: int, nowYear: int, nowMonth: Month0): bool {
    (selectedYear == nowYear && idx > nowMonth) || selectedYear > nowYear
  }

  // ---------------------------------------------------------------------------
  // The computations as the component runs them

  /** getCarryOver: a loop over months 0 .. month - 1 adding each month's net to `cumulative`. */
  method GetCarryOver(expenses: seq<ExpenseRecord>, alimentation: seq<AlimentationRecord>, month: int, year: int)
    returns (cumulative: real)
    ensures cumulative == CarryOver(expenses, alimentation, month, year)
    ensures month <= 0 ==> cumulative == 0.0
    ensures cumulative == AlimentationToDate(alimentation, month, year) - ExpensesToDate(expenses, month, year)
  {
    cumulative := 0.0;
    var m := 0;
    while m < month
      invariant 0 <= m && (m <= month || m == 0)
      invariant cumulative == CarryOver(expenses, alimentation, m, year)
    {
      var stats := MonthlyStats(expenses, alimentation, m, year);
      MonthlyStatsExact(expenses, alimentation, m, year);
      cumulative := cumulative + (stats.alimentation - stats.expenses);
      m := m + 1;
    }
    CarryOverIsYearToDate(expenses, alimentation, month, year);
  }

  /** The dashboard figures: the month's totals, the carry-over, the total available and what remains. */
  method DashboardFigures(expenses: seq<ExpenseRecord>, alimentation: seq<AlimentationRecord>, month: int, year: int)
    returns (f: Figures)
    ensures f.stats == MonthlyStats(expenses, alimentation, month, year)
    ensures f.carryOver == CarryOver(expenses, alimentation, month, year)
    ensures f.totalAvailable == TotalAvailable(expenses, alimentation, month, year)
    ensures f.remaining == Remaining(expenses, alimentation, month, year)
    ensures f.remaining == CarryOver(expenses, alimentation, month + 1, year)
  {
    var stats := MonthlyStats(expenses, alimentation, month, year);
    var carryOver := GetCarryOver(expenses, alimentation, month, year);
    var totalAvailable := stats.alimentation + carryOver;
    var remaining := totalAvailable - stats.expenses;
    f := Figures(stats, carryOver, totalAvailable, remaining);
    RemainingIsNextCarryOver(expenses, alimentation, month, year);
  }

  /** mRem, the figure on a month's card in the yearly view. */
  method MonthCardRemaining(expenses: seq<ExpenseRecord>, alimentation: seq<AlimentationRecord>, idx: int, year: int)
    returns (mRem: real)
    ensures mRem == Remaining(expenses, alimentation, idx, year)
  {
    var stats := MonthlyStats(expenses, alimentation, idx, year);
    var mCarry := GetCarryOver(expenses, alimentation, idx, year);
    mRem := (stats.alimentation + mCarry) - stats.expenses;
  }

  // ---------------------------------------------------------------------------
  // Monthly totals

  /** The month's totals are the sums over exactly the records dated in that month and year. */
  lemma MonthlyStatsExact(expenses: seq<ExpenseRecord>, alimentation: seq<AlimentationRecord>, month: int, year: int)
    ensures MonthlyStats(expenses, alimentation, month, year)
         == Stats(PeriodSum(expenses, ExpenseDate, ExpensePrice, Month(month, year)),
                  PeriodSum(alimentation, AlimentationDate, AlimentationAmount, Month(month, year)))
  {
    MonthTotalIsPeriodSum(expenses, ExpenseDate, ExpensePrice, month, year);
    MonthTotalIsPeriodSum(alimentation, AlimentationDate, AlimentationAmount, month, year);
  }

  /** A month with no records of either kind has zero totals. */
  lemma MonthlyStatsEmpty(expenses: seq<ExpenseRecord>, alimentation: seq<AlimentationRecord>, month: int, year: int)
    requires forall e :: e in expenses ==> !InPeriod(e.date, Month(month, year))
    requires forall a :: a in alimentation ==> !InPeriod(a.date, Month(month, year))
    ensures MonthlyStats(expenses, alimentation, month, year) == Stats(0.0, 0.0)
  {
    MonthlyStatsExact(expenses, alimentation, month, year);
    PeriodSumOutside(expenses, ExpenseDate, ExpensePrice, Month(month, year));
    PeriodSumOutside(alimentation, AlimentationDate, AlimentationAmount, Month(month, year));
  }

  /** A record whose date does not parse, inserted anywhere, changes no month's totals. */
  lemma UnparseableIgnored(
    expenses: seq<ExpenseRecord>, i: int, x: ExpenseRecord,
    alimentation: seq<AlimentationRecord>, j: int, y: AlimentationRecord,
    month: int, year: int)
    requires 0 <= i <= |expenses| && 0 <= j <= |alimentation|
    requires x.date.parsed == None && y.date.parsed == None
    ensures MonthlyStats(expenses[..i] + [x] + expenses[i..], alimentation[..j] + [y] + alimentation[j..], month, year)
         == MonthlyStats(expenses, alimentation, month, year)
  {
    MonthlyStatsExact(expenses, alimentation, month, year);
    MonthlyStatsExact(expenses[..i] + [x] + expenses[i..], alimentation[..j] + [y] + alimentation[j..], month, year);
    PeriodSumInsertOutside(expenses, i, x, ExpenseDate, ExpensePrice, Month(month, year));
    PeriodSumInsertOutside(alimentation, j, y, AlimentationDate, AlimentationAmount, Month(month, year));
  }

  /** The month's totals do not depend on the order of either record list. */
  lemma MonthlyStatsPermutation(
    expenses: seq<ExpenseRecord>, expenses': seq<ExpenseRecord>,
    alimentation: seq<AlimentationRecord>, alimentation': seq<AlimentationRecord>,
    month: int, year: int)
    requires multiset(expenses) == multiset(expenses')
    requires multiset(alimentation) == multiset(alimentation')
    ensures MonthlyStats(expenses, alimentation, month, year) == MonthlyStats(expenses', alimentation', month, year)
  {
    MonthlyStatsExact(expenses, alimentation, month, year);
    MonthlyStatsExact(expenses', alimentation', month, year);
    PeriodSumPermutation(expenses, expenses', ExpenseDate, ExpensePrice, Month(month, year));
    PeriodSumPermutation(alimentation, alimentation', AlimentationDate, AlimentationAmount, Month(month, year));
  }

  // ---------------------------------------------------------------------------
  // Carry-over

  /** The carry-over is the year's provisions before `month` minus the year's expenses before `month`. */
  lemma {:induction false} CarryOverIsYearToDate(expenses: seq<ExpenseRecord>, alimentation: seq<AlimentationRecord>, month: int, year: int)
    ensures CarryOver(expenses, alimentation, month, year)
         == AlimentationToDate(alimentation, month, year) - ExpensesToDate(expenses, month, year)
    decreases month
  {
    if month <= 0 {
      YearBeforeJanuary(expenses, ExpenseDate, ExpensePrice, month, year);
      YearBeforeJanuary(alimentation, AlimentationDate, AlimentationAmount, month, year);
    } else {
      CarryOverIsYearToDate(expenses, alimentation, month - 1, year);
      YearBeforeStep(expenses, ExpenseDate, ExpensePrice, month - 1, year);
      YearBeforeStep(alimentation, AlimentationDate, AlimentationAmount, month - 1, year);
    }
  }

  /** Records dated in another year, or not dated at all, add nothing to a year-to-date sum. */
  lemma ToDateIsolation(
    expenses: seq<ExpenseRecord>, otherExpenses: seq<ExpenseRecord>,
    alimentation: seq<AlimentationRecord>, otherAlimentation: seq<AlimentationRecord>,
    month: int, year: int)
    requires forall e :: e in otherExpenses ==> e.date.parsed == None || e.date.parsed.value.year != year
    requires forall a :: a in otherAlimentation ==> a.date.parsed == None || a.date.parsed.value.year != year
    ensures ExpensesToDate(expenses + otherExpenses, month, year) == ExpensesToDate(expenses, month, year)
    ensures AlimentationToDate(alimentation + otherAlimentation, month, year) == AlimentationToDate(alimentation, month, year)
  {
    PeriodSumAppend(expenses, otherExpenses, ExpenseDate, ExpensePrice, YearBefore(month, year));
    PeriodSumAppend(alimentation, otherAlimentation, AlimentationDate, AlimentationAmount, YearBefore(month, year));
    assert forall e :: e in otherExpenses ==> !InPeriod(ExpenseDate(e), YearBefore(month, year));
    assert forall a :: a in otherAlimentation ==> !InPeriod(AlimentationDate(a), YearBefore(month, year));
    PeriodSumOutside(otherExpenses, ExpenseDate, ExpensePrice, YearBefore(month, year));
    PeriodSumOutside(otherAlimentation, AlimentationDate, AlimentationAmount, YearBefore(month, year));
  }

  /** Records dated in another year, or not dated at all, never change the carry-over. */
  lemma CarryOverYearIsolation(
    expenses: seq<ExpenseRecord>, otherExpenses: seq<ExpenseRecord>,
    alimentation: seq<AlimentationRecord>, otherAlimentation: seq<AlimentationRecord>,
    month: int, year: int)
    requires forall e :: e in otherExpenses ==> e.date.parsed == None || e.date.parsed.value.year != year
    requires forall a :: a in otherAlimentation ==> a.date.parsed == None || a.date.parsed.value.year != year
    ensures CarryOver(expenses + otherExpenses, alimentation + otherAlimentation, month, year)
         == CarryOver(expenses, alimentation, month, year)
  {
    CarryOverIsYearToDate(expenses + otherExpenses, alimentation + otherAlimentation, month, year);
    CarryOverIsYearToDate(expenses, alimentation, month, year);
    ToDateIsolation(expenses, otherExpenses, alimentation, otherAlimentation, month, year);
  }

  /** The carry-over does not depend on the order of either record list. */
  lemma CarryOverPermutation(
    expenses: seq<ExpenseRecord>, expenses': seq<ExpenseRecord>,
    alimentation: seq<AlimentationRecord>, alimentation': seq<AlimentationRecord>,
    month: int, year: int)
    requires multiset(expenses) == multiset(expenses')
    requires multiset(alimentation) == multiset(alimentation')
    ensures CarryOver(expenses, alimentation, month, year) == CarryOver(expenses', alimentation', month, year)
  {
    CarryOverIsYearToDate(expenses, alimentation, month, year);
    CarryOverIsYearToDate(expenses', alimentation', month, year);
    PeriodSumPermutation(expenses, expenses', ExpenseDate, ExpensePrice, YearBefore(month, year));
    PeriodSumPermutation(alimentation, alimentation', AlimentationDate, AlimentationAmount, YearBefore(month, year));
  }

  // ---------------------------------------------------------------------------
  // Balance

  /** What remains in a month is exactly the carry-over into the next month. */
  lemma RemainingIsNextCarryOver(expenses: seq<ExpenseRecord>, alimentation: seq<AlimentationRecord>, month: int, year: int)
    ensures Remaining(expenses, alimentation, month, year) == CarryOver(expenses, alimentation, month + 1, year)
    ensures Remaining(expenses, alimentation, month, year)
         == AlimentationToDate(alimentation, month + 1, year) - ExpensesToDate(expenses, month + 1, year)
  {
    MonthlyStatsExact(expenses, alimentation, month, year);
    if month < 0 {
      MonthlyStatsEmpty(expenses, alimentation, month, year);
    }
    CarryOverIsYearToDate(expenses, alimentation, month + 1, year);
  }

  /** A month with no records of its own leaves exactly what it started with, whatever its sign. */
  lemma EmptyMonthRemaining(expenses: seq<ExpenseRecord>, alimentation: seq<AlimentationRecord>, month: int, year: int)
    requires forall e :: e in expenses ==> !InPeriod(e.date, Month(month, year))
    requires forall a :: a in alimentation ==> !InPeriod(a.date, Month(month, year))
    ensures Remaining(expenses, alimentation, month, year) == CarryOver(expenses, alimentation, month, year)
    ensures TotalAvailable(expenses, alimentation, month, year) == CarryOver(expenses, alimentation, month, year)
  {
    MonthlyStatsEmpty(expenses, alimentation, month, year);
  }

  /** The month is labelled within budget exactly when the year's provisions so far cover its expenses so far. */
  lemma StandingOfMonth(expenses: seq<ExpenseRecord>, alimentation: seq<AlimentationRecord>, month: int, year: int)
    ensures StandingOf(Remaining(expenses, alimentation, month, year)) == WithinBudget
        <==> AlimentationToDate(alimentation, month + 1, year) >= ExpensesToDate(expenses, month + 1, year)
    ensures Remaining(expenses, alimentation, month, year) == 0.0
        ==> StandingOf(Remaining(expenses, alimentation, month, year)) == WithinBudget
  {
    RemainingIsNextCarryOver(expenses, alimentation, month, year);
  }

  /** A yearly-view month is in the future exactly when its month index lies after the current one. */
  lemma IsFutureIffLater(selectedYear: int, idx: Month0, nowYear: int, nowMonth: Month0)
    ensures IsFuture(selectedYear, idx, nowYear, nowMonth) <==> selectedYear * 12 + idx > nowYear * 12 + nowMonth
  {
    if selectedYear > nowYear {
      assert selectedYear * 12 >= nowYear * 12 + 12;
    } else if selectedYear < nowYear {
      assert selectedYear * 12 + 12 <= nowYear * 12;
    }
  }
}
