/** The Option datatype used for optional fields and parsed dates. */
module Wrappers {
  datatype Option<+T> = None | Some(value: T) {
    function GetOr(default: T): T {
      match this
      case Some(v) => v
      case None => default
    }
  }
}

/**
 The two record shapes of the tracker (ExpenseRecord and AlimentationRecord).
 A record keeps the date text it was saved with; `parsed` is what the
 platform's date parser makes of that text: the calendar year and the
 0-based month, or None when the text does not parse (an "Invalid Date",
 whose year and month are NaN).
 */
module Records {
  import opened Wrappers

  /** A 0-based month index, as returned by the date parser (0 = January). */
  type Month0 = m: int | 0 <= m < 12

  datatype YearMonth = YearMonth(year: int, month: Month0)

  datatype Date = Date(text: string, parsed: Option<YearMonth>)

  /** An expense: `price` in the base currency unit, an optional receipt photo. */
  datatype ExpenseRecord = ExpenseRecord(
    id: string,
    date: Date,
    productName: string,
    price: real,
    photo: Option<string>)

  /** A provision ("alimentation"): an income top-up of `amount`. */
  datatype AlimentationRecord = AlimentationRecord(id: string, date: Date, amount: real)

  // Field accessors, passed to the generic ledger functions.
  function ExpenseDate(e: ExpenseRecord): Date { e.date }
  function ExpensePrice(e: ExpenseRecord): real { e.price }
  function AlimentationDate(a: AlimentationRecord): Date { a.date }
  function AlimentationAmount(a: AlimentationRecord): real { a.amount }
}
