/**
 Filtering a record list to one calendar month and summing one of its
 amounts, generic in the record kind: the `filter`/`reduce` pair that the
 ledger applies to expenses (summing `price`) and to provisions (summing
 `amount`).

 `InMonth` and `Total` are the computation as written: a filter that keeps
 the list order, then a left fold that starts at 0. `PeriodSum` is the
 reference definition, the sum over exactly the records whose date falls in
 a period; the lemmas below relate the two and prove what the reference
 sum does under concatenation and permutation.
 */
module Aggregation {
  import opened Wrappers
  import opened Records

  /** A set of calendar months: one month of one year, or every month of a year before a given month. */
  datatype Period =
    | Month(month: int, year: int)
    | YearBefore(month: int, year: int)

  predicate InPeriod(d: Date, p: Period) {
    match d.parsed
    case None => false
    case Some(ym) =>
      match p
      case Month(m, y) => ym.year == y && ym.month == m
      case YearBefore(m, y) => ym.year == y && ym.month < m
  }

  /** The records of `s` dated in `month` of `year`, in their original order. */
  function InMonth<T(!new)>(s: seq<T>, dateOf: T -> Date, month: int, year: int): (r: seq<T>)
    ensures |r| <= |s|
  {
    if s == [] then []
    else
      assert s == [s[0]] + s[1..];
      (if InPeriod(dateOf(s[0]), Month(month, year)) then [s[0]] else [])
      + InMonth(s[1..], dateOf, month, year)
  }

  /** The filter keeps exactly the records dated in the month. */
  lemma {:induction false} InMonthMembers<T(!new)>(s: seq<T>, dateOf: T -> Date, month: int, year: int)
    ensures forall x :: x in InMonth(s, dateOf, month, year) <==> x in s && InPeriod(dateOf(x), Month(month, year))
  {
    if s != [] {
      InMonthMembers(s[1..], dateOf, month, year);
      assert s == [s[0]] + s[1..];
    }
  }

  /**
   The filter keeps every record dated in the month as many times as the
   list holds it, and drops every other record.
   */
  lemma {:induction false} InMonthCounts<T(!new)>(s: seq<T>, dateOf: T -> Date, month: int, year: int)
    ensures forall x :: multiset(InMonth(s, dateOf, month, year))[x]
                     == if InPeriod(dateOf(x), Month(month, year)) then multiset(s)[x] else 0
  {
    if s != [] {
      InMonthCounts(s[1..], dateOf, month, year);
      assert s == [s[0]] + s[1..];
      assert multiset(s) == multiset{s[0]} + multiset(s[1..]);
    }
  }

  /** The filter keeps the list order: filtering a concatenation concatenates the filtered parts. */
  lemma {:induction false} InMonthAppend<T(!new)>(a: seq<T>, b: seq<T>, dateOf: T -> Date, month: int, year: int)
    ensures InMonth(a + b, dateOf, month, year) == InMonth(a, dateOf, month, year) + InMonth(b, dateOf, month, year)
  {
    if a == [] {
      assert a + b == b;
    } else {
      var head := if InPeriod(dateOf(a[0]), Month(month, year)) then [a[0]] else [];
      assert (a + b)[0] == a[0];
      assert (a + b)[1..] == a[1..] + b;
      InMonthAppend(a[1..], b, dateOf, month, year);
      assert InMonth(a + b, dateOf, month, year) == head + InMonth(a[1..] + b, dateOf, month, year);
      assert InMonth(a, dateOf, month, year) == head + InMonth(a[1..], dateOf, month, year);
    }
  }

  /** A single record is kept alone when it is dated in the month, and dropped otherwise. */
  lemma InMonthSingle<T(!new)>(x: T, dateOf: T -> Date, month: int, year: int)
    ensures InMonth([x], dateOf, month, year) == if InPeriod(dateOf(x), Month(month, year)) then [x] else []
  {
    assert [x][1..] == [];
  }

  /** The left fold `s.reduce((sum, x) => sum + valueOf(x), 0)`. */
  function Total<T>(s: seq<T>, valueOf: T -> real): real {
    if s == [] then 0.0 else Total(s[..|s| - 1], valueOf) + valueOf(s[|s| - 1])
  }

  /** Reference definition: the sum of `valueOf` over exactly the records of `s` dated in `p`. */
  function PeriodSum<T>(s: seq<T>, dateOf: T -> Date, valueOf: T -> real, p: Period): real {
    if s == [] then 0.0
    else
      (if InPeriod(dateOf(s[0]), p) then valueOf(s[0]) else 0.0)
      + PeriodSum(s[1..], dateOf, valueOf, p)
  }

  lemma {:induction false} TotalAppend<T>(a: seq<T>, b: seq<T>, valueOf: T -> real)
    ensures Total(a + b, valueOf) == Total(a, valueOf) + Total(b, valueOf)
    decreases |b|
  {
    if b == [] {
      assert a + b == a;
    } else {
      var n := |b| - 1;
      assert (a + b)[..|a + b| - 1] == a + b[..n];
      assert (a + b)[|a + b| - 1] == b[n];
      TotalAppend(a, b[..n], valueOf);
    }
  }

  /** Filtering to a month and then folding is the sum over exactly the records of that month. */
  lemma {:induction false} MonthTotalIsPeriodSum<T(!new)>(s: seq<T>, dateOf: T -> Date, valueOf: T -> real, month: int, year: int)
    ensures Total(InMonth(s, dateOf, month, year), valueOf) == PeriodSum(s, dateOf, valueOf, Month(month, year))
  {
    if s != [] {
      var head := if InPeriod(dateOf(s[0]), Month(month, year)) then [s[0]] else [];
      TotalAppend(head, InMonth(s[1..], dateOf, month, year), valueOf);
      if head != [] {
        assert head[..0] == [];
      }
      MonthTotalIsPeriodSum(s[1..], dateOf, valueOf, month, year);
    }
  }

  lemma {:induction false} PeriodSumAppend<T>(a: seq<T>, b: seq<T>, dateOf: T -> Date, valueOf: T -> real, p: Period)
    ensures PeriodSum(a + b, dateOf, valueOf, p) == PeriodSum(a, dateOf, valueOf, p) + PeriodSum(b, dateOf, valueOf, p)
  {
    if a == [] {
      assert a + b == b;
    } else {
      assert (a + b)[0] == a[0];
      assert (a + b)[1..] == a[1..] + b;
      PeriodSumAppend(a[1..], b, dateOf, valueOf, p);
    }
  }

  /** Records dated outside the period (or not dated at all) contribute nothing. */
  lemma {:induction false} PeriodSumOutside<T>(s: seq<T>, dateOf: T -> Date, valueOf: T -> real, p: Period)
    requires forall x :: x in s ==> !InPeriod(dateOf(x), p)
    ensures PeriodSum(s, dateOf, valueOf, p) == 0.0
  {
    if s != [] {
      assert s[0] in s;
      assert forall x :: x in s[1..] ==> x in s;
      PeriodSumOutside(s[1..], dateOf, valueOf, p);
    }
  }

  lemma MultisetRemoveAt<T>(a: seq<T>, b: seq<T>, i: int)
    requires multiset(a) == multiset(b) && a != [] && 0 <= i < |b| && b[i] == a[0]
    ensures multiset(a[1..]) == multiset(b[..i] + b[i + 1..])
  {
    assert a == [a[0]] + a[1..];
    assert b == b[..i] + [b[i]] + b[i + 1..];
    calc {
      multiset(a[1..]);
      multiset(a) - multiset{a[0]};
      multiset(b) - multiset{b[i]};
      multiset(b[..i] + b[i + 1..]);
    }
  }

  /** Taking the record at index `i` out of the list takes its contribution out of the sum. */
  lemma PeriodSumRemoveAt<T>(b: seq<T>, i: int, dateOf: T -> Date, valueOf: T -> real, p: Period)
    requires 0 <= i < |b|
    ensures PeriodSum(b, dateOf, valueOf, p)
         == (if InPeriod(dateOf(b[i]), p) then valueOf(b[i]) else 0.0) + PeriodSum(b[..i] + b[i + 1..], dateOf, valueOf, p)
  {
    assert b == b[..i] + ([b[i]] + b[i + 1..]);
    PeriodSumAppend(b[..i], [b[i]] + b[i + 1..], dateOf, valueOf, p);
    assert ([b[i]] + b[i + 1..])[1..] == b[i + 1..];
    PeriodSumAppend(b[..i], b[i + 1..], dateOf, valueOf, p);
  }

  /** A record dated outside the period, inserted anywhere, leaves the sum unchanged. */
  lemma PeriodSumInsertOutside<T>(s: seq<T>, i: int, x: T, dateOf: T -> Date, valueOf: T -> real, p: Period)
    requires 0 <= i <= |s|
    requires !InPeriod(dateOf(x), p)
    ensures PeriodSum(s[..i] + [x] + s[i..], dateOf, valueOf, p) == PeriodSum(s, dateOf, valueOf, p)
  {
    var b := s[..i] + [x] + s[i..];
    PeriodSumRemoveAt(b, i, dateOf, valueOf, p);
    assert b[..i] + b[i + 1..] == s;
  }

  /** The reference sum does not depend on the order of the records. */
  lemma {:induction false} PeriodSumPermutation<T>(a: seq<T>, b: seq<T>, dateOf: T -> Date, valueOf: T -> real, p: Period)
    requires multiset(a) == multiset(b)
    ensures PeriodSum(a, dateOf, valueOf, p) == PeriodSum(b, dateOf, valueOf, p)
    decreases |a|
  {
    if a == [] {
      assert |b| == |multiset(b)| == 0;
    } else {
      assert a[0] in multiset(b);
      var i :| 0 <= i < |b| && b[i] == a[0];
      PeriodSumRemoveAt(b, i, dateOf, valueOf, p);
      MultisetRemoveAt(a, b, i);
      PeriodSumPermutation(a[1..], b[..i] + b[i + 1..], dateOf, valueOf, p);
    }
  }

  /** The months of a year before `month + 1` are those before `month` and `month` itself. */
  lemma {:induction false} YearBeforeStep<T>(s: seq<T>, dateOf: T -> Date, valueOf: T -> real, month: int, year: int)
    ensures PeriodSum(s, dateOf, valueOf, YearBefore(month + 1, year))
         == PeriodSum(s, dateOf, valueOf, YearBefore(month, year)) + PeriodSum(s, dateOf, valueOf, Month(month, year))
  {
    if s != [] {
      YearBeforeStep(s[1..], dateOf, valueOf, month, year);
    }
  }

  /** No date falls in a month before January. */
  lemma {:induction false} YearBeforeJanuary<T>(s: seq<T>, dateOf: T -> Date, valueOf: T -> real, month: int, year: int)
    requires month <= 0
    ensures PeriodSum(s, dateOf, valueOf, YearBefore(month, year)) == 0.0
  {
    PeriodSumOutside(s, dateOf, valueOf, YearBefore(month, year));
  }
}
