/**
 The rows of the monthly spreadsheet export, as an array of rows of cells
 before it is handed to the spreadsheet writer: a header, one row per
 expense of the month, one row per provision of the month, an empty row
 and the balance row. Number formatting is abstracted: the balance cell
 holds the figure that is printed with two decimals and the currency
 suffix.
 */
module Sheet {
  import opened Records
  import opened Aggregation
  import opened Ledger

  datatype Cell =
    | Text(text: string)
    /** A number written as a number (the amount columns). */
    | Number(value: real)
    /** A figure written as formatted text: `value.toFixed(2) + " DH"`. */
    | Money(value: real)

  type Row = seq<Cell>

  /** Column indices of the two amount columns. */
  const ExpenseColumn: nat := 2
  const AlimentationColumn: nat := 3

  function Header(): Row {
    [Text("Date"), Text("Dépense (Produit)"), Text("Montant Dépense (DH)"), Text("Provision Alimentation (DH)")]
  }

  function ExpenseRow(e: ExpenseRecord): Row {
    [Text(e.date.text), Text(e.productName), Number(e.price), Text("")]
  }

  function AlimentationRow(a: AlimentationRecord): Row {
    [Text(a.date.text), Text("RECHARGE ALIMENTATION"), Text(""), Number(a.amount)]
  }

  function BalanceRow(remaining: real): Row {
    [Text("SOLDE DU MOIS"), Text(""), Text(""), Money(remaining)]
  }

  /** `s.map(rowOf)`. */
  function Rows<T>(s: seq<T>, rowOf: T -> Row): seq<Row> {
    seq(|s|, i requires 0 <= i < |s| => rowOf(s[i]))
  }

  /** The rows built by exportExcel from the month's lists and the month's balance. */
  function SheetRows(monthExpenses: seq<ExpenseRecord>, monthAlimentation: seq<AlimentationRecord>, remaining: real)
    : (rows: seq<Row>)
    ensures |rows| == |monthExpenses| + |monthAlimentation| + 3
    ensures rows[0] == Header()
    ensures forall i :: 0 <= i < |monthExpenses| ==> rows[1 + i] == ExpenseRow(monthExpenses[i])
    ensures forall j :: 0 <= j < |monthAlimentation| ==>
      rows[1 + |monthExpenses| + j] == AlimentationRow(monthAlimentation[j])
    ensures rows[|rows| - 2] == []
    ensures rows[|rows| - 1] == BalanceRow(remaining)
  {
    [Header()] + Rows(monthExpenses, ExpenseRow) + Rows(monthAlimentation, AlimentationRow) + [[], BalanceRow(remaining)]
  }

  /** The export for the selected month: its records and the dashboard's balance. */
  function ExportRows(expenses: seq<ExpenseRecord>, alimentation: seq<AlimentationRecord>, month: int, year: int): seq<Row> {
    SheetRows(MonthExpenses(expenses, month, year), MonthAlimentation(alimentation, month, year),
              Remaining(expenses, alimentation, month, year))
  }

  /** The number in column `col` of a row, 0 when the cell is absent or not a number. */
  function NumberAt(row: Row, col: nat): real {
    if col < |row| && row[col].Number? then row[col].value else 0.0
  }

  /** The sum a spreadsheet would compute over column `col`. */
  function ColumnSum(rows: seq<Row>, col: nat): real {
    if rows == [] then 0.0 else ColumnSum(rows[..|rows| - 1], col) + NumberAt(rows[|rows| - 1], col)
  }

  lemma {:induction false} ColumnSumAppend(a: seq<Row>, b: seq<Row>, col: nat)
    ensures ColumnSum(a + b, col) == ColumnSum(a, col) + ColumnSum(b, col)
    decreases |b|
  {
    if b == [] {
      assert a + b == a;
    } else {
      var n := |b| - 1;
      assert (a + b)[..|a + b| - 1] == a + b[..n];
      ColumnSumAppend(a, b[..n], col);
    }
  }

  /** A column that holds `valueOf` of each record sums to the total of `valueOf`. */
  lemma {:induction false} ColumnOfRows<T>(s: seq<T>, rowOf: T -> Row, col: nat, valueOf: T -> real)
    requires forall x :: x in s ==> NumberAt(rowOf(x), col) == valueOf(x)
    ensures ColumnSum(Rows(s, rowOf), col) == Total(s, valueOf)
    decreases |s|
  {
    if s != [] {
      var n := |s| - 1;
      assert Rows(s, rowOf)[..n] == Rows(s[..n], rowOf);
      assert s[n] in s;
      assert forall x :: x in s[..n] ==> x in s;
      ColumnOfRows(s[..n], rowOf, col, valueOf);
    }
  }

  /** A column with no number in any row sums to 0. */
  lemma {:induction false} BlankColumnOfRows<T>(s: seq<T>, rowOf: T -> Row, col: nat)
    requires forall x :: x in s ==> NumberAt(rowOf(x), col) == 0.0
    ensures ColumnSum(Rows(s, rowOf), col) == 0.0
    decreases |s|
  {
    if s != [] {
      var n := |s| - 1;
      assert Rows(s, rowOf)[..n] == Rows(s[..n], rowOf);
      assert s[n] in s;
      assert forall x :: x in s[..n] ==> x in s;
      BlankColumnOfRows(s[..n], rowOf, col);
    }
  }

  /** Only the expense and provision rows hold numbers: the header, the empty row and the balance row add nothing. */
  lemma SheetColumn(monthExpenses: seq<ExpenseRecord>, monthAlimentation: seq<AlimentationRecord>, remaining: real, col: nat)
    ensures ColumnSum(SheetRows(monthExpenses, monthAlimentation, remaining), col)
         == ColumnSum(Rows(monthExpenses, ExpenseRow), col) + ColumnSum(Rows(monthAlimentation, AlimentationRow), col)
  {
    var head: seq<Row> := [Header()];
    var ex := Rows(monthExpenses, ExpenseRow);
    var al := Rows(monthAlimentation, AlimentationRow);
    var tail: seq<Row> := [[], BalanceRow(remaining)];
    assert SheetRows(monthExpenses, monthAlimentation, remaining) == head + ex + al + tail;
    ColumnSumAppend(head + ex + al, tail, col);
    ColumnSumAppend(head + ex, al, col);
    ColumnSumAppend(head, ex, col);
    assert head[..0] == [];
    var empty: seq<Row> := [[]];
    assert tail[..1] == empty && empty[..0] == [];
  }

  /**
   The exported figures reconcile with the ledger: the expense column sums
   to the month's expense total, the provision column to the month's
   provision total, and the balance row carries what remains, which is the
   carry-over into the next month.
   */
  lemma ExportReconciles(expenses: seq<ExpenseRecord>, alimentation: seq<AlimentationRecord>, month: int, year: int)
    ensures ColumnSum(ExportRows(expenses, alimentation, month, year), ExpenseColumn)
         == MonthlyStats(expenses, alimentation, month, year).expenses
    ensures ColumnSum(ExportRows(expenses, alimentation, month, year), AlimentationColumn)
         == MonthlyStats(expenses, alimentation, month, year).alimentation
    ensures var rows := ExportRows(expenses, alimentation, month, year);
            rows[|rows| - 1] == BalanceRow(CarryOver(expenses, alimentation, month + 1, year))
  {
    var me := MonthExpenses(expenses, month, year);
    var ma := MonthAlimentation(alimentation, month, year);
    var rem := Remaining(expenses, alimentation, month, year);
    SheetColumn(me, ma, rem, ExpenseColumn);
    SheetColumn(me, ma, rem, AlimentationColumn);
    ColumnOfRows(me, ExpenseRow, ExpenseColumn, ExpensePrice);
    BlankColumnOfRows(ma, AlimentationRow, ExpenseColumn);
    BlankColumnOfRows(me, ExpenseRow, AlimentationColumn);
    ColumnOfRows(ma, AlimentationRow, AlimentationColumn, AlimentationAmount);
    RemainingIsNextCarryOver(expenses, alimentation, month, year);
  }
}
