/** The expense tracker: a session list of expenses backed by the
    append-only file `expenses.csv`. The file is abstracted to whether it
    exists and the sequence of its lines: a header line written once, when
    the file is created, then one line per expense. */
module ExpenseApp {
  import opened Common

  /** An expense as the form submits it; the amount is a whole number, at
      least 0 (`st.number_input(min_value=0, step=1)`). */
  datatype Expense = Expense(name: string, amount: nat, date: Day, paymentMethod: PaymentMethod)

  /** The header `to_csv` writes: the expense's field names, in order. */
  const Columns: seq<string> := ["name", "amount", "date", "payment_method"]

  /** A line of the CSV file. */
  datatype Line = Header(columns: seq<string>) | Row(expense: Expense)

  /** The expenses held by the data lines, in file order. */
  function Rows(lines: seq<Line>): seq<Expense>
  {
    if lines == [] then []
    else
      var last := lines[|lines| - 1];
      Rows(lines[..|lines| - 1]) + (if last.Row? then [last.expense] else [])
  }

  /** Number of header lines. */
  function HeaderCount(lines: seq<Line>): nat
  {
    if lines == [] then 0
    else (if lines[0].Header? then 1 else 0) + HeaderCount(lines[1..])
  }

  /** Data lines are read back one expense each, in order. */
  lemma {:induction false} RowsOfDataLines(lines: seq<Line>)
    requires forall i :: 0 <= i < |lines| ==> lines[i].Row?
    ensures |Rows(lines)| == |lines|
    ensures forall i :: 0 <= i < |lines| ==> Rows(lines)[i] == lines[i].expense
  {
    if lines != [] {
      RowsOfDataLines(lines[..|lines| - 1]);
    }
  }

  lemma {:induction false} NoHeaderAmongRows(lines: seq<Line>)
    requires forall i :: 0 <= i < |lines| ==> lines[i].Row?
    ensures HeaderCount(lines) == 0
  {
    if lines != [] {
      NoHeaderAmongRows(lines[1..]);
    }
  }

  /** `expenses.csv`. */
  class ExpenseFile {
    var present: bool
    var lines: seq<Line>

    /** A file this program wrote: one header line, then data lines only;
        no lines at all while it does not exist. */
    ghost predicate Valid()
      reads this
    {
      if present then
        && |lines| >= 1
        && lines[0] == Header(Columns)
        && forall i :: 1 <= i < |lines| ==> lines[i].Row?
      else lines == []
    }

    /** No file written yet. */
    constructor Missing()
      ensures Valid() && !present
    {
      present := false;
      lines := [];
    }

    /** `load_expenses`: the stored expenses, oldest first; none when the
        file does not exist. */
    function Load(): (es: seq<Expense>)
      reads this
      requires Valid()
      ensures !present ==> es == []
      ensures present ==> |es| == |lines| - 1 && forall i :: 0 <= i < |es| ==> lines[i + 1] == Row(es[i])
    {
      if present then
        RowsOfDataLines(lines[1..]);
        Rows(lines[1..])
      else []
    }

    /** `append_expense_to_csv`: a missing file is created holding the
        header and the one row; an existing one gets the row added at the
        end, with no second header. */
    method Append(e: Expense)
      requires Valid()
      modifies this
      ensures Valid() && present
      ensures old(present) ==> lines == old(lines) + [Row(e)]
      ensures !old(present) ==> lines == [Header(Columns), Row(e)]
      ensures HeaderCount(lines) == 1
      ensures Load() == old(Load()) + [e]
    {
      if present {
        lines := lines + [Row(e)];
        assert lines[1..][..|lines[1..]| - 1] == old(lines)[1..];
      } else {
        lines := [Header(Columns), Row(e)];
        present := true;
      }
      NoHeaderAmongRows(lines[1..]);
    }
  }

  /** `st.session_state.expenses` and the file it is backed by. */
  class Session {
    var expenses: seq<Expense>
    const file: ExpenseFile

    /** A new session starts with an empty list. */
    constructor(file: ExpenseFile)
      ensures expenses == [] && this.file == file
    {
      expenses := [];
      this.file := file;
    }

    /** Loads the stored expenses only while the list is empty, so a
        populated list is never overwritten; afterwards the list is empty
        only if the store is, so running this again changes nothing. */
    method Init()
      requires file.Valid()
      modifies this
      ensures expenses == if old(expenses) == [] then file.Load() else old(expenses)
      ensures expenses == [] ==> file.Load() == []
    {
      if expenses == [] {
        expenses := file.Load();
      }
    }

    /** A submission: appended to the list, then to the file. The list
        grows by exactly this expense at the end; a list that mirrored the
        file still does. */
    method Submit(e: Expense)
      requires file.Valid()
      modifies this, file
      ensures file.Valid()
      ensures expenses == old(expenses) + [e]
      ensures file.Load() == old(file.Load()) + [e]
      ensures old(expenses) == old(file.Load()) ==> expenses == file.Load()
    {
      expenses := expenses + [e];
      file.Append(e);
    }
  }

  /** A session started after a submission finds it stored after all the
      earlier expenses, and a second initialisation adds nothing. */
  method Restart(file: ExpenseFile, e: Expense) returns (later: Session)
    requires file.Valid()
    modifies file
    ensures fresh(later) && later.file == file
    ensures later.expenses == old(file.Load()) + [e]
    ensures file.Valid() && file.Load() == later.expenses
  {
    var first := new Session(file);
    first.Init();
    first.Submit(e);
    later := new Session(file);
    later.Init();
    ghost var once := later.expenses;
    later.Init();
    assert later.expenses == once;
  }

  // ---------------------------------------------------------------------
  // The "Charts & Analysis" figures, read from the session list.
  // ---------------------------------------------------------------------

  /** Sum of the amounts. */
  function Total(es: seq<Expense>): nat
  {
    if es == [] then 0 else es[0].amount + Total(es[1..])
  }

  lemma {:induction false} TotalAppend(es: seq<Expense>, e: Expense)
    ensures Total(es + [e]) == Total(es) + e.amount
  {
    if es != [] {
      assert (es + [e])[1..] == es[1..] + [e];
      TotalAppend(es[1..], e);
    }
  }

  /** "Total Expenses", "Total Spent", "Average". */
  datatype Figures = Figures(count: nat, total: nat, average: real)

  /** The metrics, shown only when the list is non-empty. */
  function SummaryOf(es: seq<Expense>): (r: Option<Figures>)
    ensures r.None? <==> es == []
    ensures r.Some? ==> r.value.count == |es| && r.value.total == Total(es)
    ensures r.Some? ==> r.value.average * (r.value.count as real) == r.value.total as real
  {
    if es == [] then None
    else Some(Figures(|es|, Total(es), Total(es) as real / |es| as real))
  }

  /** A submission raises the count by one and the total by its amount. */
  lemma SubmitUpdatesSummary(es: seq<Expense>, e: Expense)
    ensures SummaryOf(es + [e]).value.count == |es| + 1
    ensures SummaryOf(es + [e]).value.total == Total(es) + e.amount
  {
    TotalAppend(es, e);
  }

  /** Number of expenses paid with `m`. */
  function MethodCount(es: seq<Expense>, m: PaymentMethod): nat
  {
    if es == [] then 0 else (if es[0].paymentMethod == m then 1 else 0) + MethodCount(es[1..], m)
  }

  lemma {:induction false} MethodCountsAddUp(es: seq<Expense>)
    ensures MethodCount(es, Cash) + MethodCount(es, Card) == |es|
  {
    if es != [] {
      MethodCountsAddUp(es[1..]);
    }
  }

  /** `df['payment_method'].value_counts()`: each method that occurs, with
      its number of expenses, most frequent first. With equal counts Cash
      is listed first, a choice of this model. */
  function PaymentCounts(es: seq<Expense>): (r: seq<(PaymentMethod, nat)>)
    ensures forall i :: 0 <= i < |r| ==> r[i].1 == MethodCount(es, r[i].0) > 0
    ensures forall m :: MethodCount(es, m) > 0 <==> exists i :: 0 <= i < |r| && r[i].0 == m
    ensures forall i, j :: 0 <= i < j < |r| ==> r[i].0 != r[j].0 && r[j].1 <= r[i].1
    ensures |r| == 2 ==> r[0].1 + r[1].1 == |es|
    ensures |r| == 1 ==> r[0].1 == |es|
  {
    MethodCountsAddUp(es);
    var cash, card := MethodCount(es, Cash), MethodCount(es, Card);
    if cash == 0 && card == 0 then []
    else if cash == 0 then [(Card, card)]
    else if card == 0 then [(Cash, cash)]
    else if card <= cash then [(Cash, cash), (Card, card)]
    else [(Card, card), (Cash, cash)]
  }
}
