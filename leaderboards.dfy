/** The five leaderboards of the leaderboard app, each a pipeline
    groupby -> agg -> sort_values (-> head) over the records. */
module Leaderboards {
  import opened Common
  import opened Grouping
  import opened Ranking

  /** Rows displayed by the top-spender and frequency boards (`head(10)`). */
  const ShownRows: nat := 10

  /** The grouping along `d`, ranked by `sk`, descending. */
  function Board(es: seq<Expense>, d: Dimension, sk: SortKey): seq<Group>
  {
    SortDesc(GroupBy(es, d), sk)
  }

  /** `board` holds the groups of `es` along `d`, in some order: one row per
      key that occurs, carrying that key's sum and count, and nothing else. */
  ghost predicate Ranks(board: seq<Group>, es: seq<Expense>, d: Dimension)
  {
    && multiset(board) == multiset(GroupBy(es, d))
    && (forall i :: 0 <= i < |board| ==>
          && board[i].count >= 1
          && board[i].total == SumFor(es, d, board[i].key)
          && board[i].count == CountFor(es, d, board[i].key))
    && (forall i, j :: 0 <= i < j < |board| ==> board[i].key != board[j].key)
    && (forall k :: HasRow(board, k) <==> exists j :: 0 <= j < |es| && KeyOf(es[j], d) == Some(k))
    && Totals(board) == KeyedSum(es, d)
    && Counts(board) == KeyedCount(es, d)
  }

  /** Every row of a board is one of the grouping's rows. */
  lemma BoardRows(es: seq<Expense>, d: Dimension, sk: SortKey)
    ensures forall i :: 0 <= i < |Board(es, d, sk)| ==>
      && Board(es, d, sk)[i].count >= 1
      && Board(es, d, sk)[i].total == SumFor(es, d, Board(es, d, sk)[i].key)
      && Board(es, d, sk)[i].count == CountFor(es, d, Board(es, d, sk)[i].key)
  {
    var gs := GroupBy(es, d);
    var board := Board(es, d, sk);
    SortDescSpec(gs, sk);
    forall i | 0 <= i < |board|
      ensures board[i].count >= 1
      ensures board[i].total == SumFor(es, d, board[i].key)
      ensures board[i].count == CountFor(es, d, board[i].key)
    {
      assert board[i] in multiset(gs);
      var m :| 0 <= m < |gs| && gs[m] == board[i];
      GroupRow(es, d, m);
    }
  }

  /** No key appears twice on a board. */
  lemma BoardKeysDistinct(es: seq<Expense>, d: Dimension, sk: SortKey)
    ensures forall i, j :: 0 <= i < j < |Board(es, d, sk)| ==> Board(es, d, sk)[i].key != Board(es, d, sk)[j].key
  {
    SortDescSpec(GroupBy(es, d), sk);
    GroupByIsGrouping(es, d);
    ReorderedKeysDistinct(Board(es, d, sk), GroupBy(es, d));
  }

  /** Every board is sorted by its ranking column and holds the grouping. */
  lemma BoardSpec(es: seq<Expense>, d: Dimension, sk: SortKey)
    ensures SortedDesc(Board(es, d, sk), sk)
    ensures Ranks(Board(es, d, sk), es, d)
  {
    var gs := GroupBy(es, d);
    var board := Board(es, d, sk);
    SortDescSpec(gs, sk);
    SortDescSums(gs, sk);
    GroupBySums(es, d);
    BoardRows(es, d, sk);
    BoardKeysDistinct(es, d, sk);
    forall k
      ensures HasRow(board, k) <==> exists j :: 0 <= j < |es| && KeyOf(es[j], d) == Some(k)
    {
      SameRowsSameKeys(board, gs, k);
      GroupKeys(es, d, k);
    }
  }

  // ---------------------------------------------------------------------
  // Top spenders and most frequent spenders.
  // ---------------------------------------------------------------------

  /** `create_spending_leaderboard`: the whole table of names ranked by
      total spent (the function returns it untruncated). */
  function SpendingLeaderboard(es: seq<Expense>): (board: seq<Group>)
    ensures SortedDesc(board, ByTotal)
    ensures Ranks(board, es, ByName)
    ensures Counts(board) == |es| && Totals(board) == TotalAmount(es)
  {
    BoardSpec(es, ByName, ByTotal);
    AllKeyed(es, ByName);
    Board(es, ByName, ByTotal)
  }

  /** The top-spender rows displayed: at most ten, at positions 1, 2, ...,
      none of the names left out having spent more than a name shown. */
  function SpendingDisplay(es: seq<Expense>): (shown: seq<Ranked>)
    ensures |shown| == Min(ShownRows, |SpendingLeaderboard(es)|)
    ensures forall i :: 0 <= i < |shown| ==>
      shown[i].position == i + 1 && shown[i].row == SpendingLeaderboard(es)[i]
    ensures forall i, j :: 0 <= i < |shown| <= j < |SpendingLeaderboard(es)| ==>
      SpendingLeaderboard(es)[j].total <= shown[i].row.total
  {
    DisplayedSpec(SpendingLeaderboard(es), ShownRows, ByTotal);
    Displayed(SpendingLeaderboard(es), ShownRows)
  }

  /** `create_frequency_leaderboard`: names ranked by number of expenses,
      each row also carrying that name's total spent. */
  function FrequencyLeaderboard(es: seq<Expense>): (board: seq<Group>)
    ensures SortedDesc(board, ByCount)
    ensures Ranks(board, es, ByName)
    ensures Counts(board) == |es| && Totals(board) == TotalAmount(es)
  {
    BoardSpec(es, ByName, ByCount);
    AllKeyed(es, ByName);
    Board(es, ByName, ByCount)
  }

  /** The frequency rows displayed: at most ten, at positions 1, 2, ...,
      none of the names left out having more expenses than a name shown. */
  function FrequencyDisplay(es: seq<Expense>): (shown: seq<Ranked>)
    ensures |shown| == Min(ShownRows, |FrequencyLeaderboard(es)|)
    ensures forall i :: 0 <= i < |shown| ==>
      shown[i].position == i + 1 && shown[i].row == FrequencyLeaderboard(es)[i]
    ensures forall i, j :: 0 <= i < |shown| <= j < |FrequencyLeaderboard(es)| ==>
      FrequencyLeaderboard(es)[j].count <= shown[i].row.count
  {
    DisplayedSpec(FrequencyLeaderboard(es), ShownRows, ByCount);
    Displayed(FrequencyLeaderboard(es), ShownRows)
  }

  /** The outcome of `left.merge(right, on=key)` as far as the frames'
      column names decide it: pandas raises `KeyError` unless `key` is a
      column of both frames. */
  datatype MergeOutcome = MissingKey(key: string) | Joined

  function MergeOn(left: seq<string>, right: seq<string>, key: string): (r: MergeOutcome)
    ensures r.Joined? <==> key in left && key in right
    ensures r.MissingKey? ==> r.key == key
  {
    if key in left && key in right then Joined else MissingKey(key)
  }

  /** Columns of the counts frame after `frequency_by_person.columns = ...`. */
  const CountColumns: seq<string> := ["Name", "Number of Expenses"]

  /** Columns of `df.groupby('name')['amount'].sum().reset_index()`, never renamed. */
  const SumColumns: seq<string> := ["name", "amount"]

  /** The sums frame with its name column renamed to match, as evidently intended. */
  const NamedSumColumns: seq<string> := ["Name", "Total Spent"]

  /** `create_frequency_leaderboard` as written: `None` stands for the
      `KeyError` of the merge; had the merge joined, the result would be
      the count-ranked board. */
  function FrequencyLeaderboardAsWritten(es: seq<Expense>): (r: Option<seq<Group>>)
    ensures r.None? <==> !("Name" in SumColumns)
    ensures r.Some? ==> r.value == FrequencyLeaderboard(es)
  {
    match MergeOn(CountColumns, SumColumns, "Name")
    case MissingKey(_) => None
    case Joined => Some(FrequencyLeaderboard(es))
  }

  /** As written, the merge raises for every record list, the empty one
      included: the sums frame has a `name` column but no `Name` column. */
  lemma FrequencyMergeRaises(es: seq<Expense>)
    ensures MergeOn(CountColumns, SumColumns, "Name") == MissingKey("Name")
    ensures FrequencyLeaderboardAsWritten(es).None?
  {
    assert SumColumns[0] != "Name" by { assert SumColumns[0][0] == 'n'; }
    assert SumColumns[1] != "Name" by { assert SumColumns[1][0] == 'a'; }
  }

  /** With the name column renamed, the merge joins, and the board is the
      count-ranked table of `FrequencyLeaderboard`: one row per name with
      its count and its total. */
  lemma IntendedMergeJoins(es: seq<Expense>)
    ensures MergeOn(CountColumns, NamedSumColumns, "Name") == Joined
    ensures SortedDesc(FrequencyLeaderboard(es), ByCount)
    ensures Ranks(FrequencyLeaderboard(es), es, ByName)
  {
    assert NamedSumColumns[0] == "Name";
  }

  /** With the records as pandas holds them, this model's boards list
      rows that tie in ascending key order (a choice of the model). */
  lemma BoardTieOrder(es: seq<Expense>, d: Dimension, sk: SortKey)
    ensures SortedWithTieBreak(Board(es, d, sk), sk)
  {
    GroupByIsGrouping(es, d);
    SortDescTieBreak(GroupBy(es, d), sk);
  }

  // ---------------------------------------------------------------------
  // Boards with an average column.
  // ---------------------------------------------------------------------

  /** A row of `agg(['sum', 'count', 'mean'])`. */
  datatype Stats = Stats(key: string, total: nat, count: nat, average: real)

  function WithAverages(gs: seq<Group>): (rows: seq<Stats>)
    requires forall i :: 0 <= i < |gs| ==> gs[i].count >= 1
    ensures |rows| == |gs|
    ensures Groups(rows) == gs
    ensures forall i :: 0 <= i < |rows| ==>
      rows[i].count >= 1 && rows[i].average == rows[i].total as real / rows[i].count as real
  {
    seq(|gs|, i requires 0 <= i < |gs| => Stats(gs[i].key, gs[i].total, gs[i].count, gs[i].total as real / gs[i].count as real))
  }

  /** The groups a table of statistics is made of. */
  function Groups(rows: seq<Stats>): seq<Group>
  {
    seq(|rows|, i requires 0 <= i < |rows| => Group(rows[i].key, rows[i].total, rows[i].count))
  }

  /** `rows` is the statistics board of `es` along `d`: ranked by total,
      descending, one row per key, and each average the total over the count. */
  ghost predicate IsStatsBoard(rows: seq<Stats>, es: seq<Expense>, d: Dimension)
  {
    && SortedDesc(Groups(rows), ByTotal)
    && Ranks(Groups(rows), es, d)
    && forall i :: 0 <= i < |rows| ==>
         rows[i].count >= 1 && rows[i].average == rows[i].total as real / rows[i].count as real
  }

  function StatsBoard(es: seq<Expense>, d: Dimension): (rows: seq<Stats>)
    ensures IsStatsBoard(rows, es, d)
  {
    BoardSpec(es, d, ByTotal);
    var board := Board(es, d, ByTotal);
    WithAverages(board)
  }

  /** `create_payment_method_leaderboard`: at most one row for "Cash" and
      one for "Card". */
  function PaymentMethodLeaderboard(es: seq<Expense>): (rows: seq<Stats>)
    ensures IsStatsBoard(rows, es, ByPaymentMethod)
    ensures forall i :: 0 <= i < |rows| ==> rows[i].key == "Cash" || rows[i].key == "Card"
    ensures |rows| <= 2
    ensures Totals(Groups(rows)) == TotalAmount(es)
  {
    AllKeyed(es, ByPaymentMethod);
    PaymentMethodKeys(es, StatsBoard(es, ByPaymentMethod));
    StatsBoard(es, ByPaymentMethod)
  }

  /** A board grouped by payment method has only the two method names as keys. */
  lemma PaymentMethodKeys(es: seq<Expense>, rows: seq<Stats>)
    requires IsStatsBoard(rows, es, ByPaymentMethod)
    ensures forall i :: 0 <= i < |rows| ==> rows[i].key == "Cash" || rows[i].key == "Card"
    ensures |rows| <= 2
  {
    var gs := Groups(rows);
    forall i | 0 <= i < |rows|
      ensures rows[i].key == "Cash" || rows[i].key == "Card"
    {
      assert gs[i].key == rows[i].key;
      assert HasRow(gs, gs[i].key);
      var j :| 0 <= j < |es| && KeyOf(es[j], ByPaymentMethod) == Some(gs[i].key);
    }
    var keys := seq(|rows|, i requires 0 <= i < |rows| => rows[i].key);
    forall i, j | 0 <= i < j < |keys|
      ensures keys[i] != keys[j]
    {
      assert gs[i].key == keys[i] && gs[j].key == keys[j];
    }
    DistinctWithin(keys, {"Cash", "Card"});
  }

  /** Distinct strings drawn from a set are no more than its elements. */
  lemma {:induction false} DistinctWithin(s: seq<string>, pool: set<string>)
    requires forall i :: 0 <= i < |s| ==> s[i] in pool
    requires forall i, j :: 0 <= i < j < |s| ==> s[i] != s[j]
    ensures |s| <= |pool|
  {
    if s != [] {
      forall i | 0 <= i < |s[1..]|
        ensures s[1..][i] in pool - {s[0]}
      {
        assert s[1..][i] == s[i + 1];
      }
      DistinctWithin(s[1..], pool - {s[0]});
    }
  }

  /** `create_category_leaderboard`: every record has a category, so the
      categories' totals add up to all the money spent. */
  function CategoryLeaderboard(es: seq<Expense>): (rows: seq<Stats>)
    ensures IsStatsBoard(rows, es, ByCategory)
    ensures Totals(Groups(rows)) == TotalAmount(es) && Counts(Groups(rows)) == |es|
  {
    AllKeyed(es, ByCategory);
    StatsBoard(es, ByCategory)
  }

  // ---------------------------------------------------------------------
  // Card types.
  // ---------------------------------------------------------------------

  /** `df[df['payment_method'] == 'Card']`: only Card payments;
      `CardExpensesCount` adds that each Card payment is kept as often as
      it occurs, and `CardExpensesAppend` that their order is kept. */
  function CardExpenses(es: seq<Expense>): (cards: seq<Expense>)
    ensures forall j :: 0 <= j < |cards| ==> cards[j].paymentMethod == Card
    ensures |cards| == 0 <==> forall j :: 0 <= j < |es| ==> es[j].paymentMethod != Card
  {
    if es == [] then []
    else
      assert es == [es[0]] + es[1..];
      assert forall j :: 0 < j < |es| ==> es[j] == es[1..][j - 1];
      if es[0].paymentMethod == Card then [es[0]] + CardExpenses(es[1..])
      else CardExpenses(es[1..])
  }

  /** The filter keeps each Card payment exactly as often as it occurs and
      drops every Cash payment. */
  lemma {:induction false} CardExpensesCount(es: seq<Expense>, e: Expense)
    ensures multiset(CardExpenses(es))[e] == if e.paymentMethod == Card then multiset(es)[e] else 0
  {
    if es != [] {
      assert es == [es[0]] + es[1..];
      CardExpensesCount(es[1..], e);
    }
  }

  /** Filtering a concatenation filters each part, in order; with
      `CardExpensesSingle`, the Card payments come out in the order of the
      records. */
  lemma {:induction false} CardExpensesAppend(a: seq<Expense>, b: seq<Expense>)
    ensures CardExpenses(a + b) == CardExpenses(a) + CardExpenses(b)
  {
    if a == [] {
      assert a + b == b;
    } else {
      var rest := CardExpenses(a[1..] + b);
      assert a + b != [] && (a + b)[0] == a[0];
      assert (a + b)[1..] == a[1..] + b;
      CardExpensesAppend(a[1..], b);
      if a[0].paymentMethod == Card {
        assert CardExpenses(a + b) == [a[0]] + rest;
        assert CardExpenses(a) == [a[0]] + CardExpenses(a[1..]);
        assert [a[0]] + (CardExpenses(a[1..]) + CardExpenses(b)) == ([a[0]] + CardExpenses(a[1..])) + CardExpenses(b);
      } else {
        assert CardExpenses(a + b) == rest;
        assert CardExpenses(a) == CardExpenses(a[1..]);
      }
    }
  }

  /** A single record is kept exactly when it is a Card payment. */
  lemma CardExpensesSingle(e: Expense)
    ensures CardExpenses([e]) == if e.paymentMethod == Card then [e] else []
  {
    assert [e][1..] == [];
  }

  /** Sum of the amounts of the Card payments made with card type `k`. */
  function CardTypeSum(es: seq<Expense>, k: string): nat
  {
    if es == [] then 0
    else
      (if es[0].paymentMethod == Card && es[0].cardType == Some(k) then es[0].amount else 0) +
      CardTypeSum(es[1..], k)
  }

  /** Number of Card payments made with card type `k`. */
  function CardTypeCount(es: seq<Expense>, k: string): nat
  {
    if es == [] then 0
    else
      (if es[0].paymentMethod == Card && es[0].cardType == Some(k) then 1 else 0) +
      CardTypeCount(es[1..], k)
  }

  /** `create_card_type_leaderboard`: `None` when there is no Card payment,
      otherwise the card types of the Card payments ranked by total. */
  function CardTypeLeaderboard(es: seq<Expense>): (r: Option<seq<Stats>>)
    ensures r.None? <==> forall j :: 0 <= j < |es| ==> es[j].paymentMethod != Card
    ensures r.Some? ==> IsStatsBoard(r.value, CardExpenses(es), ByCardType)
  {
    var cards := CardExpenses(es);
    if cards == [] then None else Some(StatsBoard(cards, ByCardType))
  }

  /** Filtering on Card first means a card type's figures count only the
      Card payments that carry it: a Cash record with a card type adds nothing. */
  lemma {:induction false} CardFilterFigures(es: seq<Expense>, k: string)
    ensures SumFor(CardExpenses(es), ByCardType, k) == CardTypeSum(es, k)
    ensures CountFor(CardExpenses(es), ByCardType, k) == CardTypeCount(es, k)
  {
    if es != [] {
      CardFilterFigures(es[1..], k);
    }
  }

  /** Each row of the card-type board holds the sum and the count of the
      Card payments with that card type, at least one; and a card type has a
      row exactly when some Card payment carries it, so records with no
      card type form no group. */
  lemma CardTypeRows(es: seq<Expense>, k: string)
    requires CardTypeLeaderboard(es).Some?
    ensures var rows := CardTypeLeaderboard(es).value;
      && (forall i :: 0 <= i < |rows| && rows[i].key == k ==>
            rows[i].total == CardTypeSum(es, k) && rows[i].count == CardTypeCount(es, k) >= 1)
      && (HasRow(Groups(rows), k) <==>
            exists j :: 0 <= j < |es| && es[j].paymentMethod == Card && es[j].cardType == Some(k))
  {
    var rows := CardTypeLeaderboard(es).value;
    var cards := CardExpenses(es);
    CardFilterFigures(es, k);
    forall i | 0 <= i < |rows| && rows[i].key == k
      ensures rows[i].total == CardTypeSum(es, k) && rows[i].count == CardTypeCount(es, k) >= 1
    {
      assert Groups(rows)[i].key == k;
    }
    CardTypeCountPositive(es, k);
    CountForPositive(cards, ByCardType, k);
    assert HasRow(Groups(rows), k) <==> exists j :: 0 <= j < |cards| && KeyOf(cards[j], ByCardType) == Some(k);
  }

  lemma {:induction false} CardTypeCountPositive(es: seq<Expense>, k: string)
    ensures CardTypeCount(es, k) > 0 <==>
      exists j :: 0 <= j < |es| && es[j].paymentMethod == Card && es[j].cardType == Some(k)
  {
    if es != [] {
      CardTypeCountPositive(es[1..], k);
      if CardTypeCount(es[1..], k) > 0 {
        var j :| 0 <= j < |es[1..]| && es[1..][j].paymentMethod == Card && es[1..][j].cardType == Some(k);
        assert es[j + 1] == es[1..][j];
      }
      if exists j :: 0 <= j < |es| && es[j].paymentMethod == Card && es[j].cardType == Some(k) {
        var j :| 0 <= j < |es| && es[j].paymentMethod == Card && es[j].cardType == Some(k);
        if j > 0 {
          assert es[1..][j - 1] == es[j];
        }
      }
    }
  }
}
