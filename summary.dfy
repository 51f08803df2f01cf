/** The summary figures under the leaderboards: record count, date range and
    total amount above the tabs, and the four metrics below them. pandas
    raises on `idxmax` of an empty series and gives NaN for an empty mean;
    both are modelled as `None`. */
module Summary {
  import opened Common
  import opened Grouping
  import opened Ranking
  import opened Leaderboards

  /** `df.groupby(dim)['amount'].sum().idxmax()` with its `max()`: the first
      group, in pandas' ascending key order, with the greatest total. */
  function TopGroup(es: seq<Expense>, d: Dimension): (r: Option<Group>)
    ensures r.None? <==> forall j :: 0 <= j < |es| ==> KeyOf(es[j], d).None?
    ensures r.Some? ==>
      && CountFor(es, d, r.value.key) > 0
      && r.value.total == SumFor(es, d, r.value.key)
  {
    var gs := GroupBy(es, d);
    GroupByIsGrouping(es, d);
    NoGroupsNoKeys(es, d);
    if gs == [] then None
    else
      var i := IdxMax(gs, ByTotal);
      GroupRow(es, d, i);
      Some(gs[i])
  }

  /** No group at all exactly when no record has a key. */
  lemma NoGroupsNoKeys(es: seq<Expense>, d: Dimension)
    ensures GroupBy(es, d) == [] <==> forall j :: 0 <= j < |es| ==> KeyOf(es[j], d).None?
  {
    if GroupBy(es, d) != [] {
      GroupKeys(es, d, GroupBy(es, d)[0].key);
    }
    if exists j :: 0 <= j < |es| && KeyOf(es[j], d).Some? {
      var j :| 0 <= j < |es| && KeyOf(es[j], d).Some?;
      GroupKeys(es, d, KeyOf(es[j], d).value);
    }
  }

  /** The top group's total is the greatest of all keys' totals, and any
      other key with the same total sorts after it: `idxmax` returns the
      first maximum, and the groupby lists keys in ascending order. */
  lemma TopGroupIsFirstMaximum(es: seq<Expense>, d: Dimension, k: string)
    requires TopGroup(es, d).Some? && CountFor(es, d, k) > 0
    ensures SumFor(es, d, k) <= TopGroup(es, d).value.total
    ensures SumFor(es, d, k) == TopGroup(es, d).value.total && k != TopGroup(es, d).value.key ==>
      StrLt(TopGroup(es, d).value.key, k)
  {
    var gs := GroupBy(es, d);
    GroupByIsGrouping(es, d);
    var i := IdxMax(gs, ByTotal);
    assert TopGroup(es, d) == Some(gs[i]);
    assert Find(gs, k) == Aggregate(es, d, k);
    FindFound(gs, k);
    var m :| 0 <= m < |gs| && gs[m] == Find(gs, k).value;
    if SumFor(es, d, k) == gs[i].total && k != gs[i].key {
      assert m != i && !(m < i);
      assert StrLt(gs[i].key, gs[m].key);
    }
  }

  /** The top group's total is at least every occurring key's total. */
  lemma TopGroupIsMaximum(es: seq<Expense>, d: Dimension)
    requires TopGroup(es, d).Some?
    ensures forall k :: CountFor(es, d, k) > 0 ==> SumFor(es, d, k) <= TopGroup(es, d).value.total
  {
    forall k | CountFor(es, d, k) > 0
      ensures SumFor(es, d, k) <= TopGroup(es, d).value.total
    {
      TopGroupIsFirstMaximum(es, d, k);
    }
  }

  /** "Top Spender": the name with the greatest total spent. */
  function TopSpender(es: seq<Expense>): (r: Option<Group>)
    ensures r.None? <==> es == []
    ensures r.Some? ==> r.value.total == SumFor(es, ByName, r.value.key) && CountFor(es, ByName, r.value.key) > 0
    ensures r.Some? ==> forall k :: CountFor(es, ByName, k) > 0 ==> SumFor(es, ByName, k) <= r.value.total
  {
    var r := TopGroup(es, ByName);
    if r.Some? then TopGroupIsMaximum(es, ByName); r else r
  }

  /** "Top Category": the category with the greatest total spent. */
  function TopCategory(es: seq<Expense>): (r: Option<Group>)
    ensures r.None? <==> es == []
    ensures r.Some? ==> r.value.total == SumFor(es, ByCategory, r.value.key) && CountFor(es, ByCategory, r.value.key) > 0
    ensures r.Some? ==> forall k :: CountFor(es, ByCategory, k) > 0 ==> SumFor(es, ByCategory, k) <= r.value.total
  {
    var r := TopGroup(es, ByCategory);
    if r.Some? then TopGroupIsMaximum(es, ByCategory); r else r
  }

  /** "Most Frequent": `value_counts().idxmax()`, the head of the
      count-ranked table; which of several names tied at the top comes
      first is the model's tie order, not the source's. */
  function MostFrequent(es: seq<Expense>): (r: Option<Group>)
    ensures r.None? <==> es == []
    ensures r.Some? ==>
      && r.value.count == CountFor(es, ByName, r.value.key) > 0
      && r.value.total == SumFor(es, ByName, r.value.key)
      && forall j :: 0 <= j < |es| ==> CountFor(es, ByName, es[j].name) <= r.value.count
  {
    var board := FrequencyLeaderboard(es);
    if board == [] then None
    else
      MostFrequentIsMaximum(es);
      Some(board[0])
  }

  lemma MostFrequentIsMaximum(es: seq<Expense>)
    requires FrequencyLeaderboard(es) != []
    ensures forall j :: 0 <= j < |es| ==> CountFor(es, ByName, es[j].name) <= FrequencyLeaderboard(es)[0].count
  {
    var board := FrequencyLeaderboard(es);
    forall j | 0 <= j < |es|
      ensures CountFor(es, ByName, es[j].name) <= board[0].count
    {
      assert KeyOf(es[j], ByName) == Some(es[j].name);
      assert HasRow(board, es[j].name);
      var m :| 0 <= m < |board| && board[m].key == es[j].name;
      assert Value(board[m], ByCount) <= Value(board[0], ByCount);
    }
  }

  /** "Average Expense": `df['amount'].mean()`. */
  function AverageExpense(es: seq<Expense>): (r: Option<real>)
    ensures r.None? <==> es == []
    ensures r.Some? ==> r.value * (|es| as real) == TotalAmount(es) as real
  {
    if es == [] then None else Some(TotalAmount(es) as real / |es| as real)
  }

  /** The greatest amount of a non-empty record list, with where it sits. */
  function MaxAmountAt(es: seq<Expense>): (i: nat)
    requires es != []
    ensures i < |es|
    ensures forall j :: 0 <= j < |es| ==> es[j].amount <= es[i].amount
  {
    if |es| == 1 then 0
    else
      var m := 1 + MaxAmountAt(es[1..]);
      if es[m].amount <= es[0].amount then 0 else m
  }

  /** The least amount of a non-empty record list, with where it sits. */
  function MinAmountAt(es: seq<Expense>): (i: nat)
    requires es != []
    ensures i < |es|
    ensures forall j :: 0 <= j < |es| ==> es[i].amount <= es[j].amount
  {
    if |es| == 1 then 0
    else
      var m := 1 + MinAmountAt(es[1..]);
      if es[0].amount <= es[m].amount then 0 else m
  }

  lemma {:induction false} TotalBetween(es: seq<Expense>, lo: nat, hi: nat)
    requires forall j :: 0 <= j < |es| ==> lo <= es[j].amount <= hi
    ensures |es| * lo <= TotalAmount(es) <= |es| * hi
  {
    if es != [] {
      TotalBetween(es[1..], lo, hi);
      assert |es| * lo == lo + |es[1..]| * lo;
      assert |es| * hi == hi + |es[1..]| * hi;
    }
  }

  /** Dividing bounds on `t` by the positive count `n`. */
  lemma DivideBounds(t: nat, n: nat, lo: nat, hi: nat)
    requires n > 0 && n * lo <= t <= n * hi
    ensures lo as real <= t as real / n as real <= hi as real
  {
    assert (n * lo) as real == n as real * lo as real;
    assert (n * hi) as real == n as real * hi as real;
  }

  /** The average expense lies between the smallest and the largest amount. */
  lemma AverageWithinAmounts(es: seq<Expense>)
    requires es != []
    ensures es[MinAmountAt(es)].amount as real <= AverageExpense(es).value <= es[MaxAmountAt(es)].amount as real
  {
    var lo, hi := es[MinAmountAt(es)].amount, es[MaxAmountAt(es)].amount;
    TotalBetween(es, lo, hi);
    DivideBounds(TotalAmount(es), |es|, lo, hi);
  }

  /** "Date range": the earliest and the latest date of the records. */
  function DateRange(es: seq<Expense>): (r: Option<(Day, Day)>)
    ensures r.None? <==> es == []
    ensures r.Some? ==>
      && (exists i :: 0 <= i < |es| && es[i].date == r.value.0)
      && (exists i :: 0 <= i < |es| && es[i].date == r.value.1)
      && forall i :: 0 <= i < |es| ==> r.value.0 <= es[i].date <= r.value.1
  {
    if es == [] then None
    else
      match DateRange(es[1..])
      case None => Some((es[0].date, es[0].date))
      case Some((lo, hi)) =>
        Some((if es[0].date < lo then es[0].date else lo, if es[0].date > hi then es[0].date else hi))
  }
}
