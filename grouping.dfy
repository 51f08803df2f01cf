/** The aggregation step of the leaderboard app: `df.groupby(dim)['amount']`
    followed by `sum` and `count`, written as an explicit fold over the
    records. As in pandas, the groups come out with their keys in ascending
    order and records whose key is missing (a null card type) are dropped. */
module Grouping {
  import opened Common

  /** One expense of the leaderboard data frame; amounts are in cents. */
  datatype Expense = Expense(
    name: string,
    amount: nat,
    date: Day,
    category: string,
    paymentMethod: PaymentMethod,
    cardType: Option<string>)

  /** The column a board groups by. */
  datatype Dimension = ByName | ByPaymentMethod | ByCardType | ByCategory

  /** The group key of a record along a dimension; `None` for a null cell. */
  function KeyOf(e: Expense, d: Dimension): Option<string>
  {
    match d
    case ByName => Some(e.name)
    case ByPaymentMethod => Some(MethodName(e.paymentMethod))
    case ByCardType => e.cardType
    case ByCategory => Some(e.category)
  }

  /** One row of the aggregated table: the key, the sum and the count. */
  datatype Group = Group(key: string, total: nat, count: nat)

  // ---------------------------------------------------------------------
  // Reference definitions: what a group's figures are meant to be.
  // ---------------------------------------------------------------------

  /** Sum of the amounts of the records whose key is `k`. */
  function SumFor(es: seq<Expense>, d: Dimension, k: string): nat
  {
    if es == [] then 0
    else (if KeyOf(es[0], d) == Some(k) then es[0].amount else 0) + SumFor(es[1..], d, k)
  }

  /** Number of records whose key is `k`. */
  function CountFor(es: seq<Expense>, d: Dimension, k: string): nat
  {
    if es == [] then 0
    else (if KeyOf(es[0], d) == Some(k) then 1 else 0) + CountFor(es[1..], d, k)
  }

  /** Sum of the amounts of the records that have a key at all. */
  function KeyedSum(es: seq<Expense>, d: Dimension): nat
  {
    if es == [] then 0
    else (if KeyOf(es[0], d).Some? then es[0].amount else 0) + KeyedSum(es[1..], d)
  }

  /** Number of records that have a key at all. */
  function KeyedCount(es: seq<Expense>, d: Dimension): nat
  {
    if es == [] then 0
    else (if KeyOf(es[0], d).Some? then 1 else 0) + KeyedCount(es[1..], d)
  }

  /** Sum of all amounts. */
  function TotalAmount(es: seq<Expense>): nat
  {
    if es == [] then 0 else es[0].amount + TotalAmount(es[1..])
  }

  /** The row a correct grouping holds for key `k`, if any. */
  function Aggregate(es: seq<Expense>, d: Dimension, k: string): Option<Group>
  {
    if CountFor(es, d, k) == 0 then None
    else Some(Group(k, SumFor(es, d, k), CountFor(es, d, k)))
  }

  // ---------------------------------------------------------------------
  // Tables of groups.
  // ---------------------------------------------------------------------

  /** Keys strictly ascending: sorted as pandas lists them, and distinct. */
  predicate KeysIncreasing(gs: seq<Group>)
  {
    forall i, j :: 0 <= i < j < |gs| ==> StrLt(gs[i].key, gs[j].key)
  }

  /** The first row whose key is `k`. */
  function Find(gs: seq<Group>, k: string): Option<Group>
  {
    if gs == [] then None
    else if gs[0].key == k then Some(gs[0])
    else Find(gs[1..], k)
  }

  /** Some row of the table has key `k`. */
  predicate HasRow(gs: seq<Group>, k: string)
  {
    exists i :: 0 <= i < |gs| && gs[i].key == k
  }

  function Totals(gs: seq<Group>): nat
  {
    if gs == [] then 0 else gs[0].total + Totals(gs[1..])
  }

  function Counts(gs: seq<Group>): nat
  {
    if gs == [] then 0 else gs[0].count + Counts(gs[1..])
  }

  /** `gs` is exactly the grouping of `es` along `d`: sorted by key, and
      holding for every key precisely the row its records call for. */
  ghost predicate IsGrouping(gs: seq<Group>, es: seq<Expense>, d: Dimension)
  {
    && KeysIncreasing(gs)
    && forall k :: Find(gs, k) == Aggregate(es, d, k)
  }

  /** The row for `k` after one more amount `a` is added to it. */
  function Bump(found: Option<Group>, k: string, a: nat): Group
  {
    match found
    case None => Group(k, a, 1)
    case Some(g) => Group(k, g.total + a, g.count + 1)
  }

  /** Adds one amount under key `k`, keeping the keys in ascending order. */
  function Add(gs: seq<Group>, k: string, a: nat): seq<Group>
  {
    if gs == [] then [Group(k, a, 1)]
    else if gs[0].key == k then [Group(k, gs[0].total + a, gs[0].count + 1)] + gs[1..]
    else if StrLt(k, gs[0].key) then [Group(k, a, 1)] + gs
    else [gs[0]] + Add(gs[1..], k, a)
  }

  /** `df.groupby(dim)['amount'].agg(['sum', 'count'])`. */
  function GroupBy(es: seq<Expense>, d: Dimension): seq<Group>
  {
    if es == [] then []
    else
      var rest := GroupBy(es[1..], d);
      match KeyOf(es[0], d)
      case None => rest
      case Some(k) => Add(rest, k, es[0].amount)
  }

  // ---------------------------------------------------------------------
  // Lemmas about finding rows in a key-sorted table.
  // ---------------------------------------------------------------------

  /** Every row of a key-sorted table is the one found under its key. */
  lemma {:induction false} FindRow(gs: seq<Group>, i: nat)
    requires KeysIncreasing(gs) && i < |gs|
    ensures Find(gs, gs[i].key) == Some(gs[i])
  {
    if i > 0 {
      StrLtIrreflexive(gs[i].key);
      assert gs[0].key != gs[i].key;
      assert gs[1..][i - 1] == gs[i];
      FindRow(gs[1..], i - 1);
    }
  }

  /** What `Find` returns is a row of the table, under the key asked for. */
  lemma {:induction false} FindFound(gs: seq<Group>, k: string)
    ensures Find(gs, k).Some? <==> HasRow(gs, k)
    ensures Find(gs, k).Some? ==> Find(gs, k).value in gs && Find(gs, k).value.key == k
  {
    if gs != [] {
      FindFound(gs[1..], k);
      if HasRow(gs[1..], k) {
        var i :| 0 <= i < |gs[1..]| && gs[1..][i].key == k;
        assert gs[i + 1].key == k;
      }
      if gs[0].key != k && HasRow(gs, k) {
        var i :| 0 <= i < |gs| && gs[i].key == k;
        assert gs[1..][i - 1].key == k;
      }
    }
  }

  /** No key below the first key of a sorted table is found in it. */
  lemma {:induction false} FindBelowFirst(gs: seq<Group>, k: string)
    requires KeysIncreasing(gs) && gs != [] && StrLt(k, gs[0].key)
    ensures Find(gs, k) == None
  {
    StrLtIrreflexive(k);
    if |gs| > 1 {
      StrLtTransitive(k, gs[0].key, gs[1].key);
      FindBelowFirst(gs[1..], k);
    }
  }

  // ---------------------------------------------------------------------
  // Lemmas about Add.
  // ---------------------------------------------------------------------

  /** Adding an amount keeps the keys ascending and brings in no row other
      than the one for `k`. */
  lemma {:induction false} AddKeepsOrder(gs: seq<Group>, k: string, a: nat)
    requires KeysIncreasing(gs)
    ensures KeysIncreasing(Add(gs, k, a))
    ensures forall g :: g in Add(gs, k, a) ==> g in gs || g.key == k
  {
    if gs == [] {
    } else if gs[0].key == k {
    } else if StrLt(k, gs[0].key) {
      forall j | 0 <= j < |gs|
        ensures StrLt(k, gs[j].key)
      {
        if j > 0 {
          StrLtTransitive(k, gs[0].key, gs[j].key);
        }
      }
    } else {
      StrLtTotal(k, gs[0].key);
      AddKeepsOrder(gs[1..], k, a);
      var tail := Add(gs[1..], k, a);
      forall j | 0 <= j < |tail|
        ensures StrLt(gs[0].key, tail[j].key)
      {
        assert tail[j] in tail;
      }
    }
  }

  /** Adding an amount under `k` bumps the row for `k` (creating it when it
      is missing) and leaves the row of every other key as it was. */
  lemma {:induction false} AddFind(gs: seq<Group>, k: string, a: nat, k': string)
    requires KeysIncreasing(gs)
    ensures Find(Add(gs, k, a), k') == if k' == k then Some(Bump(Find(gs, k), k, a)) else Find(gs, k')
  {
    if gs == [] {
    } else if gs[0].key == k {
    } else if StrLt(k, gs[0].key) {
      FindBelowFirst(gs, k);
    } else {
      AddFind(gs[1..], k, a, k');
    }
  }

  /** Adding an amount raises the sum of totals by it and the sum of counts by one. */
  lemma {:induction false} AddSums(gs: seq<Group>, k: string, a: nat)
    ensures Totals(Add(gs, k, a)) == Totals(gs) + a
    ensures Counts(Add(gs, k, a)) == Counts(gs) + 1
  {
    if gs == [] {
    } else if gs[0].key == k {
      assert Add(gs, k, a)[1..] == gs[1..];
    } else if StrLt(k, gs[0].key) {
      assert Add(gs, k, a)[1..] == gs;
    } else {
      AddSums(gs[1..], k, a);
      assert Add(gs, k, a)[1..] == Add(gs[1..], k, a);
    }
  }

  // ---------------------------------------------------------------------
  // Lemmas about GroupBy.
  // ---------------------------------------------------------------------

  lemma {:induction false} NoRecordsNoSum(es: seq<Expense>, d: Dimension, k: string)
    requires CountFor(es, d, k) == 0
    ensures SumFor(es, d, k) == 0
  {
    if es != [] {
      NoRecordsNoSum(es[1..], d, k);
    }
  }

  /** A key has records exactly when some record carries it. */
  lemma {:induction false} CountForPositive(es: seq<Expense>, d: Dimension, k: string)
    ensures CountFor(es, d, k) > 0 <==> exists j :: 0 <= j < |es| && KeyOf(es[j], d) == Some(k)
  {
    if es != [] {
      CountForPositive(es[1..], d, k);
      if CountFor(es[1..], d, k) > 0 {
        var j :| 0 <= j < |es[1..]| && KeyOf(es[1..][j], d) == Some(k);
        assert KeyOf(es[j + 1], d) == Some(k);
      }
      if exists j :: 0 <= j < |es| && KeyOf(es[j], d) == Some(k) {
        var j :| 0 <= j < |es| && KeyOf(es[j], d) == Some(k);
        if j > 0 {
          assert KeyOf(es[1..][j - 1], d) == Some(k);
        }
      }
    }
  }

  /** How one more record changes the row a key calls for: the record's own
      key gets its amount added, every other key is unaffected. */
  lemma AggregateStep(es: seq<Expense>, d: Dimension, k: string)
    requires es != []
    ensures Aggregate(es, d, k) ==
      if KeyOf(es[0], d) == Some(k) then Some(Bump(Aggregate(es[1..], d, k), k, es[0].amount))
      else Aggregate(es[1..], d, k)
  {
    if KeyOf(es[0], d) == Some(k) && CountFor(es[1..], d, k) == 0 {
      NoRecordsNoSum(es[1..], d, k);
    }
  }

  /** The fold computes the grouping: keys ascending, and for every key the
      row its records call for, or no row when it has none. */
  lemma {:induction false} GroupByIsGrouping(es: seq<Expense>, d: Dimension)
    ensures IsGrouping(GroupBy(es, d), es, d)
  {
    if es != [] {
      var rest := GroupBy(es[1..], d);
      GroupByIsGrouping(es[1..], d);
      if KeyOf(es[0], d).Some? {
        AddKeepsOrder(rest, KeyOf(es[0], d).value, es[0].amount);
      }
      forall k
        ensures Find(GroupBy(es, d), k) == Aggregate(es, d, k)
      {
        AggregateStep(es, d, k);
        if KeyOf(es[0], d).Some? {
          AddFind(rest, KeyOf(es[0], d).value, es[0].amount, k);
        }
      }
    }
  }

  /** Grouping loses no record and counts none twice: the totals add up to
      the sum of the keyed amounts and the counts to the number of keyed records. */
  lemma {:induction false} GroupBySums(es: seq<Expense>, d: Dimension)
    ensures Totals(GroupBy(es, d)) == KeyedSum(es, d)
    ensures Counts(GroupBy(es, d)) == KeyedCount(es, d)
  {
    if es != [] {
      GroupBySums(es[1..], d);
      match KeyOf(es[0], d)
      case None =>
      case Some(k) =>
        AddSums(GroupBy(es[1..], d), k, es[0].amount);
    }
  }

  /** Every row of a grouping is a non-empty group whose total and count are
      those of its key's records, and no other row has the same key. */
  lemma GroupRow(es: seq<Expense>, d: Dimension, i: nat)
    requires i < |GroupBy(es, d)|
    ensures var g := GroupBy(es, d)[i];
      && g.count >= 1
      && g.total == SumFor(es, d, g.key)
      && g.count == CountFor(es, d, g.key)
      && forall j :: 0 <= j < |GroupBy(es, d)| && j != i ==> GroupBy(es, d)[j].key != g.key
  {
    var gs := GroupBy(es, d);
    GroupByIsGrouping(es, d);
    FindRow(gs, i);
    assert Find(gs, gs[i].key) == Aggregate(es, d, gs[i].key);
    forall j | 0 <= j < |gs| && j != i
      ensures gs[j].key != gs[i].key
    {
      StrLtIrreflexive(gs[i].key);
    }
  }

  /** A key has a row in the grouping exactly when some record carries it. */
  lemma GroupKeys(es: seq<Expense>, d: Dimension, k: string)
    ensures HasRow(GroupBy(es, d), k) <==> exists j :: 0 <= j < |es| && KeyOf(es[j], d) == Some(k)
  {
    GroupByIsGrouping(es, d);
    FindFound(GroupBy(es, d), k);
    assert Find(GroupBy(es, d), k) == Aggregate(es, d, k);
    CountForPositive(es, d, k);
  }

  /** Along a dimension every record has a key for (name, payment method,
      category), the keyed figures are all the records'. */
  lemma {:induction false} AllKeyed(es: seq<Expense>, d: Dimension)
    requires d != ByCardType
    ensures KeyedCount(es, d) == |es|
    ensures KeyedSum(es, d) == TotalAmount(es)
  {
    if es != [] {
      AllKeyed(es[1..], d);
    }
  }
}
