/** Ordering and truncating aggregated tables: `sort_values(col,
    ascending=False)`, `head(n)` with 1-based positions, and `idxmax`. */
module Ranking {
  import opened Common
  import opened Grouping

  /** The column a table is ranked by. */
  datatype SortKey = ByTotal | ByCount

  function Value(g: Group, sk: SortKey): nat
  {
    match sk
    case ByTotal => g.total
    case ByCount => g.count
  }

  /** Non-increasing in the ranking column: what `ascending=False` promises. */
  predicate SortedDesc(gs: seq<Group>, sk: SortKey)
  {
    forall i, j :: 0 <= i < j < |gs| ==> Value(gs[j], sk) <= Value(gs[i], sk)
  }

  /** Non-increasing in the ranking column, rows that tie in ascending key
      order. This tie order is a choice of this model; pandas' default sort
      is not stable and fixes none. */
  predicate SortedWithTieBreak(gs: seq<Group>, sk: SortKey)
  {
    forall i, j :: 0 <= i < j < |gs| ==> RanksBefore(gs[i], gs[j], sk)
  }

  /** `a` has the greater value, or the same value and the smaller key. */
  predicate RanksBefore(a: Group, b: Group, sk: SortKey)
  {
    Value(b, sk) < Value(a, sk) || (Value(b, sk) == Value(a, sk) && StrLt(a.key, b.key))
  }

  /** Puts `x` in front of the first row of `t` that it is not below. */
  function Insert(x: Group, t: seq<Group>, sk: SortKey): seq<Group>
  {
    if t == [] || Value(t[0], sk) <= Value(x, sk) then [x] + t
    else [t[0]] + Insert(x, t[1..], sk)
  }

  /** `sort_values(col, ascending=False)`, as an insertion sort. */
  function SortDesc(gs: seq<Group>, sk: SortKey): seq<Group>
  {
    if gs == [] then [] else Insert(gs[0], SortDesc(gs[1..], sk), sk)
  }

  /** Inserting adds exactly `x` to the rows of `t`. */
  lemma {:induction false} InsertMultiset(x: Group, t: seq<Group>, sk: SortKey)
    ensures multiset(Insert(x, t, sk)) == multiset(t) + multiset{x}
    ensures forall y :: y in Insert(x, t, sk) ==> y == x || y in t
  {
    if t == [] || Value(t[0], sk) <= Value(x, sk) {
    } else {
      InsertMultiset(x, t[1..], sk);
      assert t == [t[0]] + t[1..];
    }
  }

  /** Inserting keeps a sorted table sorted. */
  lemma {:induction false} InsertSorted(x: Group, t: seq<Group>, sk: SortKey)
    requires SortedDesc(t, sk)
    ensures SortedDesc(Insert(x, t, sk), sk)
  {
    var r := Insert(x, t, sk);
    if t == [] || Value(t[0], sk) <= Value(x, sk) {
      forall i, j | 0 <= i < j < |r|
        ensures Value(r[j], sk) <= Value(r[i], sk)
      {
        if i == 0 {
          assert r[j] == t[j - 1];
          assert Value(t[j - 1], sk) <= Value(t[0], sk);
        } else {
          assert r[i] == t[i - 1] && r[j] == t[j - 1];
        }
      }
    } else {
      InsertSorted(x, t[1..], sk);
      InsertMultiset(x, t[1..], sk);
      var rest := Insert(x, t[1..], sk);
      assert r == [t[0]] + rest;
      forall i, j | 0 <= i < j < |r|
        ensures Value(r[j], sk) <= Value(r[i], sk)
      {
        if i == 0 {
          assert r[j] == rest[j - 1];
          assert rest[j - 1] in rest;
          if rest[j - 1] != x {
            var m :| 0 <= m < |t[1..]| && t[1..][m] == rest[j - 1];
            assert t[m + 1] == rest[j - 1];
          }
        } else {
          assert r[i] == rest[i - 1] && r[j] == rest[j - 1];
        }
      }
    }
  }

  /** The ranked table is sorted by the ranking column, non-increasing, and
      is a permutation of the table it ranks. */
  lemma {:induction false} SortDescSpec(gs: seq<Group>, sk: SortKey)
    ensures SortedDesc(SortDesc(gs, sk), sk)
    ensures multiset(SortDesc(gs, sk)) == multiset(gs)
    ensures |SortDesc(gs, sk)| == |gs|
  {
    if gs != [] {
      SortDescSpec(gs[1..], sk);
      InsertMultiset(gs[0], SortDesc(gs[1..], sk), sk);
      InsertSorted(gs[0], SortDesc(gs[1..], sk), sk);
      assert gs == [gs[0]] + gs[1..];
      assert |multiset(SortDesc(gs, sk))| == |multiset(gs)|;
    }
  }

  /** Inserting a row adds its total and count to the table's sums. */
  lemma {:induction false} InsertSums(x: Group, t: seq<Group>, sk: SortKey)
    ensures Totals(Insert(x, t, sk)) == x.total + Totals(t)
    ensures Counts(Insert(x, t, sk)) == x.count + Counts(t)
  {
    if t == [] || Value(t[0], sk) <= Value(x, sk) {
      assert Insert(x, t, sk)[1..] == t;
    } else {
      InsertSums(x, t[1..], sk);
      assert Insert(x, t, sk)[1..] == Insert(x, t[1..], sk);
    }
  }

  /** Ranking neither gains nor loses money or records. */
  lemma {:induction false} SortDescSums(gs: seq<Group>, sk: SortKey)
    ensures Totals(SortDesc(gs, sk)) == Totals(gs)
    ensures Counts(SortDesc(gs, sk)) == Counts(gs)
  {
    if gs != [] {
      SortDescSums(gs[1..], sk);
      InsertSums(gs[0], SortDesc(gs[1..], sk), sk);
    }
  }

  /** Two tables holding the same rows have rows for the same keys. */
  lemma SameRowsSameKeys(a: seq<Group>, b: seq<Group>, k: string)
    requires multiset(a) == multiset(b)
    ensures HasRow(a, k) <==> HasRow(b, k)
  {
    if HasRow(a, k) {
      var i :| 0 <= i < |a| && a[i].key == k;
      assert a[i] in multiset(b);
      var j :| 0 <= j < |b| && b[j] == a[i];
    }
    if HasRow(b, k) {
      var j :| 0 <= j < |b| && b[j].key == k;
      assert b[j] in multiset(a);
      var i :| 0 <= i < |a| && a[i] == b[j];
    }
  }

  lemma {:induction false} InsertTieBreak(x: Group, t: seq<Group>, sk: SortKey)
    requires SortedWithTieBreak(t, sk)
    requires forall y :: y in t ==> StrLt(x.key, y.key)
    ensures SortedWithTieBreak(Insert(x, t, sk), sk)
  {
    var r := Insert(x, t, sk);
    if t == [] || Value(t[0], sk) <= Value(x, sk) {
      forall i, j | 0 <= i < j < |r|
        ensures RanksBefore(r[i], r[j], sk)
      {
        if i == 0 {
          assert r[j] == t[j - 1] && t[j - 1] in t;
          if j > 1 {
            assert Value(t[j - 1], sk) <= Value(t[0], sk);
          }
        } else {
          assert r[i] == t[i - 1] && r[j] == t[j - 1];
        }
      }
    } else {
      InsertTieBreak(x, t[1..], sk);
      InsertMultiset(x, t[1..], sk);
      var rest := Insert(x, t[1..], sk);
      assert r == [t[0]] + rest;
      forall i, j | 0 <= i < j < |r|
        ensures RanksBefore(r[i], r[j], sk)
      {
        if i == 0 {
          assert r[j] == rest[j - 1];
          assert rest[j - 1] in rest;
          if rest[j - 1] != x {
            var m :| 0 <= m < |t[1..]| && t[1..][m] == rest[j - 1];
            assert t[m + 1] == rest[j - 1];
            assert RanksBefore(t[0], t[m + 1], sk);
          }
        } else {
          assert r[i] == rest[i - 1] && r[j] == rest[j - 1];
          assert RanksBefore(rest[i - 1], rest[j - 1], sk);
        }
      }
    }
  }

  /** With its input in ascending key order, as a groupby delivers it, the
      sort breaks ties by ascending key: the chosen tie order. */
  lemma {:induction false} SortDescTieBreak(gs: seq<Group>, sk: SortKey)
    requires KeysIncreasing(gs)
    ensures SortedWithTieBreak(SortDesc(gs, sk), sk)
  {
    if gs != [] {
      SortDescTieBreak(gs[1..], sk);
      SortDescSpec(gs[1..], sk);
      forall y | y in SortDesc(gs[1..], sk)
        ensures StrLt(gs[0].key, y.key)
      {
        assert y in multiset(SortDesc(gs[1..], sk));
        assert y in multiset(gs[1..]);
        var m :| 0 <= m < |gs[1..]| && gs[1..][m] == y;
        assert gs[m + 1] == y;
      }
      InsertTieBreak(gs[0], SortDesc(gs[1..], sk), sk);
    }
  }

  /** Rows of a table whose keys are distinct appear in it at most once. */
  lemma {:induction false} DistinctKeysOnce(gs: seq<Group>, g: Group)
    requires KeysIncreasing(gs)
    ensures multiset(gs)[g] <= 1
  {
    if gs != [] {
      assert gs == [gs[0]] + gs[1..];
      DistinctKeysOnce(gs[1..], g);
      if gs[0] == g && g in gs[1..] {
        var m :| 0 <= m < |gs[1..]| && gs[1..][m] == g;
        assert StrLt(gs[0].key, gs[m + 1].key);
        StrLtIrreflexive(g.key);
      }
    }
  }

  /** A reordering of a table with distinct keys has distinct keys. */
  lemma ReorderedKeysDistinct(a: seq<Group>, b: seq<Group>)
    requires KeysIncreasing(b) && multiset(a) == multiset(b)
    ensures forall i, j :: 0 <= i < j < |a| ==> a[i].key != a[j].key
  {
    forall i, j | 0 <= i < j < |a|
      ensures a[i].key != a[j].key
    {
      if a[i].key == a[j].key {
        assert a[i] in multiset(b) && a[j] in multiset(b);
        var m :| 0 <= m < |b| && b[m] == a[i];
        var n :| 0 <= n < |b| && b[n] == a[j];
        if m < n {
          assert StrLt(b[m].key, b[n].key);
          StrLtIrreflexive(a[i].key);
        } else if n < m {
          assert StrLt(b[n].key, b[m].key);
          StrLtIrreflexive(a[i].key);
        } else {
          TwiceHeld(a, i, j);
          DistinctKeysOnce(b, a[i]);
        }
      }
    }
  }

  /** A row held at two positions occurs twice. */
  lemma TwiceHeld(s: seq<Group>, i: nat, j: nat)
    requires i < j < |s| && s[i] == s[j]
    ensures multiset(s)[s[i]] >= 2
  {
    assert s == s[..j] + s[j..];
    assert s[i] in s[..j];
    assert s[j..][0] == s[j];
  }

  // ---------------------------------------------------------------------
  // Displayed rows.
  // ---------------------------------------------------------------------

  /** A displayed row: its 1-based position and the row it shows. */
  datatype Ranked = Ranked(position: nat, row: Group)

  function Min(a: nat, b: nat): nat
  {
    if a <= b then a else b
  }

  /** `enumerate(table.head(n).iterrows(), 1)`. */
  function Displayed(t: seq<Group>, n: nat): seq<Ranked>
  {
    var k := Min(n, |t|);
    seq(k, i requires 0 <= i < k => Ranked(i + 1, t[i]))
  }

  /** The display holds at most `n` rows at positions 1, 2, ... in table
      order; on a ranked table, no row left out ranks above a row shown. */
  lemma DisplayedSpec(t: seq<Group>, n: nat, sk: SortKey)
    ensures |Displayed(t, n)| <= n && |Displayed(t, n)| <= |t|
    ensures |Displayed(t, n)| == n || |Displayed(t, n)| == |t|
    ensures forall i :: 0 <= i < |Displayed(t, n)| ==>
      Displayed(t, n)[i].position == i + 1 && Displayed(t, n)[i].row == t[i]
    ensures SortedDesc(t, sk) ==>
      forall i, j :: 0 <= i < |Displayed(t, n)| <= j < |t| ==>
        Value(t[j], sk) <= Value(Displayed(t, n)[i].row, sk)
  {
  }

  // ---------------------------------------------------------------------
  // idxmax.
  // ---------------------------------------------------------------------

  /** `idxmax`: the position of the first row with the greatest value. */
  function IdxMax(gs: seq<Group>, sk: SortKey): (i: nat)
    requires gs != []
    ensures i < |gs|
    ensures forall j :: 0 <= j < |gs| ==> Value(gs[j], sk) <= Value(gs[i], sk)
    ensures forall j :: 0 <= j < i ==> Value(gs[j], sk) < Value(gs[i], sk)
  {
    if |gs| == 1 then 0
    else
      var m := 1 + IdxMax(gs[1..], sk);
      if Value(gs[m], sk) <= Value(gs[0], sk) then 0 else m
  }
}
