/**
 * `df.sort_values(by="Datum")`: the played matches in ascending order of
 * their parsed dates, missing dates (NaT) last.
 */
module Chronology {
  import opened Dates

  /** A played match after its `Datum` has been parsed. */
  datatype Game = Game(stamp: Stamp, xg: real, xga: real)

  predicate SortedByDate(g: seq<Game>) {
    forall i, j :: 0 <= i < j < |g| ==> StampLe(g[i].stamp, g[j].stamp)
  }

  /** Insert `x` into the date-sorted `g`, before the first later-or-equal date. */
  function Insert(x: Game, g: seq<Game>): (r: seq<Game>)
    requires SortedByDate(g)
    ensures SortedByDate(r)
    ensures multiset(r) == multiset(g) + multiset{x}
  {
    if g == [] then [x]
    else if StampLe(x.stamp, g[0].stamp) then [x] + g
    else
      var tail := Insert(x, g[1..]);
      assert g == [g[0]] + g[1..];
      FirstBeforeAll(g[0], x, g[1..], tail);
      SortedCons(g[0], tail);
      [g[0]] + tail
  }

  /** A game no later than every game of `rest` and than `x` is no later than any of their arrangement `r`. */
  lemma FirstBeforeAll(first: Game, x: Game, rest: seq<Game>, r: seq<Game>)
    requires StampLe(first.stamp, x.stamp)
    requires forall j :: 0 <= j < |rest| ==> StampLe(first.stamp, rest[j].stamp)
    requires multiset(r) == multiset(rest) + multiset{x}
    ensures forall j :: 0 <= j < |r| ==> StampLe(first.stamp, r[j].stamp)
  {
    forall j | 0 <= j < |r| ensures StampLe(first.stamp, r[j].stamp) {
      assert r[j] in multiset(r);
      if r[j] != x {
        assert r[j] in multiset(rest);
        var k :| 0 <= k < |rest| && rest[k] == r[j];
      }
    }
  }

  /** Putting a game no later than all of a sorted table in front keeps it sorted. */
  lemma SortedCons(first: Game, r: seq<Game>)
    requires SortedByDate(r)
    requires forall j :: 0 <= j < |r| ==> StampLe(first.stamp, r[j].stamp)
    ensures SortedByDate([first] + r)
  {
    var s := [first] + r;
    forall i, j | 0 <= i < j < |s| ensures StampLe(s[i].stamp, s[j].stamp) {
      if i == 0 {
        assert s[j] == r[j - 1];
      } else {
        assert s[i] == r[i - 1] && s[j] == r[j - 1];
      }
    }
  }

  /**
   * The table sorted by date. The contract promises an ordered permutation
   * and nothing about ties: pandas' default sort is not stable.
   */
  function SortByDate(g: seq<Game>): (r: seq<Game>)
    ensures SortedByDate(r)
    ensures multiset(r) == multiset(g)
    ensures |r| == |g|
  {
    if g == [] then []
    else
      assert g == [g[0]] + g[1..];
      Insert(g[0], SortByDate(g[1..]))
  }

  /**
   * No two games fall on the same day (games without a date may repeat).
   * Only then is the outcome of `sort_values` fixed: it leaves games of the
   * same day in an unspecified order, and missing dates in table order.
   */
  predicate DistinctDates(g: seq<Game>) {
    forall x | x in multiset(g) && x.stamp.At? ::
      multiset(g)[x] == 1 && forall y | y in multiset(g) && y.stamp == x.stamp :: y == x
  }

  lemma DistinctDatesTail(g: seq<Game>)
    requires g != [] && DistinctDates(g)
    ensures DistinctDates(g[1..])
  {
    assert g == [g[0]] + g[1..];
    assert multiset(g) == multiset{g[0]} + multiset(g[1..]);
  }

  /** A table already in date order, with no two games on the same day, comes out of the sort unchanged. */
  lemma {:induction false} SortByDateKeepsSorted(g: seq<Game>)
    requires SortedByDate(g) && DistinctDates(g)
    ensures SortByDate(g) == g
  {
    if g != [] {
      DistinctDatesTail(g);
      SortByDateKeepsSorted(g[1..]);
      assert g == [g[0]] + g[1..];
    }
  }

  /** With no two games on the same day, sorting twice is sorting once. */
  lemma SortByDateIdempotent(g: seq<Game>)
    requires DistinctDates(g)
    ensures SortByDate(SortByDate(g)) == SortByDate(g)
  {
    SortByDateKeepsSorted(SortByDate(g));
  }

  /** `a` and `b` agree position by position under `same`. */
  predicate Matches(a: seq<Game>, b: seq<Game>, same: (Game, Game) -> bool) {
    |a| == |b| && forall i :: 0 <= i < |a| ==> same(a[i], b[i])
  }

  /**
   * The sort compares dates only. So two tables that agree position by
   * position on a relation that fixes the date (for instance: same date and
   * same `xGA`) still agree position by position after sorting.
   */
  lemma {:induction false} InsertMatches(x: Game, y: Game, a: seq<Game>, b: seq<Game>, same: (Game, Game) -> bool)
    requires forall u, v :: same(u, v) ==> u.stamp == v.stamp
    requires SortedByDate(a) && SortedByDate(b)
    requires same(x, y) && Matches(a, b, same)
    ensures Matches(Insert(x, a), Insert(y, b), same)
  {
    if a != [] {
      assert same(a[0], b[0]);
      assert x.stamp == y.stamp && a[0].stamp == b[0].stamp;
      if StampLe(x.stamp, a[0].stamp) {
        assert Insert(x, a) == [x] + a && Insert(y, b) == [y] + b;
        assert forall i :: 0 <= i < |a| ==> same(a[i], b[i]);
        ConsMatches(x, y, a, b, same);
      } else {
        assert forall i :: 0 <= i < |a| - 1 ==> a[1..][i] == a[i + 1] && b[1..][i] == b[i + 1];
        InsertMatches(x, y, a[1..], b[1..], same);
        ConsMatches(a[0], b[0], Insert(x, a[1..]), Insert(y, b[1..]), same);
      }
    }
  }

  lemma ConsMatches(x: Game, y: Game, a: seq<Game>, b: seq<Game>, same: (Game, Game) -> bool)
    requires same(x, y) && Matches(a, b, same)
    ensures Matches([x] + a, [y] + b, same)
  {
    forall i | 0 <= i < |a| + 1 ensures same(([x] + a)[i], ([y] + b)[i]) {
      if i > 0 {
        assert ([x] + a)[i] == a[i - 1] && ([y] + b)[i] == b[i - 1];
      }
    }
  }

  lemma {:induction false} SortByDateMatches(a: seq<Game>, b: seq<Game>, same: (Game, Game) -> bool)
    requires forall u, v :: same(u, v) ==> u.stamp == v.stamp
    requires Matches(a, b, same)
    ensures Matches(SortByDate(a), SortByDate(b), same)
  {
    if a != [] {
      assert same(a[0], b[0]);
      SortByDateMatches(a[1..], b[1..], same);
      InsertMatches(a[0], b[0], SortByDate(a[1..]), SortByDate(b[1..]), same);
    }
  }
}
