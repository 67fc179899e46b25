/**
 * `process_team_data`: drop the rows without `xG`, parse `Datum`, sort by
 * date, take the 5-game rolling means of `xG` and `xGA`, and number the
 * positions 1..n.
 */
module Pipeline {
  import opened Wrappers
  import opened Dates
  import opened PlayedFilter
  import opened Chronology
  import opened Rolling

  /** What `process_team_data` returns: `X`, `Y_for` and `Y_ag`. */
  datatype Series = Series(x: seq<int>, yFor: seq<real>, yAg: seq<real>)

  /**
   * The `Datum` column through `pd.to_datetime(x, format='%d.%m.%Y')`, row
   * by row in table order; the first text that does not parse raises.
   */
  function ParseDates(rows: seq<RawRow>): (r: Result<seq<Game>, DateError>)
    requires AllPlayed(rows)
    ensures r.Ok? <==> forall i :: 0 <= i < |rows| ==> ParseDatum(rows[i].datum).Ok?
    ensures r.Ok? ==> |r.value| == |rows|
    ensures r.Ok? ==> forall i :: 0 <= i < |rows| ==>
      && ParseDatum(rows[i].datum) == Ok(r.value[i].stamp)
      && r.value[i].xg == rows[i].xg.value
      && r.value[i].xga == rows[i].xga
  {
    if rows == [] then Ok([])
    else
      assert forall i :: 0 < i < |rows| ==> rows[1..][i - 1] == rows[i];
      match ParseDatum(rows[0].datum)
      case Err(e) => Err(e)
      case Ok(stamp) =>
        match ParseDates(rows[1..])
        case Err(e) => Err(e)
        case Ok(rest) => Ok([Game(stamp, rows[0].xg.value, rows[0].xga)] + rest)
  }

  /** When the parse raises, it raises for the first row whose `Datum` does not parse. */
  lemma {:induction false} ParseDatesFirstError(rows: seq<RawRow>, e: DateError)
    requires AllPlayed(rows) && ParseDates(rows) == Err(e)
    ensures exists k ::
      && 0 <= k < |rows| && ParseDatum(rows[k].datum) == Err(e)
      && forall j :: 0 <= j < k ==> ParseDatum(rows[j].datum).Ok?
  {
    if ParseDatum(rows[0].datum).Ok? {
      assert forall i :: 0 < i < |rows| ==> rows[1..][i - 1] == rows[i];
      ParseDatesFirstError(rows[1..], e);
      var k :| 0 <= k < |rows[1..]| && ParseDatum(rows[1..][k].datum) == Err(e) &&
        forall j :: 0 <= j < k ==> ParseDatum(rows[1..][j].datum).Ok?;
      assert ParseDatum(rows[k + 1].datum) == Err(e);
    } else {
      assert ParseDatum(rows[0].datum) == Err(e);
    }
  }

  /** The parse is determined row by row: rows that each parse to a game give exactly those games. */
  lemma {:induction false} ParseDatesExact(rows: seq<RawRow>, games: seq<Game>)
    requires AllPlayed(rows) && |games| == |rows|
    requires forall i :: 0 <= i < |rows| ==>
      && ParseDatum(rows[i].datum) == Ok(games[i].stamp)
      && games[i].xg == rows[i].xg.value
      && games[i].xga == rows[i].xga
    ensures ParseDates(rows) == Ok(games)
  {
    if rows != [] {
      ParseDatesExact(rows[1..], games[1..]);
      ParseDatesCons(rows[0], rows[1..], games[0].stamp, games[1..]);
      assert [rows[0]] + rows[1..] == rows;
      assert [Game(games[0].stamp, rows[0].xg.value, rows[0].xga)] + games[1..] == games;
    }
  }

  /** One more row in front: its parsed date goes in front of the others. */
  lemma ParseDatesCons(r: RawRow, rest: seq<RawRow>, t: Stamp, games: seq<Game>)
    requires Played(r) && AllPlayed(rest)
    requires ParseDatum(r.datum) == Ok(t) && ParseDates(rest) == Ok(games)
    ensures ParseDates([r] + rest) == Ok([Game(t, r.xg.value, r.xga)] + games)
  {
    assert ([r] + rest)[0] == r && ([r] + rest)[1..] == rest;
  }

  /** `df['xG']` of the sorted table. */
  function ForColumn(g: seq<Game>): (v: seq<real>)
    ensures |v| == |g|
  {
    seq(|g|, i requires 0 <= i < |g| => g[i].xg)
  }

  /** `df['xGA']` of the sorted table. */
  function AgainstColumn(g: seq<Game>): (v: seq<real>)
    ensures |v| == |g|
  {
    seq(|g|, i requires 0 <= i < |g| => g[i].xga)
  }

  /** `pd.Series(range(1, n + 1))`. */
  function Positions(n: nat): (x: seq<int>)
    ensures |x| == n
    ensures forall i :: 0 <= i < n ==> x[i] == i + 1
  {
    if n == 0 then [] else Positions(n - 1) + [n]
  }

  /** Parse, sort, rolling means and positions, applied to the table the drop loop leaves. */
  function Transform(played: seq<RawRow>): (r: Result<Series, DateError>)
    requires AllPlayed(played)
    ensures r.Ok? <==> ParseDates(played).Ok?
    ensures r.Ok? ==> |r.value.x| == |r.value.yFor| == |r.value.yAg| == |played|
  {
    match ParseDates(played)
    case Err(e) => Err(e)
    case Ok(games) =>
      var sorted := SortByDate(games);
      var yFor := RollingMean(ForColumn(sorted));
      var yAg := RollingMean(AgainstColumn(sorted));
      Ok(Series(Positions(|yFor|), yFor, yAg))
  }

  /**
   * `process_team_data(df)`: the drop loop mutates the caller's table, and
   * the rest computes the three series from what is left.
   */
  method ProcessTeamData(df: MatchTable) returns (result: Result<Series, DateError>)
    modifies df
    ensures df.rows == KeepPlayed(old(df.rows))
    ensures result == Transform(df.rows)
  {
    var gamesIndex := df.DropMissingXg();
    result := Transform(df.rows);
  }

  // ---------------------------------------------------------------------
  // Properties of the whole transform

  /**
   * The transform fails exactly when some `Datum` does not parse. Otherwise
   * `X`, `Y_for` and `Y_ag` have one entry per row, `X` is 1..n, and the
   * two means are the rolling means of the `xG` and `xGA` columns of SOME
   * date-ordered arrangement of the parsed rows; which one, among rows of
   * the same date, is not promised.
   */
  lemma TransformResult(played: seq<RawRow>)
    requires AllPlayed(played)
    ensures Transform(played).Ok? <==> forall i :: 0 <= i < |played| ==> ParseDatum(played[i].datum).Ok?
    ensures Transform(played).Ok? ==>
      var s := Transform(played).value;
      && |s.x| == |s.yFor| == |s.yAg| == |played|
      && (forall i :: 0 <= i < |s.x| ==> s.x[i] == i + 1)
      && exists g ::
        && SortedByDate(g) && multiset(g) == multiset(ParseDates(played).value)
        && s.yFor == RollingMean(ForColumn(g)) && s.yAg == RollingMean(AgainstColumn(g))
  {
    if Transform(played).Ok? {
      var g := SortByDate(ParseDates(played).value);
      assert |g| == |played| by {
        assert |multiset(g)| == |multiset(ParseDates(played).value)|;
      }
    }
  }

  /** Only the `Datum` of rows with an `xG` value is parsed: a bad date on an unplayed fixture never raises. */
  lemma ProcessFailsOnlyOnPlayed(rows: seq<RawRow>)
    ensures Transform(KeepPlayed(rows)).Ok? <==>
      forall i :: 0 <= i < |rows| && Played(rows[i]) ==> ParseDatum(rows[i].datum).Ok?
  {
    var kept := KeepPlayed(rows);
    var idx := PlayedPositions(rows);
    KeepPlayedSelects(rows);
    if forall i :: 0 <= i < |rows| && Played(rows[i]) ==> ParseDatum(rows[i].datum).Ok? {
      forall k | 0 <= k < |kept| ensures ParseDatum(kept[k].datum).Ok? {
        assert kept[k] == rows[idx[k]];
      }
    }
    if forall k :: 0 <= k < |kept| ==> ParseDatum(kept[k].datum).Ok? {
      forall i | 0 <= i < |rows| && Played(rows[i]) ensures ParseDatum(rows[i].datum).Ok? {
        var k :| 0 <= k < |idx| && idx[k] == i;
        assert kept[k] == rows[i];
      }
    }
  }

  /** The three series have one entry per row with an `xG` value. */
  lemma ProcessLengths(rows: seq<RawRow>)
    ensures Transform(KeepPlayed(rows)).Ok? ==>
      var s := Transform(KeepPlayed(rows)).value;
      |s.x| == |s.yFor| == |s.yAg| == |PlayedPositions(rows)|
  {
    TransformResult(KeepPlayed(rows));
    KeepPlayedSelects(rows);
  }

  /** A table without any `xG` value gives three empty series, without error. */
  lemma ProcessNoneplayed(rows: seq<RawRow>)
    requires forall i :: 0 <= i < |rows| ==> !Played(rows[i])
    ensures Transform(KeepPlayed(rows)) == Ok(Series([], [], []))
  {
    KeepPlayedNone(rows);
  }

  /**
   * `Y_ag` is computed from `xGA` alone: two tables that differ only in
   * their `xG` values give the same `X` and `Y_ag`.
   */
  lemma AgainstIgnoresFor(a: seq<RawRow>, b: seq<RawRow>)
    requires AllPlayed(a) && AllPlayed(b) && |a| == |b|
    requires forall i :: 0 <= i < |a| ==> a[i].datum == b[i].datum && a[i].xga == b[i].xga
    ensures Transform(a).Ok? <==> Transform(b).Ok?
    ensures Transform(a).Ok? ==> Transform(a).value.x == Transform(b).value.x
    ensures Transform(a).Ok? ==> Transform(a).value.yAg == Transform(b).value.yAg
  {
    if ParseDates(a).Ok? {
      var same := (u: Game, v: Game) => u.stamp == v.stamp && u.xga == v.xga;
      var ga, gb := ParseDates(a).value, ParseDates(b).value;
      assert Matches(ga, gb, same);
      SortByDateMatches(ga, gb, same);
      assert AgainstColumn(SortByDate(ga)) == AgainstColumn(SortByDate(gb));
    }
  }

  /** `Y_for` is computed from `xG` alone: two tables that differ only in their `xGA` values give the same `X` and `Y_for`. */
  lemma ForIgnoresAgainst(a: seq<RawRow>, b: seq<RawRow>)
    requires AllPlayed(a) && AllPlayed(b) && |a| == |b|
    requires forall i :: 0 <= i < |a| ==> a[i].datum == b[i].datum && a[i].xg == b[i].xg
    ensures Transform(a).Ok? <==> Transform(b).Ok?
    ensures Transform(a).Ok? ==> Transform(a).value.x == Transform(b).value.x
    ensures Transform(a).Ok? ==> Transform(a).value.yFor == Transform(b).value.yFor
  {
    if ParseDates(a).Ok? {
      var same := (u: Game, v: Game) => u.stamp == v.stamp && u.xg == v.xg;
      var ga, gb := ParseDates(a).value, ParseDates(b).value;
      assert Matches(ga, gb, same);
      SortByDateMatches(ga, gb, same);
      assert ForColumn(SortByDate(ga)) == ForColumn(SortByDate(gb));
    }
  }

  /**
   * Two played matches in date order and one fixture still to play: the
   * fixture is dropped (its `Datum` is never parsed), the order stays, and
   * the means are (1.5, 0.8) and then (1.75, 1.0).
   */
  lemma TwoMatchesAndAFixture(d0: string, d1: string, d2: string, t0: Date, t1: Date)
    requires ParseDatum(d0) == Ok(At(t0)) && ParseDatum(d1) == Ok(At(t1))
    requires DateLe(t0, t1) && t0 != t1
    ensures Transform(KeepPlayed([
      RawRow(d0, Some(1.5), 0.8),
      RawRow(d1, Some(2.0), 1.2),
      RawRow(d2, None, 0.0)])) == Ok(Series([1, 2], [1.5, 1.75], [0.8, 1.0]))
  {
    var r0 := RawRow(d0, Some(1.5), 0.8);
    var r1 := RawRow(d1, Some(2.0), 1.2);
    var r2 := RawRow(d2, None, 0.0);
    KeepTwoOfThree(r0, r1, r2);
    var g0 := Game(At(t0), 1.5, 0.8);
    var g1 := Game(At(t1), 2.0, 1.2);
    ParseTwo(r0, r1, g0, g1);
    TwoGamesSeries(g0, g1);
    TransformOk([r0, r1], [g0, g1]);
    assert Transform([r0, r1]) == Ok(Series([1, 2], [1.5, 1.75], [0.8, 1.0]));
  }

  lemma KeepTwoOfThree(r0: RawRow, r1: RawRow, r2: RawRow)
    requires Played(r0) && Played(r1) && !Played(r2)
    ensures KeepPlayed([r0, r1, r2]) == [r0, r1]
  {
    KeepPlayedAppend([r0, r1], [r2]);
    KeepPlayedAll([r0, r1]);
    KeepPlayedNone([r2]);
    assert [r0, r1] + [r2] == [r0, r1, r2];
  }

  lemma TransformOk(played: seq<RawRow>, games: seq<Game>)
    requires AllPlayed(played) && ParseDates(played) == Ok(games)
    ensures Transform(played) == Ok(Series(Positions(|games|),
      RollingMean(ForColumn(SortByDate(games))), RollingMean(AgainstColumn(SortByDate(games)))))
  {
  }

  lemma ParseTwo(r0: RawRow, r1: RawRow, g0: Game, g1: Game)
    requires Played(r0) && Played(r1)
    requires ParseDatum(r0.datum) == Ok(g0.stamp) && ParseDatum(r1.datum) == Ok(g1.stamp)
    requires g0.xg == r0.xg.value && g0.xga == r0.xga && g1.xg == r1.xg.value && g1.xga == r1.xga
    ensures ParseDates([r0, r1]) == Ok([g0, g1])
  {
    ParseDatesExact([r0, r1], [g0, g1]);
  }

  lemma TwoGamesSeries(g0: Game, g1: Game)
    requires g0.xg == 1.5 && g0.xga == 0.8 && g1.xg == 2.0 && g1.xga == 1.2
    requires StampLe(g0.stamp, g1.stamp) && g0.stamp != g1.stamp
    ensures SortByDate([g0, g1]) == [g0, g1]
    ensures RollingMean(ForColumn([g0, g1])) == [1.5, 1.75]
    ensures RollingMean(AgainstColumn([g0, g1])) == [0.8, 1.0]
    ensures Positions(2) == [1, 2]
  {
    DistinctTwo(g0, g1);
    SortByDateKeepsSorted([g0, g1]);
    assert ForColumn([g0, g1]) == [1.5, 2.0];
    assert AgainstColumn([g0, g1]) == [0.8, 1.2];
    TwoMeans(1.5, 2.0);
    TwoMeans(0.8, 1.2);
  }

  lemma DistinctTwo(g0: Game, g1: Game)
    requires g0.stamp != g1.stamp
    ensures DistinctDates([g0, g1])
  {
    assert multiset([g0, g1]) == multiset{g0, g1};
  }

  lemma TwoMeans(a: real, b: real)
    ensures RollingMean([a, b]) == [a, (a + b) / 2.0]
  {
    RollingMeanFirst([a, b]);
    RollingMeanPartial([a, b], 1);
    assert [a, b][..2] == [a, b] && [a, b][..1] == [a] && [a][..0] == [];
  }
}
