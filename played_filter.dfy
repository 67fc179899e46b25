/**
 * The first step of `process_team_data`: every row whose `xG` cell is
 * missing is dropped from the table in place, and the kept rows are counted
 * in `games_index`.
 */
module PlayedFilter {
  import opened Wrappers

  /**
   * One row of the fetched table, as far as `process_team_data` reads it:
   * the `Datum` text, the `xG` cell (missing for a fixture not yet played)
   * and the `xGA` cell.
   */
  datatype RawRow = RawRow(datum: string, xg: Option<real>, xga: real)

  /** `pd.notna(row['xG'])`. */
  predicate Played(r: RawRow) {
    r.xg.Some?
  }

  predicate AllPlayed(rows: seq<RawRow>) {
    forall i :: 0 <= i < |rows| ==> Played(rows[i])
  }

  /** The rows with an `xG` value, in table order. */
  function KeepPlayed(rows: seq<RawRow>): (kept: seq<RawRow>)
    ensures |kept| <= |rows|
    ensures AllPlayed(kept)
  {
    if rows == [] then []
    else
      var last := rows[|rows| - 1];
      KeepPlayed(rows[..|rows| - 1]) + (if Played(last) then [last] else [])
  }

  /**
   * The positions of the rows with an `xG` value, ascending: an independent
   * description of which rows the filter keeps.
   */
  function PlayedPositions(rows: seq<RawRow>): (idx: seq<nat>)
    ensures forall k :: 0 <= k < |idx| ==> idx[k] < |rows| && Played(rows[idx[k]])
    ensures forall k, l :: 0 <= k < l < |idx| ==> idx[k] < idx[l]
    ensures forall i :: 0 <= i < |rows| && Played(rows[i]) ==> i in idx
  {
    if rows == [] then []
    else
      var n := |rows| - 1;
      PlayedPositions(rows[..n]) + (if Played(rows[n]) then [n] else [])
  }

  /**
   * The filter keeps exactly the rows at PlayedPositions, in their order:
   * no row with an `xG` value is lost, no row without one survives, and the
   * relative order of the kept rows is that of the table.
   */
  lemma {:induction false} KeepPlayedSelects(rows: seq<RawRow>)
    ensures |KeepPlayed(rows)| == |PlayedPositions(rows)|
    ensures forall k :: 0 <= k < |KeepPlayed(rows)| ==> KeepPlayed(rows)[k] == rows[PlayedPositions(rows)[k]]
  {
    if rows != [] {
      var n := |rows| - 1;
      KeepPlayedSelects(rows[..n]);
    }
  }

  /** A row survives the filter exactly when it occurs in the table with an `xG` value. */
  lemma {:induction false} KeepPlayedMembers(rows: seq<RawRow>, r: RawRow)
    ensures r in KeepPlayed(rows) <==> r in rows && Played(r)
  {
    if rows != [] {
      var n := |rows| - 1;
      KeepPlayedMembers(rows[..n], r);
      assert rows == rows[..n] + [rows[n]];
    }
  }

  /** Filtering a concatenation filters each part: the filter keeps order across any split. */
  lemma {:induction false} KeepPlayedAppend(a: seq<RawRow>, b: seq<RawRow>)
    ensures KeepPlayed(a + b) == KeepPlayed(a) + KeepPlayed(b)
  {
    if b != [] {
      var n := |b| - 1;
      assert (a + b)[..|a + b| - 1] == a + b[..n];
      KeepPlayedAppend(a, b[..n]);
    } else {
      assert a + b == a;
    }
  }

  /** A table whose rows all have `xG` values passes the filter unchanged. */
  lemma {:induction false} KeepPlayedAll(rows: seq<RawRow>)
    requires AllPlayed(rows)
    ensures KeepPlayed(rows) == rows
  {
    if rows != [] {
      var n := |rows| - 1;
      KeepPlayedAll(rows[..n]);
      assert rows == rows[..n] + [rows[n]];
    }
  }

  /** A table with no `xG` value at all filters to nothing. */
  lemma {:induction false} KeepPlayedNone(rows: seq<RawRow>)
    requires forall i :: 0 <= i < |rows| ==> !Played(rows[i])
    ensures KeepPlayed(rows) == []
  {
    if rows != [] {
      KeepPlayedNone(rows[..|rows| - 1]);
    }
  }

  /**
   * One turn of the drop loop keeps its invariant: the table is the filtered
   * part of the rows walked so far followed by the rows not yet walked, and
   * the counter is the number of rows kept so far.
   */
  lemma WalkStep(walked: seq<RawRow>, i: nat, rows: seq<RawRow>, count: nat)
    requires i < |walked|
    requires count == |KeepPlayed(walked[..i])|
    requires rows == KeepPlayed(walked[..i]) + walked[i..]
    ensures Played(walked[i]) ==>
      count + 1 == |KeepPlayed(walked[..i + 1])| && rows == KeepPlayed(walked[..i + 1]) + walked[i + 1..]
    ensures !Played(walked[i]) ==>
      count < |rows| && count == |KeepPlayed(walked[..i + 1])| &&
      rows[..count] + rows[count + 1..] == KeepPlayed(walked[..i + 1]) + walked[i + 1..]
  {
    KeepPlayedStep(walked, i);
    if !Played(walked[i]) {
      DropAfter(KeepPlayed(walked[..i]), walked[i..]);
    } else {
      assert rows == KeepPlayed(walked[..i + 1]) + walked[i + 1..];
    }
  }

  /** Walking one more row extends the filtered prefix by that row, if it has an `xG` value. */
  lemma KeepPlayedStep(walked: seq<RawRow>, i: nat)
    requires i < |walked|
    ensures walked[i..] == [walked[i]] + walked[i + 1..]
    ensures KeepPlayed(walked[..i + 1]) ==
      KeepPlayed(walked[..i]) + (if Played(walked[i]) then [walked[i]] else [])
  {
    assert walked[..i + 1][..i] == walked[..i];
  }

  /** Deleting the row just after `kept` leaves `kept` followed by the rest. */
  lemma DropAfter(kept: seq<RawRow>, rest: seq<RawRow>)
    requires rest != []
    ensures (kept + rest)[..|kept|] + (kept + rest)[|kept| + 1..] == kept + rest[1..]
  {
    assert (kept + rest)[..|kept|] == kept;
    assert (kept + rest)[|kept| + 1..] == rest[1..];
  }

  /**
   * The pandas DataFrame that `process_team_data` receives and mutates.
   * Its index is the 0..n-1 range `get_team_data` gives it, so dropping the
   * row labelled `index` drops the row at that label's current position.
   */
  class MatchTable {
    var rows: seq<RawRow>

    constructor (rows0: seq<RawRow>)
      ensures rows == rows0
    {
      rows := rows0;
    }

    /**
     * The loop of `process_team_data`: walk the rows as they were when the
     * walk started (`iterrows`), count each row with an `xG` value, and
     * drop each row without one from the table in place.
     */
    method DropMissingXg() returns (gamesIndex: nat)
      modifies this
      ensures rows == KeepPlayed(old(rows))
      ensures gamesIndex == |rows| == |PlayedPositions(old(rows))|
    {
      var walked := rows;
      gamesIndex := 0;
      var i := 0;
      while i < |walked|
        invariant 0 <= i <= |walked|
        invariant gamesIndex == |KeepPlayed(walked[..i])|
        invariant rows == KeepPlayed(walked[..i]) + walked[i..]
      {
        WalkStep(walked, i, rows, gamesIndex);
        if Played(walked[i]) {
          gamesIndex := gamesIndex + 1;
        } else {
          rows := rows[..gamesIndex] + rows[gamesIndex + 1..];
        }
        i := i + 1;
      }
      assert walked[..i] == walked;
      KeepPlayedSelects(walked);
    }
  }
}
