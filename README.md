# xG rolling averages: a verified model of `process_team_data`

The repository scrapes a club's match log (two Bundesliga seasons) and draws
two trailing 5-match averages: expected goals for (`xG`) and expected goals
against (`xGA`). Everything between the scraped table and the plot happens in
`process_team_data` (`xg_rolling_plot.py:49-69`). This project models that
function in Dafny and proves what it computes.

The function does four things, and each one is modelled in its own module:

1. **Drop the fixtures that have not been played yet** (`played_filter.dfy`).
   The loop walks the table. It deletes in place every row whose `xG` is
   missing and counts the rows it keeps in `games_index`.
   - `PlayedFilter.MatchTable` is a class whose `rows` field is the table.
     Its method `DropMissingXg` is that loop.
   - The method is proved equal to the functional filter `KeepPlayed`.
   - Lemmas then prove what the filter keeps. It keeps exactly the played
     rows, in their original order, and nothing else.
2. **Parse `Datum` with `%d.%m.%Y` and sort by date** (`dates.dfy`,
   `chronology.dfy`, `Pipeline.ParseDates`).
   - `Dates.ParseDatum` follows the way pandas 2.x parses one text with that
     format:
     - the day accepts `3[01]`, `[12]\d`, `0[1-9]`, `[1-9]` and
       `' '[1-9]`;
     - the month accepts `1[0-2]`, `0[1-9]` and `[1-9]`;
     - the year is exactly four digits;
     - the whole text must match;
     - the day must exist in its month, leap years included;
     - the date must lie inside the nanosecond `Timestamp` range, from
       1677-09-22 to 2262-04-11;
     - the empty text and the `NaT`/`nan` spellings give the missing date
       `NaT`, which sorts last.
   - The sort is modelled as an insertion sort. Its contract promises only
     what `sort_values` promises: the result is ordered by date and is a
     permutation of its input.
3. **Rolling means** (`rolling.dfy`). `RollingMean` uses a window of 5 and a
   minimum of 0 periods. Position `i` is the mean of positions
   `max(0, i-4)..i`.
4. **Positions** `1..n` (`Pipeline.Positions`).

`Pipeline.ProcessTeamData` is the whole function. It mutates the caller's
table through `DropMissingXg`. It then returns `Pipeline.Transform` of what
is left: either the triple `(X, Y_for, Y_ag)` or the parse error that
pandas would raise.

The loop at `xg_rolling_plot.py:52-56` removes every row whose `xG` is
missing, wherever it is, and walks on to the end of the table. It does not
stop at the first unplayed fixture, and neither does the model.

Where pandas versions differ, the model follows pandas 2.x. There the empty
text parses to `NaT`, and dates are checked against the nanosecond
`Timestamp` bounds.

## Model

| member | source | states |
|---|---|---|
| `PlayedFilter.MatchTable.DropMissingXg` | xg_rolling_plot.py:50-56 | the table left behind is exactly the functional filter of the old table; the returned `games_index` equals the number of rows kept, which is the number of input rows with an `xG` value |
| `PlayedFilter.MatchTable.constructor` | xg_rolling_plot.py:49 | the table starts as the rows handed in |
| `PlayedFilter.KeepPlayed` | xg_rolling_plot.py:52-56 | every kept row has an `xG` value, and no more rows come out than went in |
| `PlayedFilter.PlayedPositions` | xg_rolling_plot.py:52-54 | the positions of the played rows: strictly increasing, each one in range and played, and every played position is listed |
| `PlayedFilter.KeepPlayedSelects` | xg_rolling_plot.py:52-56 | the kept rows are exactly the played rows, taken in their original order: the k-th kept row is the row at the k-th played position |
| `PlayedFilter.KeepPlayedMembers` | xg_rolling_plot.py:53-56 | a row survives if and only if it was in the table and has an `xG` value, so a played row is never dropped |
| `PlayedFilter.KeepPlayedAppend` | xg_rolling_plot.py:52-56 | the filter works row by row: filtering two concatenated tables equals concatenating the filtered tables |
| `PlayedFilter.KeepPlayedAll` | xg_rolling_plot.py:53-54 | a table in which every match has been played comes out unchanged |
| `PlayedFilter.KeepPlayedNone` | xg_rolling_plot.py:55-56 | a table with no `xG` value at all comes out empty |
| `Dates.DaysInMonth` | xg_rolling_plot.py:58 | the Gregorian month lengths: 29 days exactly for February of a leap year, 30 exactly for April, June, September and November, 31 exactly for the other seven months, and otherwise (February of a common year) 28 |
| `Dates.StampLeTotalPreorder` | xg_rolling_plot.py:59 | the date order used by the sort is reflexive, total and transitive, and puts `NaT` after every date and no date after `NaT` |
| `Dates.DayField` | xg_rolling_plot.py:58 | `%d` accepts a text exactly when the text spells a day number, and yields that number |
| `Dates.MonthField` | xg_rolling_plot.py:58 | `%m` accepts a text exactly when the text spells a month number, and yields that number |
| `Dates.YearField` | xg_rolling_plot.py:58 | `%Y` accepts exactly four digits and yields their value |
| `Dates.FirstDot` | xg_rolling_plot.py:58 | the fields are split at the first `.`: no dot comes before the returned position |
| `Dates.ParseDatum` | xg_rolling_plot.py:58 | `pd.to_datetime` of one cell: a date it yields is a real calendar day inside the `Timestamp` range; the three rows below characterise its results completely |
| `Dates.ParseSpelled` | xg_rolling_plot.py:58 | a text `DD.MM.YYYY` that spells a valid date parses to exactly that day, month and year |
| `Dates.ParsedIsSpelled` | xg_rolling_plot.py:58 | conversely, a text that parses to a date spells that date with the `%d.%m.%Y` fields, and the date is valid and in range, so any other text is an error |
| `Dates.ParseNaT` | xg_rolling_plot.py:58 | the parse yields the missing date `NaT` exactly for the empty text and the `NaT`/`nan` spellings |
| `Chronology.Insert` | xg_rolling_plot.py:59 | inserting into a date-ordered list keeps it ordered and adds exactly that one game |
| `Chronology.SortByDate` | xg_rolling_plot.py:59 | the sorted table is ordered by date, is a permutation of its input, and so has its length |
| `Chronology.SortByDateKeepsSorted` | xg_rolling_plot.py:59 | a table already in date order, with no two games on the same day, is not rearranged |
| `Chronology.SortByDateIdempotent` | xg_rolling_plot.py:59 | with no two games on the same day, sorting twice is the same as sorting once |
| `Chronology.SortByDateMatches` | xg_rolling_plot.py:59 | the arrangement depends only on the dates: two tables whose games agree position by position on their dates are arranged the same way |
| `Rolling.WindowAt` | xg_rolling_plot.py:62-63 | the window at position `i` holds `min(i+1, 5)` entries, and they are exactly the values at the positions just up to and including `i`, in order |
| `Rolling.RollingMean` | xg_rolling_plot.py:62-63 | one mean per input position |
| `Rolling.RollingMeanFirst` | xg_rolling_plot.py:62-63 | the first mean is the first value itself |
| `Rolling.RollingMeanFull` | xg_rolling_plot.py:62-63 | from position 4 on, the mean is the sum of the last five values divided by 5 |
| `Rolling.RollingMeanPartial` | xg_rolling_plot.py:62-63 | before position 4, the mean is taken over all the values so far (`min_periods=0`) |
| `Rolling.RollingSumStep` | xg_rolling_plot.py:62-63 | the window sum moves by adding the new value and, once the window is full, subtracting the value that leaves it |
| `Rolling.RollingMeanWithin` | xg_rolling_plot.py:62-63 | each mean lies between the smallest and the largest value in its window |
| `Rolling.MeanWithin` | xg_rolling_plot.py:62-63 | the mean of any non-empty window lies between its minimum and maximum |
| `Rolling.SumBetween` | xg_rolling_plot.py:62-63 | a window whose values lie between `lo` and `hi` has a sum between `n*lo` and `n*hi` |
| `Rolling.MinOf` | xg_rolling_plot.py:62-63 | the smallest value of a window is one of its entries and is at most every entry |
| `Rolling.MaxOf` | xg_rolling_plot.py:62-63 | the largest value of a window is one of its entries and is at least every entry |
| `Rolling.RollingMeanConstant` | xg_rolling_plot.py:62-63 | a constant series is its own rolling mean |
| `Rolling.RollingMeanPrefix` | xg_rolling_plot.py:62-63 | the means are trailing: appending later matches does not change earlier means |
| `Pipeline.ParseDates` | xg_rolling_plot.py:58 | the column parses if and only if every `Datum` parses; each game then carries its row's parsed date, `xG` and `xGA`, in table order |
| `Pipeline.ParseDatesFirstError` | xg_rolling_plot.py:58 | the error raised is the one for the first row whose `Datum` does not parse |
| `Pipeline.ParseDatesExact` | xg_rolling_plot.py:58 | the parse is determined row by row: rows that each parse to a given game give exactly those games |
| `Pipeline.Positions` | xg_rolling_plot.py:66 | `X` has length `n`, and its entry at position `i` is `i + 1` |
| `Pipeline.ProcessTeamData` | xg_rolling_plot.py:49-69 | the caller's table is left holding exactly the played rows, and the result is the transform of that table |
| `Pipeline.Transform` | xg_rolling_plot.py:58-66 | lines 58-66 on the table the loop leaves: it fails exactly when the `Datum` column fails to parse, and otherwise `X`, `Y_for` and `Y_ag` have one entry per row |
| `Pipeline.TransformResult` | xg_rolling_plot.py:58-66 | the transform fails exactly when some `Datum` does not parse; otherwise `X`, `Y_for` and `Y_ag` all have one entry per row, `X` is `1..n`, and the two series are the rolling means of the `xG` and `xGA` columns of a date-ordered permutation of the parsed games |
| `Pipeline.ProcessFailsOnlyOnPlayed` | xg_rolling_plot.py:52-58 | only played rows are parsed: the function raises exactly when some row with an `xG` value has a bad `Datum` |
| `Pipeline.ProcessLengths` | xg_rolling_plot.py:50-66 | `X`, `Y_for` and `Y_ag` each have as many entries as the table has rows with an `xG` value |
| `Pipeline.ProcessNoneplayed` | xg_rolling_plot.py:52-66 | a table without any `xG` value gives three empty series and no error |
| `Pipeline.AgainstIgnoresFor` | xg_rolling_plot.py:63 | `Y_ag` depends on `xGA` and the dates only: tables that differ only in `xG` give the same `X` and `Y_ag` |
| `Pipeline.ForIgnoresAgainst` | xg_rolling_plot.py:62 | `Y_for` depends on `xG` and the dates only: tables that differ only in `xGA` give the same `X` and `Y_for` |
| `Pipeline.TwoMatchesAndAFixture` | xg_rolling_plot.py:49-69 | two played matches on distinct dates plus one unplayed fixture give `X = [1, 2]`, `Y_for = [1.5, 1.75]` and `Y_ag = [0.8, 1.0]`, whatever the fixture's date text |
| `Pipeline.TwoMeans` | xg_rolling_plot.py:62-63 | the rolling means of two values are the first value, then their average |

## Left out

- `get_team_data`, `create_team_plot`, the driver loop and `teams_info`
  (`xg_rolling_plot.py:11-46`, `72-138`) are network reads, JSON writes and
  plotting. They are not part of this model.
- `get_team_xg_from_fbref.py` is a network fetch, a clock read and a file
  write. It is not part of this model.
- Values are modelled as exact `real`s, not IEEE doubles. Rounding in the
  sums and divisions is not modelled.
- `xG` is missing (`None`) or present. pandas' other NaN-like values are not
  distinguished.
- `xGA` is assumed present on every played row. pandas would skip a NaN
  `xGA` inside a rolling window; the model does not.
- `Dates.DayField` accepts only the ASCII digits `0`-`9` after a leading
  `1` or `2`. The `\d` in the regular expression behind `%d` also accepts
  other Unicode decimal digits there.
- `Dates.YearField` accepts only the ASCII digits `0`-`9`. The `\d\d\d\d`
  behind `%Y` also accepts other Unicode decimal digits.
- `Chronology.SortByDate` breaks ties between games of the same day by a
  fixed, stable order. pandas' default sort leaves that order unspecified.
  `Chronology.SortByDateKeepsSorted` and `Chronology.SortByDateIdempotent`
  are therefore stated only for tables with no two games on the same day.
  Games without a date go last, in table order, both in the model and in
  pandas.
- The relabelling `df.index = df.index + 1` (`xg_rolling_plot.py:60`) is
  left out. The rolling means and `X` work by position, so it does not
  change the result.
- The parsed `Datum` column is not written back into the caller's table.
  Line 58 assigns it there, but the model's table keeps `Datum` as text.
- `PlayedFilter.MatchTable.DropMissingXg` deletes by position. The source
  deletes by index label. The table comes from `reset_index(drop=True)`
  (`xg_rolling_plot.py:36`), so labels and positions coincide.
- The log message printed at `xg_rolling_plot.py:68` is left out.
