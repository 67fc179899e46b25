/**
 * The `Datum` column: parsing "DD.MM.YYYY" with the strptime pattern
 * `%d.%m.%Y`, as `pd.to_datetime(x, format='%d.%m.%Y')` does it, and the
 * chronological order that `sort_values(by="Datum")` sorts by.
 */
module Dates {
  import opened Wrappers

  /** A calendar day (the time of day is always midnight here). */
  datatype Date = Date(year: int, month: int, day: int)

  /** A parsed `Datum` cell: a day, or pandas' missing-time marker NaT. */
  datatype Stamp = At(date: Date) | NaT

  /** Why `to_datetime` raised. Each case carries the offending text. */
  datatype DateError =
    | Unmatched(text: string)      // the text does not match `%d.%m.%Y` in full
    | DayOutOfRange(text: string)  // it matches, but that month has no such day
    | OutOfBounds(text: string)    // the day lies outside the nanosecond Timestamp range

  // ---------------------------------------------------------------------
  // Calendar

  predicate IsLeapYear(y: int) {
    y % 4 == 0 && (y % 100 != 0 || y % 400 == 0)
  }

  /** Number of days in month `m` of the proleptic Gregorian year `y`. */
  function DaysInMonth(y: int, m: int): (n: int)
    requires 1 <= m <= 12
    ensures 28 <= n <= 31
    ensures n == 29 <==> m == 2 && IsLeapYear(y)
    ensures n == 30 <==> m == 4 || m == 6 || m == 9 || m == 11
    ensures n == 31 <==> m == 1 || m == 3 || m == 5 || m == 7 || m == 8 || m == 10 || m == 12
  {
    if m == 2 then (if IsLeapYear(y) then 29 else 28)
    else if m == 4 || m == 6 || m == 9 || m == 11 then 30
    else 31
  }

  /** Chronological order of days: year, then month, then day. */
  predicate DateLe(a: Date, b: Date) {
    a.year < b.year ||
    (a.year == b.year && (a.month < b.month || (a.month == b.month && a.day <= b.day)))
  }

  /** The order `sort_values` uses: days chronologically, NaT after every day. */
  predicate StampLe(a: Stamp, b: Stamp) {
    b.NaT? || (a.At? && DateLe(a.date, b.date))
  }

  lemma StampLeTotalPreorder(a: Stamp, b: Stamp, c: Stamp)
    ensures StampLe(a, a)
    ensures StampLe(a, NaT) && (a.At? ==> !StampLe(NaT, a))
    ensures StampLe(a, b) || StampLe(b, a)
    ensures StampLe(a, b) && StampLe(b, c) ==> StampLe(a, c)
  {
  }

  /** The first midnight a nanosecond Timestamp can hold (Timestamp.min is 1677-09-21 00:12:43.145224193). */
  const MinDate := Date(1677, 9, 22)
  /** The last midnight a nanosecond Timestamp can hold (Timestamp.max is 2262-04-11 23:47:16.854775807). */
  const MaxDate := Date(2262, 4, 11)

  predicate InTimestampRange(d: Date) {
    DateLe(MinDate, d) && DateLe(d, MaxDate)
  }

  /** A day that exists in the calendar and fits in a Timestamp. */
  predicate ValidDate(d: Date) {
    1 <= d.month <= 12 && 1 <= d.day <= DaysInMonth(d.year, d.month) && InTimestampRange(d)
  }

  // ---------------------------------------------------------------------
  // The three fields of `%d.%m.%Y`, as strptime's regular expression reads them

  predicate IsDigit(c: char) { '0' <= c <= '9' }
  predicate IsNonZeroDigit(c: char) { '1' <= c <= '9' }

  function DigitValue(c: char): (n: nat)
    requires IsDigit(c)
    ensures n <= 9
  {
    (c as int) - ('0' as int)
  }

  /** The ways a writer may spell day `n`: two digits, one digit, or a space and one digit. */
  predicate SpellsDay(t: string, n: int) {
    1 <= n <= 31 &&
    ((|t| == 2 && IsDigit(t[0]) && IsDigit(t[1]) && 10 * DigitValue(t[0]) + DigitValue(t[1]) == n) ||
     (|t| == 1 && IsDigit(t[0]) && DigitValue(t[0]) == n) ||
     (|t| == 2 && t[0] == ' ' && IsDigit(t[1]) && DigitValue(t[1]) == n))
  }

  /** The ways a writer may spell month `n`: two digits or one digit. */
  predicate SpellsMonth(t: string, n: int) {
    1 <= n <= 12 &&
    ((|t| == 2 && IsDigit(t[0]) && IsDigit(t[1]) && 10 * DigitValue(t[0]) + DigitValue(t[1]) == n) ||
     (|t| == 1 && IsDigit(t[0]) && DigitValue(t[0]) == n))
  }

  /** Year `n` written with exactly four digits. */
  predicate SpellsYear(t: string, n: int) {
    |t| == 4 && IsDigit(t[0]) && IsDigit(t[1]) && IsDigit(t[2]) && IsDigit(t[3]) &&
    1000 * DigitValue(t[0]) + 100 * DigitValue(t[1]) + 10 * DigitValue(t[2]) + DigitValue(t[3]) == n
  }

  /** `%d`: the alternatives 3[01] | [12]\d | 0[1-9] | [1-9] | ' '[1-9], tried in this order. */
  function DayField(t: string): (r: Option<int>)
    ensures r.Some? ==> SpellsDay(t, r.value)
    ensures forall n :: SpellsDay(t, n) ==> r == Some(n)
  {
    if |t| == 2 && t[0] == '3' && (t[1] == '0' || t[1] == '1') then Some(30 + DigitValue(t[1]))
    else if |t| == 2 && (t[0] == '1' || t[0] == '2') && IsDigit(t[1]) then Some(10 * DigitValue(t[0]) + DigitValue(t[1]))
    else if |t| == 2 && t[0] == '0' && IsNonZeroDigit(t[1]) then Some(DigitValue(t[1]))
    else if |t| == 1 && IsNonZeroDigit(t[0]) then Some(DigitValue(t[0]))
    else if |t| == 2 && t[0] == ' ' && IsNonZeroDigit(t[1]) then Some(DigitValue(t[1]))
    else None
  }

  /** `%m`: the alternatives 1[0-2] | 0[1-9] | [1-9], tried in this order. */
  function MonthField(t: string): (r: Option<int>)
    ensures r.Some? ==> SpellsMonth(t, r.value)
    ensures forall n :: SpellsMonth(t, n) ==> r == Some(n)
  {
    if |t| == 2 && t[0] == '1' && '0' <= t[1] <= '2' then Some(10 + DigitValue(t[1]))
    else if |t| == 2 && t[0] == '0' && IsNonZeroDigit(t[1]) then Some(DigitValue(t[1]))
    else if |t| == 1 && IsNonZeroDigit(t[0]) then Some(DigitValue(t[0]))
    else None
  }

  /** `%Y`: exactly four digits. */
  function YearField(t: string): (r: Option<int>)
    ensures r.Some? ==> SpellsYear(t, r.value)
    ensures forall n :: SpellsYear(t, n) ==> r == Some(n)
  {
    if |t| == 4 && IsDigit(t[0]) && IsDigit(t[1]) && IsDigit(t[2]) && IsDigit(t[3]) then
      Some(1000 * DigitValue(t[0]) + 100 * DigitValue(t[1]) + 10 * DigitValue(t[2]) + DigitValue(t[3]))
    else None
  }

  /** Position of the first '.' in `s`, or |s| when there is none. */
  function FirstDot(s: string): (k: nat)
    ensures k <= |s|
    ensures k < |s| ==> s[k] == '.'
    ensures forall j :: 0 <= j < k ==> s[j] != '.'
  {
    if s == [] || s[0] == '.' then 0 else 1 + FirstDot(s[1..])
  }

  /** The strings pandas reads as a missing time rather than parsing them. */
  const NatStrings: set<string> := {"NaT", "nat", "NAT", "nan", "NaN", "NAN"}

  /**
   * `pd.to_datetime(s, format='%d.%m.%Y')` for one string cell. Neither field
   * of `%d` or `%m` contains a '.', so the regular expression splits `s` at
   * its first two dots; the year must then fill the rest of `s` exactly.
   */
  function ParseDatum(s: string): (r: Result<Stamp, DateError>)
    ensures r.Ok? && r.value.At? ==> ValidDate(r.value.date)
  {
    if s == "" || s in NatStrings then Ok(NaT)
    else
      var p := FirstDot(s);
      if p == |s| then Err(Unmatched(s))
      else
        var rest := s[p + 1..];
        var q := FirstDot(rest);
        if q == |rest| then Err(Unmatched(s))
        else
          match (DayField(s[..p]), MonthField(rest[..q]), YearField(rest[q + 1..]))
          case (Some(d), Some(m), Some(y)) =>
            if d > DaysInMonth(y, m) then Err(DayOutOfRange(s))
            else if !InTimestampRange(Date(y, m, d)) then Err(OutOfBounds(s))
            else Ok(At(Date(y, m, d)))
          case _ => Err(Unmatched(s))
  }

  // ---------------------------------------------------------------------
  // What ParseDatum accepts, stated against the spellings above

  /** The first dot of `a + "." + b` is the one after `a` when `a` has none. */
  lemma FirstDotAfter(a: string, b: string)
    requires '.' !in a
    ensures FirstDot(a + "." + b) == |a|
  {
    var s := a + "." + b;
    assert s[|a|] == '.';
    assert forall j :: 0 <= j < |a| ==> s[j] == a[j];
  }

  /** No string pandas reads as NaT contains a dot. */
  lemma NatStringsHaveNoDot(s: string)
    requires '.' in s
    ensures s !in NatStrings
  {
  }

  /** ParseDatum once the two dots and the three fields are known. */
  lemma ParseAtDots(s: string, p: nat, q: nat, d: Date)
    requires s != "" && s !in NatStrings
    requires FirstDot(s) == p < |s|
    requires FirstDot(s[p + 1..]) == q < |s[p + 1..]|
    requires DayField(s[..p]) == Some(d.day)
    requires MonthField(s[p + 1..][..q]) == Some(d.month)
    requires YearField(s[p + 1..][q + 1..]) == Some(d.year)
    requires ValidDate(d)
    ensures ParseDatum(s) == Ok(At(d))
  {
  }

  /** `dd.mm.yyyy` splits back into its three parts at its first two dots. */
  lemma SplitAtDots(dd: string, mm: string, yyyy: string)
    requires '.' !in dd && '.' !in mm
    ensures var s := dd + "." + mm + "." + yyyy;
      && s != "" && s !in NatStrings
      && FirstDot(s) == |dd| < |s| && s[..|dd|] == dd
      && FirstDot(s[|dd| + 1..]) == |mm| < |s[|dd| + 1..]|
      && s[|dd| + 1..][..|mm|] == mm && s[|dd| + 1..][|mm| + 1..] == yyyy
  {
    var rest := mm + "." + yyyy;
    var s := dd + "." + rest;
    assert s == dd + "." + mm + "." + yyyy;
    FirstDotAfter(dd, rest);
    FirstDotAfter(mm, yyyy);
    assert s[|dd|] == '.';
    NatStringsHaveNoDot(s);
    assert s[..|dd|] == dd;
    assert s[|dd| + 1..] == rest;
    assert rest[..|mm|] == mm;
    assert rest[|mm| + 1..] == yyyy;
  }

  /** Each spelled field reads back as its value, and neither day nor month holds a dot. */
  lemma SpelledFields(dd: string, mm: string, yyyy: string, d: Date)
    requires SpellsDay(dd, d.day) && SpellsMonth(mm, d.month) && SpellsYear(yyyy, d.year)
    ensures '.' !in dd && '.' !in mm
    ensures DayField(dd) == Some(d.day) && MonthField(mm) == Some(d.month) && YearField(yyyy) == Some(d.year)
  {
    assert forall j :: 0 <= j < |dd| ==> dd[j] == ' ' || IsDigit(dd[j]);
    assert forall j :: 0 <= j < |mm| ==> IsDigit(mm[j]);
  }

  /** Every spelling of a valid day parses to that day. */
  lemma ParseSpelled(dd: string, mm: string, yyyy: string, d: Date)
    requires SpellsDay(dd, d.day) && SpellsMonth(mm, d.month) && SpellsYear(yyyy, d.year)
    requires ValidDate(d)
    ensures ParseDatum(dd + "." + mm + "." + yyyy) == Ok(At(d))
  {
    SpelledFields(dd, mm, yyyy, d);
    SplitAtDots(dd, mm, yyyy);
    ParseAtDots(dd + "." + mm + "." + yyyy, |dd|, |mm|, d);
  }

  /** Whatever parses to a day is a spelling of a valid day, split at two dots. */
  lemma ParsedIsSpelled(s: string, d: Date)
    requires ParseDatum(s) == Ok(At(d))
    ensures ValidDate(d)
    ensures exists p, q ::
      && 0 <= p < q < |s| && s[p] == '.' && s[q] == '.'
      && SpellsDay(s[..p], d.day) && SpellsMonth(s[p + 1..q], d.month) && SpellsYear(s[q + 1..], d.year)
  {
    assert s != "" && s !in NatStrings;
    var p := FirstDot(s);
    assert p < |s|;
    var rest := s[p + 1..];
    var q := FirstDot(rest);
    assert q < |rest|;
    assert rest[..q] == s[p + 1..p + 1 + q];
    assert rest[q + 1..] == s[p + 1 + q + 1..];
    assert s[p + 1 + q] == rest[q];
  }

  /** Only the empty string and pandas' NaT spellings become NaT; they never raise. */
  lemma ParseNaT(s: string)
    ensures ParseDatum(s) == Ok(NaT) <==> s == "" || s in NatStrings
  {
  }
}
