/** Calendar days as integers: day 0 is 1970-01-01, a Thursday. A `datetime`
    at midnight UTC is its day number; `+ timedelta(days=1)` is `+ 1`. */
module Calendar {

  /** `datetime.weekday()`: Monday is 0 and Sunday is 6. Dafny's `%` is
      Euclidean, so days before 1970 need no special case. */
  function Weekday(day: int): (w: int)
    ensures 0 <= w < 7
  {
    (day + 3) % 7
  }

  /** The weekday advances by one each day, wrapping from Sunday to Monday. */
  lemma WeekdayNext(day: int)
    ensures Weekday(day + 1) == (Weekday(day) + 1) % 7
    ensures Weekday(day) == 6 ==> Weekday(day + 1) == 0
  {
  }

  /** Proleptic Gregorian leap years: every fourth year, except centuries
      not divisible by 400. */
  predicate LeapYear(y: int) {
    y % 4 == 0 && (y % 100 != 0 || y % 400 == 0)
  }

  function DaysInMonth(y: int, m: int): int
    requires 1 <= m <= 12
  {
    if m == 2 then (if LeapYear(y) then 29 else 28)
    else if m == 4 || m == 6 || m == 9 || m == 11 then 30
    else 31
  }

  /** A valid proleptic Gregorian date. */
  predicate ValidDate(y: int, m: int, d: int) {
    1 <= m <= 12 && 1 <= d <= DaysInMonth(y, m)
  }

  /** Days from 1970-01-01 to the proleptic Gregorian date y-m-d. The year
      is counted from March, so that a leap day ends its year. */
  function DayNumber(y: int, m: int, d: int): int
    requires ValidDate(y, m, d)
  {
    var y' := if m <= 2 then y - 1 else y;
    YearStart(y') + DaysSinceMarch(m) + d - 1
  }

  /** Days from 1 March to the first of month `m` in a March-based year. */
  function DaysSinceMarch(m: int): int {
    match m
    case 3 => 0
    case 4 => 31
    case 5 => 61
    case 6 => 92
    case 7 => 122
    case 8 => 153
    case 9 => 184
    case 10 => 214
    case 11 => 245
    case 12 => 275
    case 1 => 306
    case _ => 337
  }

  /** Day number of 1 March of year `p`: whole eras of 400 years (146097
      days each), then 365 days per year of the era plus its leap days.
      Dafny's `/` rounds down for a positive divisor, so years before 0 need
      no correction. */
  function YearStart(p: int): int {
    var era := p / 400;
    var yoe := p - era * 400;
    era * 146097 + yoe * 365 + yoe / 4 - yoe / 100 - 719468
  }

  /** The date after y-m-d. */
  function NextDate(y: int, m: int, d: int): (r: (int, int, int))
    requires ValidDate(y, m, d)
    ensures ValidDate(r.0, r.1, r.2)
  {
    if d < DaysInMonth(y, m) then (y, m, d + 1)
    else if m < 12 then (y, m + 1, 1)
    else (y + 1, 1, 1)
  }

  /** Consecutive dates have consecutive day numbers: `+ timedelta(days=1)`
      is `+ 1` on day numbers, for every valid date. */
  lemma DayNumberNext(y: int, m: int, d: int)
    requires ValidDate(y, m, d)
    ensures var (y2, m2, d2) := NextDate(y, m, d);
      DayNumber(y2, m2, d2) == DayNumber(y, m, d) + 1
  {
    if d == DaysInMonth(y, m) && m == 2 {
      YearStartNext(y - 1);
    }
  }

  /** The March-based year `p` ends with the February of year `p + 1`, so it
      has 366 days when that February is a leap one, else 365. */
  lemma YearStartNext(p: int)
    ensures YearStart(p + 1) == YearStart(p) + (if LeapYear(p + 1) then 366 else 365)
  {
    var era := p / 400;
    var yoe := p - era * 400;
    var q := yoe + 1;
    assert p + 1 == era * 400 + q;
    ShiftedRemainders(era, q, p + 1);
    if yoe < 399 {
      assert (p + 1) / 400 == era;
      DivStep4(q);
      DivStep100(q);
    } else {
      assert (p + 1) / 400 == era + 1;
    }
  }

  /** Adding whole eras keeps the remainders that decide leap years. */
  lemma ShiftedRemainders(era: int, q: int, y: int)
    requires y == era * 400 + q
    ensures y % 4 == q % 4 && y % 100 == q % 100 && y % 400 == q % 400
  {
    SameRemainder(y, q, era * 100, 4);
    SameRemainder(y, q, era * 4, 100);
    SameRemainder(y, q, era, 400);
  }

  lemma SameRemainder(a: int, b: int, t: int, n: int)
    requires 0 < n && a == b + n * t
    ensures a % n == b % n
  {
    var k := a / n - b / n - t;
    assert n * k == b % n - a % n;
  }

  lemma DivStep4(q: int)
    requires 1 <= q
    ensures q / 4 - (q - 1) / 4 == if q % 4 == 0 then 1 else 0
  {
  }

  lemma DivStep100(q: int)
    requires 1 <= q
    ensures q / 100 - (q - 1) / 100 == if q % 100 == 0 then 1 else 0
  {
  }

  /** Calendar anchors: the epoch is a Thursday, and the dates the generator
      is exercised with. */
  lemma KnownDays()
    ensures DayNumber(1970, 1, 1) == 0 && Weekday(0) == 3
    ensures DayNumber(2025, 1, 6) == 20094 && Weekday(20094) == 0
    ensures DayNumber(2025, 1, 11) == 20099 && Weekday(20099) == 5
    ensures DayNumber(2025, 1, 12) == 20100 && Weekday(20100) == 6
  {
  }
}
