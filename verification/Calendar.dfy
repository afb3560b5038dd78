/**
 Calendar arithmetic: add_months clamps the day to the length of the target month, add_years shifts
 by the distance between two first days of March. Python dates run from year 1 to year 9999; outside
 them the constructors raise, which is None here.
 */
module Calendar {
  import opened Arithmetic
  import opened Options

  const MIN_YEAR := 1
  const MAX_YEAR := 9999

  datatype Date = Date(year: int, month: int, day: int)

  predicate Leap(y: int) {
    y % 4 == 0 && (y % 100 != 0 || y % 400 == 0)
  }

  function DaysIn(y: int, m: int): int {
    if m == 2 then (if Leap(y) then 29 else 28)
    else if m == 4 || m == 6 || m == 9 || m == 11 then 30
    else 31
  }

  predicate Valid(d: Date) {
    MIN_YEAR <= d.year <= MAX_YEAR && 1 <= d.month <= 12 && 1 <= d.day <= DaysIn(d.year, d.month)
  }

  function Min(a: int, b: int): int {
    if a <= b then a else b
  }

  function Make(y: int, m: int, d: int): Option<Date> {
    if Valid(Date(y, m, d)) then Some(Date(y, m, d)) else None
  }

  function AddMonths(d: Date, months: int): Option<Date> {
    var month := d.month - 1 + months;
    var y := d.year + month / 12;
    var m := month % 12 + 1;
    Make(y, m, Min(d.day, DaysIn(y, m)))
  }

  // ---------------------------------------------------------------- ordinals

  /** Days before January 1 of a year: a leap day every 4 years, but for centuries, but for every fourth
      century. Day 1 is January 1 of year 1. */
  function BeforeYear(y: int): int {
    365 * (y - 1) + (y - 1) / 4 - (y - 1) / 100 + (y - 1) / 400
  }

  function BeforeMonth(y: int, m: int): int
    requires 1 <= m <= 13
  {
    if m == 1 then 0 else BeforeMonth(y, m - 1) + DaysIn(y, m - 1)
  }

  function Ordinal(d: Date): int
    requires 1 <= d.month <= 12
  {
    BeforeYear(d.year) + BeforeMonth(d.year, d.month) + d.day
  }

  /** Leap days come every d years at the year d divides. */
  lemma EveryYears(y: int, d: nat)
    requires d > 0
    ensures y / d - (y - 1) / d == if y % d == 0 then 1 else 0
  {
    var q, r := y / d, y % d;
    if r > 0 {
      Euclid(y - 1, d, q, r - 1);
    } else {
      assert d * (q - 1) == d * q - d;
      Euclid(y - 1, d, q - 1, d - 1);
    }
  }

  lemma Divides(y: int, d: nat, e: nat)
    requires d > 0 && e > 0 && y % (d * e) == 0
    ensures y % d == 0
  {
    var q := y / (d * e);
    assert y == d * e * q == d * (e * q);
    Euclid(y, d, e * q, 0);
  }

  lemma LeapDays(y: int)
    ensures (if Leap(y) then 1 else 0) == (y / 4 - (y - 1) / 4) - (y / 100 - (y - 1) / 100) + (y / 400 - (y - 1) / 400)
  {
    EveryYears(y, 4);
    EveryYears(y, 100);
    EveryYears(y, 400);
    if y % 100 == 0 {
      Divides(y, 4, 25);
    }
    if y % 400 == 0 {
      Divides(y, 100, 4);
    }
  }

  lemma YearLength(y: int)
    ensures BeforeYear(y + 1) == BeforeYear(y) + (if Leap(y) then 366 else 365)
  {
    LeapDays(y);
  }

  lemma YearOfMonths(y: int)
    ensures BeforeMonth(y, 13) == if Leap(y) then 366 else 365
    ensures BeforeMonth(y, 3) == if Leap(y) then 60 else 59
  {
    assert BeforeMonth(y, 2) == 31;
    assert BeforeMonth(y, 4) == BeforeMonth(y, 3) + 31;
    assert BeforeMonth(y, 5) == BeforeMonth(y, 4) + 30;
    assert BeforeMonth(y, 6) == BeforeMonth(y, 5) + 31;
    assert BeforeMonth(y, 7) == BeforeMonth(y, 6) + 30;
    assert BeforeMonth(y, 8) == BeforeMonth(y, 7) + 31;
    assert BeforeMonth(y, 9) == BeforeMonth(y, 8) + 31;
    assert BeforeMonth(y, 10) == BeforeMonth(y, 9) + 30;
    assert BeforeMonth(y, 11) == BeforeMonth(y, 10) + 31;
    assert BeforeMonth(y, 12) == BeforeMonth(y, 11) + 30;
    assert BeforeMonth(y, 13) == BeforeMonth(y, 12) + 31;
  }

  function YearFrom(n: int, y: int): int
    requires BeforeYear(y) < n
    decreases n - BeforeYear(y)
  {
    YearLength(y);
    if n <= BeforeYear(y + 1) then y else YearFrom(n, y + 1)
  }

  function MonthFrom(n: int, y: int, m: int): (k: int)
    requires 1 <= m <= 12
    ensures m <= k <= 12
    decreases 12 - m, n
  {
    if m == 12 || n <= BeforeMonth(y, m + 1) then m else MonthFrom(n, y, m + 1)
  }

  /** The date on day r of year y. */
  function InYear(y: int, r: int): Option<Date> {
    var m := MonthFrom(r, y, 1);
    Make(y, m, r - BeforeMonth(y, m))
  }

  /** The date with a given ordinal; Python raises outside its range. */
  function FromOrdinal(n: int): Option<Date> {
    if n < 1 then None
    else InYear(YearFrom(n, 1), n - BeforeYear(YearFrom(n, 1)))
  }

  lemma {:induction false} YearsGrow(y: int, z: int)
    requires y <= z
    ensures BeforeYear(y) + 365 * (z - y) <= BeforeYear(z)
    decreases z - y
  {
    if y < z {
      YearsGrow(y, z - 1);
      YearLength(z - 1);
    }
  }

  lemma {:induction false} MonthsGrow(y: int, m: int, k: int)
    requires 1 <= m <= k <= 13
    ensures BeforeMonth(y, m) + 28 * (k - m) <= BeforeMonth(y, k)
    decreases k - m
  {
    if m < k {
      MonthsGrow(y, m, k - 1);
    }
  }

  lemma {:induction false} YearFromIs(n: int, y: int, z: int)
    requires y <= z && BeforeYear(z) < n <= BeforeYear(z + 1)
    requires BeforeYear(y) < n
    ensures YearFrom(n, y) == z
    decreases z - y
  {
    if y < z {
      YearsGrow(y + 1, z);
      YearLength(y);
      YearFromIs(n, y + 1, z);
    }
  }

  lemma {:induction false} MonthFromIs(n: int, y: int, m: int, k: int)
    requires 1 <= m <= k <= 12 && BeforeMonth(y, k) < n <= BeforeMonth(y, k + 1)
    ensures MonthFrom(n, y, m) == k
    decreases k - m
  {
    if m < k {
      MonthsGrow(y, m + 1, k);
      MonthFromIs(n, y, m + 1, k);
    }
  }

  lemma DayOfYear(d: Date)
    requires Valid(d)
    ensures BeforeMonth(d.year, d.month) < BeforeMonth(d.year, d.month) + d.day <= BeforeMonth(d.year, d.month + 1)
    ensures 0 < BeforeMonth(d.year, d.month) + d.day <= (if Leap(d.year) then 366 else 365)
  {
    MonthsGrow(d.year, 1, d.month);
    assert BeforeMonth(d.year, d.month + 1) == BeforeMonth(d.year, d.month) + DaysIn(d.year, d.month);
    MonthsGrow(d.year, d.month + 1, 13);
    YearOfMonths(d.year);
  }

  lemma OrdinalYear(d: Date, n: int)
    requires Valid(d) && n == Ordinal(d)
    ensures n >= 1 && YearFrom(n, 1) == d.year && n - BeforeYear(d.year) == BeforeMonth(d.year, d.month) + d.day
  {
    DayOfYear(d);
    YearLength(d.year);
    YearsGrow(1, d.year);
    YearFromIs(n, 1, d.year);
  }

  lemma InYearIs(d: Date, r: int)
    requires Valid(d) && r == BeforeMonth(d.year, d.month) + d.day
    ensures InYear(d.year, r) == Some(d)
  {
    DayOfYear(d);
    MonthFromIs(r, d.year, 1, d.month);
  }

  lemma FromParts(n: int, y: int, d: Option<Date>)
    requires n >= 1 && YearFrom(n, 1) == y && InYear(y, n - BeforeYear(y)) == d
    ensures FromOrdinal(n) == d
  {
  }

  /** Ordinal loses nothing. */
  lemma OrdinalRoundTrip(d: Date)
    requires Valid(d)
    ensures FromOrdinal(Ordinal(d)) == Some(d)
  {
    var n := Ordinal(d);
    OrdinalYear(d, n);
    InYearIs(d, n - BeforeYear(d.year));
    FromParts(n, d.year, Some(d));
  }

  lemma {:induction false} YearFromFits(n: int, y: int)
    requires BeforeYear(y) < n
    ensures y <= YearFrom(n, y) && BeforeYear(YearFrom(n, y)) < n <= BeforeYear(YearFrom(n, y) + 1)
    decreases n - BeforeYear(y)
  {
    YearLength(y);
    if n > BeforeYear(y + 1) {
      YearFromFits(n, y + 1);
    }
  }

  lemma {:induction false} MonthFromFits(n: int, y: int, m: int)
    requires 1 <= m <= 12 && BeforeMonth(y, m) < n <= BeforeMonth(y, 13)
    ensures m <= MonthFrom(n, y, m) <= 12
    ensures BeforeMonth(y, MonthFrom(n, y, m)) < n <= BeforeMonth(y, MonthFrom(n, y, m) + 1)
    decreases 12 - m
  {
    if m < 12 && n > BeforeMonth(y, m + 1) {
      MonthFromFits(n, y, m + 1);
    }
  }

  lemma InYearFits(y: int, r: int)
    requires MIN_YEAR <= y <= MAX_YEAR && 0 < r <= (if Leap(y) then 366 else 365)
    ensures InYear(y, r).Some? && Valid(InYear(y, r).value)
    ensures InYear(y, r).value.year == y && BeforeMonth(y, InYear(y, r).value.month) + InYear(y, r).value.day == r
  {
    YearOfMonths(y);
    MonthFromFits(r, y, 1);
  }

  lemma YearInRange(n: int)
    requires 1 <= n <= BeforeYear(MAX_YEAR + 1)
    ensures
      var y := YearFrom(n, 1);
      MIN_YEAR <= y <= MAX_YEAR && 0 < n - BeforeYear(y) <= (if Leap(y) then 366 else 365)
  {
    YearFromFits(n, 1);
    var y := YearFrom(n, 1);
    YearLength(y);
    if y > MAX_YEAR {
      YearsGrow(MAX_YEAR + 1, y);
      assert false;
    }
  }

  /** Every day of the Python calendar has a date. */
  lemma FromOrdinalRoundTrip(n: int)
    requires 1 <= n <= BeforeYear(MAX_YEAR + 1)
    ensures FromOrdinal(n).Some? && Valid(FromOrdinal(n).value) && Ordinal(FromOrdinal(n).value) == n
  {
    YearInRange(n);
    InYearFits(YearFrom(n, 1), n - BeforeYear(YearFrom(n, 1)));
  }

  // ---------------------------------------------------------------- add_years

  /** Replace the year; if that is no date, move by the distance between the two March firsts. */
  function AddYears(d: Date, years: int): Option<Date> {
    var same := Make(d.year + years, d.month, d.day);
    if same.Some? then same
    else if !Valid(Date(d.year + years, 3, 1)) || !Valid(Date(d.year, 3, 1)) || !(1 <= d.month <= 12) then None
    else FromOrdinal(Ordinal(d) + (Ordinal(Date(d.year + years, 3, 1)) - Ordinal(Date(d.year, 3, 1))))
  }

  lemma LeapDayMoves(y: int, z: int)
    requires Leap(y) && !Leap(z) && MIN_YEAR <= y <= MAX_YEAR && MIN_YEAR <= z <= MAX_YEAR
    ensures
      FromOrdinal(Ordinal(Date(y, 2, 29)) + (Ordinal(Date(z, 3, 1)) - Ordinal(Date(y, 3, 1)))) == Some(Date(z, 2, 28))
  {
    YearOfMonths(y);
    YearOfMonths(z);
    assert BeforeMonth(z, 2) == 31 && BeforeMonth(y, 2) == 31;
    OrdinalRoundTrip(Date(z, 2, 28));
  }

  /** The two helpers agree for every valid date and every number of years, forwards and backwards,
      also on when they raise. */
  lemma AddYearsIsTwelveMonths(d: Date, years: int)
    requires Valid(d)
    ensures AddYears(d, years) == AddMonths(d, 12 * years)
  {
    var z := d.year + years;
    assert (d.month - 1 + 12 * years) / 12 == years && (d.month - 1 + 12 * years) % 12 == d.month - 1;
    assert AddMonths(d, 12 * years) == Make(z, d.month, Min(d.day, DaysIn(z, d.month)));
    if MIN_YEAR <= z <= MAX_YEAR && d.day > DaysIn(z, d.month) {
      assert d.month == 2 && d.day == 29;
      LeapDayMoves(d.year, z);
    }
  }

  // ---------------------------------------------------------------- months

  /** Months counted from month 0 of year 0. */
  function MonthIndex(d: Date): int {
    12 * d.year + d.month - 1
  }

  /** The length of the month with this index. */
  function Length(i: int): int {
    DaysIn(i / 12, i % 12 + 1)
  }

  /** A result is a valid date in the month asked for, on the same day if the month has one. */
  lemma AddMonthsLands(d: Date, months: int)
    requires Valid(d)
    ensures AddMonths(d, months).Some? <==> 12 * MIN_YEAR <= MonthIndex(d) + months < 12 * (MAX_YEAR + 1)
    ensures
      AddMonths(d, months).Some? ==>
        var r := AddMonths(d, months).value;
        Valid(r) && MonthIndex(r) == MonthIndex(d) + months && r.day == Min(d.day, Length(MonthIndex(d) + months))
  {
    var i := MonthIndex(d) + months;
    assert i / 12 == d.year + (d.month - 1 + months) / 12 && i % 12 == (d.month - 1 + months) % 12;
  }

  lemma SameMonthSameDay(d: Date, e: Date)
    requires Valid(d) && Valid(e) && MonthIndex(d) == MonthIndex(e) && d.day == e.day
    ensures d == e
  {
  }

  /** Two steps make one exactly when the first did not clamp below what the last allows. */
  lemma AddMonthsComposes(d: Date, a: int, b: int)
    requires Valid(d) && AddMonths(d, a).Some? && AddMonths(d, a + b).Some?
    ensures
      AddMonths(AddMonths(d, a).value, b) == AddMonths(d, a + b) <==>
        d.day <= Length(MonthIndex(d) + a) || Length(MonthIndex(d) + a + b) <= Length(MonthIndex(d) + a)
  {
    AddMonthsLands(d, a);
    AddMonthsLands(d, a + b);
    var m := AddMonths(d, a).value;
    AddMonthsLands(m, b);
    if AddMonths(m, b).value.day == AddMonths(d, a + b).value.day {
      SameMonthSameDay(AddMonths(m, b).value, AddMonths(d, a + b).value);
    }
  }

  lemma NextMonthStarts(i: int)
    ensures
      BeforeYear((i + 1) / 12) + BeforeMonth((i + 1) / 12, (i + 1) % 12 + 1)
        == BeforeYear(i / 12) + BeforeMonth(i / 12, i % 12 + 1) + Length(i)
  {
    var y, m := i / 12, i % 12 + 1;
    if m == 12 {
      assert (i + 1) / 12 == y + 1 && (i + 1) % 12 == 0;
      YearLength(y);
      YearOfMonths(y);
      assert BeforeMonth(y, 13) == BeforeMonth(y, 12) + DaysIn(y, 12);
    } else {
      assert (i + 1) / 12 == y && (i + 1) % 12 == m;
    }
  }

  lemma OrdinalByMonth(d: Date)
    requires Valid(d)
    ensures Ordinal(d) ==
      BeforeYear(MonthIndex(d) / 12) + BeforeMonth(MonthIndex(d) / 12, MonthIndex(d) % 12 + 1) + d.day
  {
    assert MonthIndex(d) / 12 == d.year && MonthIndex(d) % 12 == d.month - 1;
  }

  /** One month on is 28 to 31 days on. */
  lemma OneMonthStep(d: Date)
    requires Valid(d) && AddMonths(d, 1).Some?
    ensures 28 <= Ordinal(AddMonths(d, 1).value) - Ordinal(d) <= 31
  {
    AddMonthsLands(d, 1);
    var r := AddMonths(d, 1).value;
    OrdinalByMonth(d);
    OrdinalByMonth(r);
    NextMonthStarts(MonthIndex(d));
    assert d.day <= Length(MonthIndex(d)) by {
      assert MonthIndex(d) / 12 == d.year && MonthIndex(d) % 12 == d.month - 1;
    }
  }

  // ---------------------------------------------------------------- iterating one month at a time

  function Iterate(d: Date, k: nat): Option<Date> {
    if k == 0 then Some(d)
    else
      var r := Iterate(d, k - 1);
      if r.None? then None else AddMonths(r.value, 1)
  }

  /** The shortest of the k months after month i, and of a first bound. */
  function Shortest(bound: int, i: int, k: nat): int {
    if k == 0 then bound else Min(Shortest(bound, i, k - 1), Length(i + k))
  }

  /** Iterating advances one month each time; the day only shrinks, to the shortest month passed. */
  lemma {:induction false} IterateClamps(d: Date, k: nat)
    requires Valid(d)
    ensures Iterate(d, k).Some? <==> MonthIndex(d) + k < 12 * (MAX_YEAR + 1)
    ensures
      Iterate(d, k).Some? ==>
        var r := Iterate(d, k).value;
        Valid(r) && MonthIndex(r) == MonthIndex(d) + k && r.day == Shortest(d.day, MonthIndex(d), k) <= d.day
  {
    if k > 0 {
      IterateClamps(d, k - 1);
      if Iterate(d, k - 1).Some? {
        AddMonthsLands(Iterate(d, k - 1).value, 1);
      }
    } else {
      assert MonthIndex(d) < 12 * (d.year + 1);
    }
  }

  /** Stepping month by month and jumping agree exactly when no month passed was too short for the
      day that the jump lands on. */
  lemma IterateIsJump(d: Date, k: nat)
    requires Valid(d) && Iterate(d, k).Some? && k > 0
    ensures
      Iterate(d, k) == AddMonths(d, k) <==>
        forall j :: 1 <= j <= k ==> Min(d.day, LengthAfter(d, k)) <= LengthAfter(d, j)
  {
    IterateClamps(d, k);
    AddMonthsLands(d, k);
    var i := MonthIndex(d);
    ShortestBelow(d.day, i, k);
    ShortestAtLeast(d, k, Min(d.day, LengthAfter(d, k)));
    if Iterate(d, k).value.day == AddMonths(d, k).value.day {
      SameMonthSameDay(Iterate(d, k).value, AddMonths(d, k).value);
    }
  }

  /** The length of the j-th month after that of d. */
  function LengthAfter(d: Date, j: int): int {
    Length(MonthIndex(d) + j)
  }

  lemma {:induction false} ShortestAtLeast(d: Date, k: nat, c: int)
    ensures c <= Shortest(d.day, MonthIndex(d), k) <==> c <= d.day && forall j :: 1 <= j <= k ==> c <= LengthAfter(d, j)
  {
    if k > 0 {
      ShortestAtLeast(d, k - 1, c);
      assert LengthAfter(d, k) == Length(MonthIndex(d) + k);
    }
  }

  lemma {:induction false} ShortestBelow(bound: int, i: int, k: nat)
    ensures Shortest(bound, i, k) <= bound
    ensures k > 0 ==> Shortest(bound, i, k) <= Length(i + k)
  {
    if k > 0 {
      ShortestBelow(bound, i, k - 1);
    }
  }
}
