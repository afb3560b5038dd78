/**
 Schedule.calculate_next_run: the next instant of a recurring schedule, corrected so that daylight
 saving does not move it on the local clock. Instants are microseconds in UTC, counted so that day n
 of the calendar starts at n * DAY; the time zone is any function from instants to offsets.
 */
module NextRun {
  import opened Arithmetic
  import opened Options
  import opened Calendar
  import opened Orbits

  const MINUTE := 60_000_000
  const HOUR := 60 * MINUTE
  const DAY := 24 * HOUR

  datatype Kind = Once | Minutes | Hourly | Daily | Weekly | Biweekly | Monthly | Bimonthly | Quarterly | Yearly | Cron

  type Zone = int -> int

  const LAST_ORDINAL := 3652059

  /** Instants that a datetime can hold. */
  predicate Representable(t: int) {
    DAY <= t < (LAST_ORDINAL + 1) * DAY
  }

  lemma LastOrdinal()
    ensures BeforeYear(MAX_YEAR + 1) == LAST_ORDINAL
  {
  }

  function DateOf(t: int): Date
    requires Representable(t)
  {
    var d := FromOrdinal(t / DAY);
    if d.Some? then d.value else Date(1, 1, 1)
  }

  lemma DateOfIsValid(t: int)
    requires Representable(t)
    ensures Valid(DateOf(t)) && Ordinal(DateOf(t)) == t / DAY
  {
    LastOrdinal();
    FromOrdinalRoundTrip(t / DAY);
  }

  /** (later - d).days as a time delta; None where the helper raised. */
  function DaysTo(d: Date, later: Option<Date>): Option<int>
    requires 1 <= d.month <= 12
  {
    if later.Some? && 1 <= later.value.month <= 12 then Some((Ordinal(later.value) - Ordinal(d)) * DAY) else None
  }

  /** The uncorrected step. ONCE has none: the source never binds it. */
  function Add(kind: Kind, minutes: nat, t: int): Option<int>
    requires Representable(t)
  {
    match kind
    case Minutes => Some((if minutes == 0 then 1 else minutes) * MINUTE)
    case Hourly => Some(HOUR)
    case Daily => Some(DAY)
    case Weekly => Some(7 * DAY)
    case Biweekly => Some(14 * DAY)
    case Yearly => DateOfIsValid(t); DaysTo(DateOf(t), AddYears(DateOf(t), 1))
    case Once => None
    case Cron => None
    case Monthly => DateOfIsValid(t); DaysTo(DateOf(t), AddMonths(DateOf(t), 1))
    case Bimonthly => DateOfIsValid(t); DaysTo(DateOf(t), AddMonths(DateOf(t), 2))
    case Quarterly => DateOfIsValid(t); DaysTo(DateOf(t), AddMonths(DateOf(t), 3))
  }

  /** Types whose step is not corrected for daylight saving. */
  predicate Uncorrected(kind: Kind) {
    kind.Minutes? || kind.Hourly? || kind.Yearly?
  }

  function Local(zone: Zone, t: int): int {
    t + zone(t)
  }

  /** How much more the local clock moved than the step. */
  function ExtraDiff(zone: Zone, t: int, add: int): int {
    Local(zone, t + add) - Local(zone, t) - add
  }

  /** The step corrected by the extra movement of the local clock. */
  function Corrected(zone: Zone, t: int, add: int): Option<int> {
    if !Representable(Local(zone, t)) || !Representable(Local(zone, t + add)) then None
    else
      var v := t + add - ExtraDiff(zone, t, add);
      if Representable(v) then Some(v) else None
  }

  /** The run so much later, corrected if the type is. */
  function After(kind: Kind, zone: Zone, t: int, add: Option<int>): Option<int> {
    if add.None? || !Representable(t + add.value) then None
    else if Uncorrected(kind) then Some(t + add.value)
    else Corrected(zone, t, add.value)
  }

  /** calculate_next_run for every recurring type but CRON; None where Python raises. */
  function NextRun(kind: Kind, minutes: nat, zone: Zone, t: int): Option<int> {
    if !Representable(t) then None else After(kind, zone, t, Add(kind, minutes, t))
  }

  // ---------------------------------------------------------------- local clocks

  lemma CorrectedKeeps(zone: Zone, t: int, add: int)
    requires Corrected(zone, t, add).Some?
    ensures
      var v := Corrected(zone, t, add).value;
      Local(zone, v) == Local(zone, t) + add <==> zone(v) == zone(t + add)
  {
  }

  /** A corrected step keeps local wall-clock time exactly when the correction did not itself cross a
      change of offset. */
  lemma KeepsWallClock(kind: Kind, minutes: nat, zone: Zone, t: int)
    requires !Uncorrected(kind) && NextRun(kind, minutes, zone, t).Some?
    ensures
      var v, add := NextRun(kind, minutes, zone, t).value, Add(kind, minutes, t).value;
      Local(zone, v) == Local(zone, t) + add <==> zone(v) == zone(t + add)
  {
    CorrectedKeeps(zone, t, Add(kind, minutes, t).value);
  }

  /** Clocks go forward one hour at noon of day 1000. */
  function SpringForward(t: int): int {
    if t < 1000 * DAY + 12 * HOUR then 0 else HOUR
  }

  /** A daily run due in the hour that does not exist comes an hour early on the local clock. */
  lemma GapMovesWallClock()
    ensures
      var t := 999 * DAY + 12 * HOUR + 30 * MINUTE;
      var r := NextRun(Daily, 0, SpringForward, t);
      r.Some? && Local(SpringForward, r.value) == Local(SpringForward, t) + DAY - HOUR
  {
  }

  // ---------------------------------------------------------------- what each type does, in its own terms

  /** Every so many minutes, at least one, and hourly: so much later in absolute time, whatever the offsets. */
  lemma ClockTypes(kind: Kind, minutes: nat, zone: Zone, t: int)
    requires kind == Minutes || kind == Hourly
    ensures
      var seconds := if kind == Hourly then 3600 else if minutes == 0 then 60 else 60 * minutes;
      var later := t + 1_000_000 * seconds;
      NextRun(kind, minutes, zone, t) == if Representable(t) && Representable(later) then Some(later) else None
  {
  }

  /** Daily, weekly and biweekly: 1, 7 or 14 days later, less what the offset has gained. */
  lemma DayTypes(kind: Kind, minutes: nat, zone: Zone, t: int)
    requires kind == Daily || kind == Weekly || kind == Biweekly
    ensures
      var days := if kind == Daily then 1 else if kind == Weekly then 7 else 14;
      var later := t + 1_000_000 * 86_400 * days;
      var v := later - (zone(later) - zone(t));
      NextRun(kind, minutes, zone, t) ==
        if Representable(t) && Representable(later) && Representable(t + zone(t)) &&
           Representable(later + zone(later)) && Representable(v)
        then Some(v) else None
  {
  }

  /** How many months on a calendar type goes. */
  function MonthsOn(kind: Kind): nat {
    match kind
    case Monthly => 1
    case Bimonthly => 2
    case Quarterly => 3
    case Yearly => 12
    case _ => 0
  }

  /** The date is so many months after the other, its day that of the other or the last of the month. */
  predicate SameDayOfMonth(d: Date, later: Date, months: nat) {
    && Valid(later) && MonthIndex(later) == MonthIndex(d) + months
    && later.day == (if d.day <= Length(MonthIndex(later)) then d.day else Length(MonthIndex(later)))
  }

  lemma OrdinalFits(d: Date)
    requires Valid(d)
    ensures 1 <= Ordinal(d) <= LAST_ORDINAL
  {
    OrdinalYear(d, Ordinal(d));
    DayOfYear(d);
    YearLength(d.year);
    YearsGrow(d.year + 1, MAX_YEAR + 1);
    LastOrdinal();
  }

  lemma DateOfIs(t: int, date: Date)
    requires Representable(t) && Valid(date) && t / DAY == Ordinal(date)
    ensures DateOf(t) == date
  {
    OrdinalRoundTrip(date);
  }

  /** The instant with this time of day on that date. */
  lemma Later(t: int, date: Date) returns (later: int)
    requires Valid(date)
    ensures Representable(later) && later % DAY == t % DAY && DateOf(later) == date
    ensures later == t + (Ordinal(date) - t / DAY) * DAY
  {
    OrdinalFits(date);
    var n := Ordinal(date);
    later := n * DAY + t % DAY;
    Euclid(later, DAY, n, t % DAY);
    DateOfIs(later, date);
  }

  lemma CalendarAdd(kind: Kind, minutes: nat, t: int)
    requires MonthsOn(kind) > 0 && Representable(t)
    ensures Valid(DateOf(t)) && Ordinal(DateOf(t)) == t / DAY
    ensures Add(kind, minutes, t) == DaysTo(DateOf(t), AddMonths(DateOf(t), MonthsOn(kind)))
  {
    DateOfIsValid(t);
    AddYearsIsTwelveMonths(DateOf(t), 1);
  }

  lemma LaterDate(d: Date, months: nat) returns (date: Date)
    requires Valid(d)
    ensures MonthIndex(d) + months >= 12 * (MAX_YEAR + 1) ==> AddMonths(d, months).None?
    ensures MonthIndex(d) + months < 12 * (MAX_YEAR + 1) ==>
      AddMonths(d, months) == Some(date) && SameDayOfMonth(d, date, months)
  {
    AddMonthsLands(d, months);
    var r := AddMonths(d, months);
    date := if r.Some? then r.value else d;
  }

  lemma DaysToIs(d: Date, date: Date, t: int, later: int)
    requires 1 <= d.month <= 12 && 1 <= date.month <= 12 && Ordinal(d) == t / DAY
    requires later == t + (Ordinal(date) - t / DAY) * DAY
    ensures DaysTo(d, Some(date)) == Some(later - t)
  {
  }

  /** The date so many months on, at the same time of day, when the calendar has one. */
  lemma LaterBy(d: Date, t: int, months: nat) returns (later: int)
    requires Valid(d) && Ordinal(d) == t / DAY
    ensures MonthIndex(d) + months >= 12 * (MAX_YEAR + 1) ==> AddMonths(d, months).None?
    ensures MonthIndex(d) + months < 12 * (MAX_YEAR + 1) ==>
      && Representable(later) && later % DAY == t % DAY && SameDayOfMonth(d, DateOf(later), months)
      && DaysTo(d, AddMonths(d, months)) == Some(later - t)
  {
    var date := LaterDate(d, months);
    later := t;
    if MonthIndex(d) + months < 12 * (MAX_YEAR + 1) {
      later := Later(t, date);
      DaysToIs(d, date, t, later);
    }
  }

  lemma AfterIs(kind: Kind, zone: Zone, t: int, later: int)
    requires Representable(later) && MonthsOn(kind) > 0
    ensures
      After(kind, zone, t, Some(later - t)) == if kind == Yearly then Some(later) else Corrected(zone, t, later - t)
  {
  }

  lemma CorrectedIs(zone: Zone, t: int, later: int)
    ensures
      var v := later - (zone(later) - zone(t));
      Corrected(zone, t, later - t) ==
        if Representable(t + zone(t)) && Representable(later + zone(later)) && Representable(v) then Some(v) else None
  {
    assert t + (later - t) == later;
  }

  /** The monthly types and yearly: the same time of day on the date so many months on, dates being those of
      UTC; the monthly ones, and only they, less what the offset has gained. */
  lemma CalendarTypes(kind: Kind, minutes: nat, zone: Zone, t: int) returns (later: int)
    requires MonthsOn(kind) > 0 && Representable(t)
    ensures MonthIndex(DateOf(t)) + MonthsOn(kind) >= 12 * (MAX_YEAR + 1) ==> NextRun(kind, minutes, zone, t).None?
    ensures MonthIndex(DateOf(t)) + MonthsOn(kind) < 12 * (MAX_YEAR + 1) ==>
      && Representable(later) && later % DAY == t % DAY
      && SameDayOfMonth(DateOf(t), DateOf(later), MonthsOn(kind))
      && var v := later - (zone(later) - zone(t));
         NextRun(kind, minutes, zone, t) ==
           if kind == Yearly then Some(later)
           else if Representable(t + zone(t)) && Representable(later + zone(later)) && Representable(v) then Some(v)
           else None
  {
    CalendarAdd(kind, minutes, t);
    later := LaterBy(DateOf(t), t, MonthsOn(kind));
    if MonthIndex(DateOf(t)) + MonthsOn(kind) < 12 * (MAX_YEAR + 1) {
      AfterIs(kind, zone, t, later);
      CorrectedIs(zone, t, later);
    }
  }

  /** Steps of whole days. */
  lemma AddIsWholeDays(kind: Kind, minutes: nat, t: int)
    requires Representable(t) && !kind.Minutes? && !kind.Hourly? && Add(kind, minutes, t).Some?
    ensures Add(kind, minutes, t).value % DAY == 0
  {
    if MonthsOn(kind) > 0 {
      CalendarAdd(kind, minutes, t);
      DaysToIsWholeDays(DateOf(t), AddMonths(DateOf(t), MonthsOn(kind)));
    }
  }

  lemma DaysToIsWholeDays(d: Date, later: Option<Date>)
    requires 1 <= d.month <= 12 && DaysTo(d, later).Some?
    ensures DaysTo(d, later).value % DAY == 0
  {
    WholeDays(Ordinal(later.value) - Ordinal(d));
  }

  lemma WholeDays(n: int)
    ensures (n * DAY) % DAY == 0
  {
  }

  // ---------------------------------------------------------------- progress

  lemma {:induction false} Telescope(start: int -> int, i: int, n: nat)
    requires forall j :: start(j + 1) == start(j) + Length(j)
    ensures start(i + n) >= start(i) + (if n == 0 then 0 else Length(i) + 28 * (n - 1))
  {
    if n > 0 {
      Telescope(start, i, n - 1);
      assert start((i + n - 1) + 1) == start(i + n - 1) + Length(i + n - 1);
    }
  }

  /** Days before the first of the month with this index. */
  function MonthStart(i: int): int {
    BeforeYear(i / 12) + BeforeMonth(i / 12, i % 12 + 1)
  }

  lemma MonthStarts(i: int, n: nat)
    requires n > 0
    ensures MonthStart(i + n) >= MonthStart(i) + Length(i) + 28 * (n - 1)
  {
    var start := (j: int) => MonthStart(j);
    forall j
      ensures start(j + 1) == start(j) + Length(j)
    {
      NextMonthStarts(j);
    }
    Telescope(start, i, n);
  }

  lemma OrdinalInMonth(d: Date)
    requires Valid(d)
    ensures Ordinal(d) == MonthStart(MonthIndex(d)) + d.day && d.day <= Length(MonthIndex(d))
  {
    OrdinalByMonth(d);
    assert MonthIndex(d) / 12 == d.year && MonthIndex(d) % 12 == d.month - 1;
  }

  /** n months on is at least 28 n days on. */
  lemma MonthsAhead(d: Date, n: nat)
    requires Valid(d) && n > 0 && AddMonths(d, n).Some?
    ensures Valid(AddMonths(d, n).value) && Ordinal(AddMonths(d, n).value) - Ordinal(d) >= 28 * n
  {
    AddMonthsLands(d, n);
    OrdinalInMonth(d);
    OrdinalInMonth(AddMonths(d, n).value);
    MonthStarts(MonthIndex(d), n);
  }

  lemma DaysToAhead(d: Date, later: Date, n: int)
    requires 1 <= d.month <= 12 && 1 <= later.month <= 12 && Ordinal(later) - Ordinal(d) >= n
    ensures DaysTo(d, Some(later)).value >= n * DAY
  {
  }

  lemma CalendarAddIsPositive(kind: Kind, minutes: nat, t: int)
    requires Representable(t) && Add(kind, minutes, t).Some? && MonthsOn(kind) > 0
    ensures Add(kind, minutes, t).value >= 28 * DAY
  {
    CalendarAdd(kind, minutes, t);
    var d, n := DateOf(t), MonthsOn(kind);
    MonthsAhead(d, n);
    DaysToAhead(d, AddMonths(d, n).value, 28);
  }

  lemma AddIsPositive(kind: Kind, minutes: nat, t: int)
    requires Representable(t) && Add(kind, minutes, t).Some?
    ensures Add(kind, minutes, t).value >= MINUTE
    ensures !kind.Minutes? && !kind.Hourly? ==> Add(kind, minutes, t).value >= DAY
  {
    if MonthsOn(kind) > 0 {
      CalendarAddIsPositive(kind, minutes, t);
    }
  }

  lemma AfterGoesForward(kind: Kind, zone: Zone, t: int, add: int)
    requires add > 0 && After(kind, zone, t, Some(add)).Some?
    ensures After(kind, zone, t, Some(add)).value > t <==> Uncorrected(kind) || zone(t + add) - zone(t) < add
  {
  }

  /** A step goes forward exactly when the offset did not jump ahead by the whole step. */
  lemma GoesForward(kind: Kind, minutes: nat, zone: Zone, t: int)
    requires NextRun(kind, minutes, zone, t).Some?
    ensures
      var add := Add(kind, minutes, t).value;
      NextRun(kind, minutes, zone, t).value > t <==> Uncorrected(kind) || zone(t + add) - zone(t) < add
  {
    AddIsPositive(kind, minutes, t);
    AfterGoesForward(kind, zone, t, Add(kind, minutes, t).value);
  }

  /** No two offsets of the zone lie a day or more apart. */
  ghost predicate Calm(zone: Zone) {
    forall s, t :: zone(t) - zone(s) < DAY
  }

  lemma CalmGoesForward(kind: Kind, minutes: nat, zone: Zone, t: int)
    requires Calm(zone) && NextRun(kind, minutes, zone, t).Some?
    ensures NextRun(kind, minutes, zone, t).value > t
  {
    GoesForward(kind, minutes, zone, t);
    AddIsPositive(kind, minutes, t);
  }

  /** A zone that skips a whole day, as Samoa did when it crossed the date line, from UTC-10 to UTC+14. */
  function SkipsADay(t: int): int {
    if t < 1000 * DAY then -10 * HOUR else 14 * HOUR
  }

  /** There a daily schedule is stuck on the day before: each next run is the run itself. */
  lemma SkippedDayStalls(t: int)
    requires 999 * DAY <= t < 1000 * DAY
    ensures NextRun(Daily, 0, SkipsADay, t) == Some(t)
  {
  }

  // ---------------------------------------------------------------- orbits

  /** calculate_next_run of one schedule, as the step of an orbit. */
  function Stepper(kind: Kind, minutes: nat, zone: Zone): Step {
    t => NextRun(kind, minutes, zone, t)
  }

  /** With no offset swing of a day, every step goes forward: the scheduler's loop ends. */
  lemma StepperGoesForward(kind: Kind, minutes: nat, zone: Zone, bound: int)
    requires Calm(zone)
    ensures Forward(Stepper(kind, minutes, zone), bound)
  {
    forall u | u <= bound && Stepper(kind, minutes, zone)(u).Some?
      ensures Stepper(kind, minutes, zone)(u).value > u
    {
      CalmGoesForward(kind, minutes, zone, u);
    }
  }

  /** The scheduler's loop would run forever for a daily schedule stuck before a skipped day. */
  lemma SkippedDayNeverPasses(t: int, now: int, k: nat)
    requires 999 * DAY <= t < 1000 * DAY && t <= now
    ensures !FirstBeyond(Stepper(Daily, 0, SkipsADay), t, now, k)
  {
    SkippedDayStalls(t);
    FixedPointNeverPasses(Stepper(Daily, 0, SkipsADay), t, now, k);
  }

  /** The run after u stands at the offset it had before correction, for each of the first n runs. */
  ghost predicate NoJump(f: Step, kind: Kind, zone: Zone, t: int, n: nat) {
    forall k :: 0 <= k < n && Orbit(f, t, k).Some? && Orbit(f, t, k + 1).Some? ==>
      Undisturbed(kind, zone, Orbit(f, t, k).value, Orbit(f, t, k + 1).value)
  }

  ghost predicate Undisturbed(kind: Kind, zone: Zone, u: int, v: int) {
    Representable(u) && Add(kind, 0, u).Some? ==> zone(v) == zone(u + Add(kind, 0, u).value)
  }

  /** Days between two runs, for the types where it is fixed. */
  function Period(kind: Kind): int {
    if kind.Daily? then 1 else if kind.Weekly? then 7 else 14
  }

  lemma PeriodicStep(kind: Kind, zone: Zone, u: int, v: int)
    requires kind.Daily? || kind.Weekly? || kind.Biweekly?
    requires NextRun(kind, 0, zone, u) == Some(v) && Undisturbed(kind, zone, u, v)
    ensures Local(zone, v) == Local(zone, u) + Period(kind) * DAY
  {
    KeepsWallClock(kind, 0, zone, u);
  }

  /** Daily, weekly and biweekly runs: the k-th is k periods later on the local clock. */
  lemma PeriodicOnLocalClock(kind: Kind, zone: Zone, t: int, k: nat)
    requires kind.Daily? || kind.Weekly? || kind.Biweekly?
    requires NoJump(Stepper(kind, 0, zone), kind, zone, t, k) && Orbit(Stepper(kind, 0, zone), t, k).Some?
    ensures Local(zone, Orbit(Stepper(kind, 0, zone), t, k).value) == Local(zone, t) + k * (Period(kind) * DAY)
  {
    var f := Stepper(kind, 0, zone);
    var g := (u: int) => Local(zone, u);
    forall j: nat | j < k && Orbit(f, t, j).Some? && Orbit(f, t, j + 1).Some?
      ensures g(Orbit(f, t, j + 1).value) == g(Orbit(f, t, j).value) + Period(kind) * DAY
    {
      StepFrom(kind, zone, t, j);
      PeriodicStep(kind, zone, Orbit(f, t, j).value, Orbit(f, t, j + 1).value);
    }
    OrbitSum(f, g, Period(kind) * DAY, t, k);
  }

  lemma StepFrom(kind: Kind, zone: Zone, t: int, j: nat)
    requires Orbit(Stepper(kind, 0, zone), t, j + 1).Some?
    ensures Orbit(Stepper(kind, 0, zone), t, j).Some?
    ensures NextRun(kind, 0, zone, Orbit(Stepper(kind, 0, zone), t, j).value) == Orbit(Stepper(kind, 0, zone), t, j + 1)
  {
  }

  lemma MovesByAdd(kind: Kind, zone: Zone, u: int, v: int)
    requires 0 < MonthsOn(kind) < 12
    requires NextRun(kind, 0, zone, u) == Some(v) && Undisturbed(kind, zone, u, v)
    ensures Representable(u) && Add(kind, 0, u).Some? && Local(zone, v) == Local(zone, u) + Add(kind, 0, u).value
  {
    KeepsWallClock(kind, 0, zone, u);
  }

  lemma MonthlyStep(kind: Kind, zone: Zone, u: int, v: int)
    requires 0 < MonthsOn(kind) < 12
    requires NextRun(kind, 0, zone, u) == Some(v) && Undisturbed(kind, zone, u, v)
    ensures Local(zone, v) % DAY == Local(zone, u) % DAY
  {
    MovesByAdd(kind, zone, u, v);
    AddIsWholeDays(kind, 0, u);
    DaysKeepTime(Local(zone, u), Add(kind, 0, u).value, Local(zone, v));
  }

  lemma DaysKeepTime(a: int, n: int, b: int)
    requires n % DAY == 0 && b == a + n
    ensures b % DAY == a % DAY
  {
  }

  /** Monthly kinds: every run falls at the same local time of day. */
  lemma SameLocalTime(kind: Kind, zone: Zone, t: int, k: nat)
    requires 0 < MonthsOn(kind) < 12
    requires NoJump(Stepper(kind, 0, zone), kind, zone, t, k) && Orbit(Stepper(kind, 0, zone), t, k).Some?
    ensures Local(zone, Orbit(Stepper(kind, 0, zone), t, k).value) % DAY == Local(zone, t) % DAY
  {
    var f := Stepper(kind, 0, zone);
    var g := (u: int) => Local(zone, u) % DAY;
    forall j: nat | j < k && Orbit(f, t, j).Some? && Orbit(f, t, j + 1).Some?
      ensures g(Orbit(f, t, j + 1).value) == g(Orbit(f, t, j).value) + 0
    {
      StepFrom(kind, zone, t, j);
      MonthlyStep(kind, zone, Orbit(f, t, j).value, Orbit(f, t, j + 1).value);
    }
    OrbitSum(f, g, 0, t, k);
  }
}
