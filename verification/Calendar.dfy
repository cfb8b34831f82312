/** Turning unix days into a civil date, against the Gregorian calendar counted day by day. */
module Calendar {
  import opened Sizing

  datatype Date = Date(year: nat, month: nat, day: nat)

  // ---------------------------------------------------------------- the calendar itself

  predicate IsLeap(year: nat) {
    year % 4 == 0 && (year % 100 != 0 || year % 400 == 0)
  }

  function DaysInMonth(year: nat, month: nat): nat {
    if month == 2 then (if IsLeap(year) then 29 else 28)
    else if month == 4 || month == 6 || month == 9 || month == 11 then 30
    else 31
  }

  predicate IsValid(d: Date) {
    1 <= d.month <= 12 && 1 <= d.day <= DaysInMonth(d.year, d.month)
  }

  function NextDay(d: Date): Date {
    if d.day < DaysInMonth(d.year, d.month) then d.(day := d.day + 1)
    else if d.month < 12 then Date(d.year, d.month + 1, 1)
    else Date(d.year + 1, 1, 1)
  }

  /** The date `n` days after 1970-01-01, one day at a time. */
  function DateAt(n: nat): Date {
    if n == 0 then Date(1970, 1, 1) else NextDay(DateAt(n - 1))
  }

  // ---------------------------------------------------------------- the closed form

  function YearOfEra(doe: nat): int {
    (doe - doe / 1460 + doe / 36_524 - doe / 146_096) / 365
  }

  /** The first day of March-based year `y` within its 400-year era. */
  function YearStart(y: int): int {
    365 * y + y / 4 - y / 100
  }

  /** A date counted from 1 March: the month index is 0 for March. */
  function FromMarch(year: int, doy: int): (int, int, int) {
    var mp := (5 * doy + 2) / 153;
    var day := doy - (153 * mp + 2) / 5 + 1;
    var month := if mp < 10 then mp + 3 else mp - 9;
    (if month <= 2 then year + 1 else year, month, day)
  }

  function MarchOfEra(era: nat, doe: nat): (int, int) {
    var yoe := YearOfEra(doe);
    (yoe + era * 400, doe - YearStart(yoe))
  }

  function March(days: nat): (int, int) {
    var z := days + 719_468;
    MarchOfEra(z / 146_097, z % 146_097)
  }

  function Civil(days: nat): (int, int, int) {
    var (year, doy) := March(days);
    FromMarch(year, doy)
  }

  // ---------------------------------------------------------------- years

  function YearLength(y: nat): nat {
    if IsLeap(y + 1) then 366 else 365
  }

  /** A day number split into 400-year eras, centuries, 4-year cycles and days. The last century
      of an era is one day longer, and so is its last cycle. */
  datatype Digits = Digits(era: nat, century: nat, cycle: nat, rest: nat) {
    predicate InRange() {
      && century <= 3 && cycle <= 24 && rest <= 1460
      && (cycle == 24 && rest == 1460 ==> century == 3)
    }

    function DayOfEra(): nat {
      36_524 * century + 1461 * cycle + rest
    }

    function Day(): nat {
      146_097 * era + DayOfEra()
    }

    /** The year within the cycle; the fourth year takes the leap day. */
    function YearOfCycle(): nat {
      if rest == 1460 then 3 else rest / 365
    }

    function Year(): nat {
      400 * era + 100 * century + 4 * cycle + YearOfCycle()
    }

    function DayOfYear(): nat {
      rest - 365 * YearOfCycle()
    }

    function Next(): Digits {
      if rest == 1460 || (cycle == 24 && rest == 1459 && century < 3) then
        if cycle < 24 then Digits(era, century, cycle + 1, 0)
        else if century < 3 then Digits(era, century + 1, 0, 0)
        else Digits(era + 1, 0, 0, 0)
      else this.(rest := rest + 1)
    }
  }

  function DigitsOf(z: nat): (d: Digits)
    ensures d.InRange() && d.Day() == z
  {
    var era, doe := z / 146_097, z % 146_097;
    var century := if doe == 146_096 then 3 else doe / 36_524;
    var r := doe - 36_524 * century;
    var cycle := if r == 36_524 then 24 else r / 1461;
    Digits(era, century, cycle, r - 1461 * cycle)
  }

  lemma DivIs(x: nat, d: nat, k: nat)
    requires 0 < d && k * d <= x < k * d + d
    ensures x / d == k && x % d == x - k * d
  {
    DivIff(k, x, d);
    DivIff(k + 1, x, d);
    assert (k + 1) * d == k * d + d;
  }

  lemma QuotientsOfDigits(d: Digits)
    requires d.InRange() && d.DayOfEra() != 146_096
    ensures d.DayOfEra() / 36_524 == d.century && d.DayOfEra() / 146_096 == 0
    ensures d.DayOfEra() / 1460
            == 25 * d.century + d.cycle + if d.cycle + d.rest + 24 * d.century >= 1460 then 1 else 0
  {
    var e := if d.cycle + d.rest + 24 * d.century >= 1460 then 1 else 0;
    DivIs(d.DayOfEra(), 1460, 25 * d.century + d.cycle + e);
    DivIs(d.DayOfEra(), 36_524, d.century);
    DivIs(d.DayOfEra(), 146_096, 0);
  }

  /** The year-of-era formula reads off the digits. */
  lemma YearOfEraIsRight(d: Digits)
    requires d.InRange()
    ensures YearOfEra(d.DayOfEra()) == 100 * d.century + 4 * d.cycle + d.YearOfCycle()
  {
    if d.DayOfEra() == 146_096 {
      assert d.century == 3 && d.cycle == 24 && d.rest == 1460;
    } else {
      QuotientsOfDigits(d);
      var e := if d.cycle + d.rest + 24 * d.century >= 1460 then 1 else 0;
      DivIs(36_500 * d.century + 1460 * d.cycle + d.rest - e, 365,
            100 * d.century + 4 * d.cycle + d.YearOfCycle());
    }
  }

  lemma YearStartOfDigits(d: Digits)
    requires d.InRange()
    ensures YearStart(100 * d.century + 4 * d.cycle + d.YearOfCycle()) == d.DayOfEra() - d.DayOfYear()
  {
    var yoe := 100 * d.century + 4 * d.cycle + d.YearOfCycle();
    DivIs(yoe, 4, 25 * d.century + d.cycle);
    DivIs(yoe, 100, d.century);
  }

  lemma MarchOfEraDigits(d: Digits)
    requires d.InRange()
    ensures MarchOfEra(d.era, d.DayOfEra()) == (d.Year(), d.DayOfYear())
  {
    YearOfEraIsRight(d);
    YearStartOfDigits(d);
  }

  lemma EraOfDigits(z: nat, d: Digits)
    requires d.InRange() && d.Day() == z
    ensures z / 146_097 == d.era && z % 146_097 == d.DayOfEra()
  {
    DivIs(z, 146_097, d.era);
  }

  lemma MarchOfDigits(days: nat, d: Digits)
    requires d.InRange() && d.Day() == days + 719_468
    ensures March(days) == (d.Year(), d.DayOfYear())
  {
    EraOfDigits(days + 719_468, d);
    MarchOfEraDigits(d);
  }

  /** The next day is the next digit vector. */
  lemma NextDigits(d: Digits)
    requires d.InRange()
    ensures d.Next().InRange() && d.Next().Day() == d.Day() + 1
  {
  }

  lemma LeapOfDigits(d: Digits)
    requires d.InRange()
    ensures IsLeap(d.Year() + 1) <==>
            d.YearOfCycle() == 3 && (d.cycle < 24 || d.century == 3)
  {
    var y, low := d.Year() + 1, 4 * d.cycle + d.YearOfCycle() + 1;
    var e := if d.YearOfCycle() == 3 then 1 else 0;
    DivIs(y, 4, 100 * d.era + 25 * d.century + d.cycle + e);
    if low == 100 {
      DivIs(y, 100, 4 * d.era + d.century + 1);
      DivIs(y, 400, d.era + if d.century == 3 then 1 else 0);
    } else {
      DivIs(y, 100, 4 * d.era + d.century);
    }
  }

  /** March-based dates advance by one day of the year, or to the first day of the next year
      exactly after the year's last. */
  lemma DigitsAdvance(d: Digits)
    requires d.InRange()
    ensures d.DayOfYear() < YearLength(d.Year())
    ensures (d.Next().Year(), d.Next().DayOfYear())
            == if d.DayOfYear() + 1 < YearLength(d.Year()) then (d.Year(), d.DayOfYear() + 1) else (d.Year() + 1, 0)
  {
    LeapOfDigits(d);
  }

  predicate IsNextDay(year: int, doy: int, next: (int, int)) {
    && 0 <= year && 0 <= doy < YearLength(year)
    && next == if doy + 1 < YearLength(year) then (year, doy + 1) else (year + 1, 0)
  }

  lemma NextOfDigits(d: Digits)
    requires d.InRange()
    ensures IsNextDay(d.Year(), d.DayOfYear(), (d.Next().Year(), d.Next().DayOfYear()))
  {
    DigitsAdvance(d);
  }

  lemma MarchAdvances(days: nat)
    ensures IsNextDay(March(days).0, March(days).1, March(days + 1))
  {
    var d := DigitsOf(days + 719_468);
    MarchOfDigits(days, d);
    NextDigits(d);
    MarchOfDigits(days + 1, d.Next());
    NextOfDigits(d);
  }

  // ---------------------------------------------------------------- months

  /** The first day of March-based month `m`. */
  function MonthStart(m: int): int {
    (153 * m + 2) / 5
  }

  function MonthOf(doy: int): int {
    (5 * doy + 2) / 153
  }

  lemma MonthOfDay(doy: nat)
    requires doy < 366
    ensures 0 <= MonthOf(doy) <= 11 && MonthStart(MonthOf(doy)) <= doy < MonthStart(MonthOf(doy) + 1)
  {
  }

  /** The next day of the year is in the same month, or first of the next. */
  lemma MonthAdvances(doy: nat)
    requires doy < 365
    ensures if doy + 1 < MonthStart(MonthOf(doy) + 1) then MonthOf(doy + 1) == MonthOf(doy)
            else MonthOf(doy + 1) == MonthOf(doy) + 1 && doy + 1 == MonthStart(MonthOf(doy + 1))
  {
  }

  function CivilMonth(mp: int): int {
    if mp < 10 then mp + 3 else mp - 9
  }

  function CivilYear(year: int, mp: int): int {
    if CivilMonth(mp) <= 2 then year + 1 else year
  }

  /** The month starts agree with the calendar's month lengths; February takes what is left. */
  lemma MonthLengths(year: nat, mp: nat)
    requires mp <= 11
    ensures DaysInMonth(CivilYear(year, mp), CivilMonth(mp))
            == if mp < 11 then MonthStart(mp + 1) - MonthStart(mp) else YearLength(year) - MonthStart(11)
  {
  }

  function AsDate(t: (int, int, int)): Date
    requires 0 <= t.0 && 0 <= t.1 && 0 <= t.2
  {
    Date(t.0, t.1, t.2)
  }

  ghost predicate IsDate(t: (int, int, int), d: Date) {
    0 <= t.0 && 0 <= t.1 && 0 <= t.2 && AsDate(t) == d
  }

  lemma FromMarchIsValid(year: nat, doy: nat)
    requires doy < YearLength(year)
    ensures var t := FromMarch(year, doy); 0 <= t.0 && 0 <= t.1 && 0 <= t.2 && IsValid(AsDate(t))
  {
    MonthOfDay(doy);
    MonthLengths(year, MonthOf(doy));
  }

  /** One more day in the March-based count is the calendar's next day. */
  lemma FromMarchAdvances(year: nat, doy: nat)
    requires doy < YearLength(year)
    ensures var t := FromMarch(year, doy);
            && 0 <= t.0 && 0 <= t.1 && 0 <= t.2
            && IsDate(if doy + 1 < YearLength(year) then FromMarch(year, doy + 1) else FromMarch(year + 1, 0),
                      NextDay(AsDate(t)))
  {
    FromMarchIsValid(year, doy);
    MonthOfDay(doy);
    MonthLengths(year, MonthOf(doy));
    if doy + 1 < YearLength(year) {
      MonthAdvances(doy);
    } else {
      assert MonthOf(doy) == 11;
      assert FromMarch(year + 1, 0) == (year + 1, 3, 1);
    }
  }

  // ---------------------------------------------------------------- main result

  lemma CivilAtEpoch()
    ensures Civil(0) == (1970, 1, 1)
  {
    MarchOfDigits(0, Digits(4, 3, 17, 671));
  }

  lemma CivilAdvances(days: nat, d: Date)
    requires IsDate(Civil(days), d)
    ensures IsValid(d) && IsDate(Civil(days + 1), NextDay(d))
  {
    MarchAdvances(days);
    FromMarchIsValid(March(days).0, March(days).1);
    FromMarchAdvances(March(days).0, March(days).1);
  }

  /** A count of dates that starts at the epoch and steps as the calendar does is the calendar. */
  lemma {:induction false} DatesFollow(f: nat -> (int, int, int), n: nat)
    requires IsDate(f(0), DateAt(0))
    requires forall i: nat, d :: IsDate(f(i), d) ==> IsDate(f(i + 1), NextDay(d))
    ensures IsDate(f(n), DateAt(n))
  {
    if n > 0 {
      DatesFollow(f, n - 1);
      assert f((n - 1) + 1) == f(n);
    }
  }

  /** For every day, the closed form is the calendar's date, reached one day at a time, and it is
      a valid date. */
  lemma CivilIsCalendar(days: nat)
    ensures IsDate(Civil(days), DateAt(days)) && IsValid(DateAt(days))
  {
    CivilAtEpoch();
    forall i: nat, d | IsDate(Civil(i), d)
      ensures IsDate(Civil(i + 1), NextDay(d))
    {
      CivilAdvances(i, d);
    }
    DatesFollow(Civil, days);
    CivilAdvances(days, DateAt(days));
  }
}
