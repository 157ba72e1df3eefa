/** Civil dates and day numbers of the proleptic Gregorian calendar. */
module Calendar {
  datatype Date = Date(year: int, month: int, day: int)

  /** Division that rounds towards zero. */
  function TruncDiv(a: int, b: int): int
    requires b > 0
  {
    if a >= 0 then a / b else -((-a) / b)
  }

  function DaysFromCivil(date: Date): int {
    var y := if date.month <= 2 then date.year - 1 else date.year;
    var era := TruncDiv(if y >= 0 then y else y - 399, 400);
    var yoe := y - era * 400;
    var mp := (date.month + 9) % 12;
    var doy := (153 * mp + 2) / 5 + date.day - 1;
    var doe := yoe * 365 + yoe / 4 - yoe / 100 + doy;
    era * 146097 + doe - 719468
  }

  function CivilFromDays(days: int): Date {
    var z := days + 719468;
    CivilOfEra(EraOf(z), z - EraOf(z) * 146097)
  }

  function EraOf(z: int): int {
    TruncDiv(if z >= 0 then z else z - 146096, 146097)
  }

  /** Day `doe` of an era of 400 years. */
  function CivilOfEra(era: int, doe: int): Date {
    var yoe := TruncDiv(doe - TruncDiv(doe, 1460) + TruncDiv(doe, 36524) - TruncDiv(doe, 146096), 365);
    var y := yoe + era * 400;
    var doy := doe - (365 * yoe + TruncDiv(yoe, 4) - TruncDiv(yoe, 100));
    var mp := TruncDiv(5 * doy + 2, 153);
    var d := doy - TruncDiv(153 * mp + 2, 5) + 1;
    var m := if mp < 10 then mp + 3 else mp - 9;
    Date(if m <= 2 then y + 1 else y, m, d)
  }

  // ---------------------------------------------------------------- the calendar, independently

  predicate Leap(year: int) {
    year % 4 == 0 && (year % 100 != 0 || year % 400 == 0)
  }

  function MonthLength(year: int, month: int): int {
    if month == 2 then (if Leap(year) then 29 else 28)
    else if month == 4 || month == 6 || month == 9 || month == 11 then 30
    else 31
  }

  predicate Valid(date: Date) {
    1 <= date.month <= 12 && 1 <= date.day <= MonthLength(date.year, date.month)
  }

  function NextDay(date: Date): Date {
    if date.day < MonthLength(date.year, date.month) then date.(day := date.day + 1)
    else if date.month < 12 then Date(date.year, date.month + 1, 1)
    else Date(date.year + 1, 1, 1)
  }

  predicate Before(a: Date, b: Date) {
    a.year < b.year || (a.year == b.year && (a.month < b.month || (a.month == b.month && a.day < b.day)))
  }

  // ---------------------------------------------------------------- years that start in March

  /** Years, months and days counted from the first of March. */
  datatype Shifted = Shifted(year: int, month: int, day: int)

  function MonthStart(mp: int): int {
    (153 * mp + 2) / 5
  }

  /** The first of March of a year, counted from that of year 0. */
  function YearStart(y: int): int {
    365 * y + y / 4 - y / 100 + y / 400
  }

  function YearLength(y: int): int {
    if Leap(y + 1) then 366 else 365
  }

  function Shift(date: Date): Shifted {
    if date.month <= 2 then Shifted(date.year - 1, date.month + 9, date.day - 1)
    else Shifted(date.year, date.month - 3, date.day - 1)
  }

  function Unshift(s: Shifted): Date {
    if s.month < 10 then Date(s.year, s.month + 3, s.day + 1) else Date(s.year + 1, s.month - 9, s.day + 1)
  }

  function DayOfYear(s: Shifted): int {
    MonthStart(s.month) + s.day
  }

  predicate ValidShifted(s: Shifted) {
    0 <= s.month < 12 && 0 <= s.day &&
      DayOfYear(s) < (if s.month == 11 then YearLength(s.year) else MonthStart(s.month + 1))
  }

  lemma ShiftBack(date: Date)
    requires 1 <= date.month <= 12
    ensures Unshift(Shift(date)) == date
    ensures Valid(date) <==> ValidShifted(Shift(date))
  {}

  /** The correction before the division makes it round down. */
  lemma FloorOfEra(y: int)
    ensures TruncDiv(if y >= 0 then y else y - 399, 400) == y / 400
  {}

  lemma FloorOfDays(z: int)
    ensures 0 <= z - EraOf(z) * 146097 < 146097
  {}

  lemma YearStartByEra(y: int)
    ensures YearStart(y) == (y / 400) * 146097 + 365 * (y % 400) + (y % 400) / 4 - (y % 400) / 100
  {}

  /** The arithmetic of the code is a day count in March years. */
  lemma DaysFromShifted(date: Date)
    requires 1 <= date.month <= 12
    ensures var s := Shift(date); DaysFromCivil(date) == YearStart(s.year) + DayOfYear(s) - 719468
  {
    var s := Shift(date);
    FloorOfEra(s.year);
    YearStartByEra(s.year);
    assert (date.month + 9) % 12 == s.month;
  }

  function EraYear(yoe: int): int {
    365 * yoe + yoe / 4 - yoe / 100
  }

  lemma EraYearsAdjoin(yoe: int)
    requires 0 <= yoe < 400
    ensures (if yoe == 399 then 146097 else EraYear(yoe + 1)) == EraYear(yoe) + YearLength(yoe)
  {
    var n := yoe + 1;
    assert n / 4 == yoe / 4 + if n % 4 == 0 then 1 else 0;
    assert n / 100 == yoe / 100 + if n % 100 == 0 then 1 else 0;
    assert n % 400 == 0 <==> n == 400;
  }

  lemma Mod4(y: int, k: int)
    ensures (y + 4 * k) % 4 == y % 4
  {}

  lemma Mod100(y: int, k: int)
    ensures (y + 100 * k) % 100 == y % 100
  {}

  lemma Mod400(y: int, k: int)
    ensures (y + 400 * k) % 400 == y % 400
  {}

  lemma EraInvariant(yoe: int, era: int)
    ensures YearLength(yoe + 400 * era) == YearLength(yoe)
  {
    Mod4(yoe + 1, 100 * era);
    Mod100(yoe + 1, 4 * era);
    Mod400(yoe + 1, era);
  }

  lemma YearsAdjoin(y: int)
    ensures YearStart(y + 1) == YearStart(y) + YearLength(y)
  {
    var era, yoe := y / 400, y % 400;
    YearStartByEra(y);
    YearStartByEra(y + 1);
    EraYearsAdjoin(yoe);
    EraInvariant(yoe, era);
    assert y == yoe + 400 * era;
    assert y + 1 == 400 * era + (yoe + 1);
    if yoe == 399 {
      assert (y + 1) / 400 == era + 1 && (y + 1) % 400 == 0;
    } else {
      assert (y + 1) / 400 == era && (y + 1) % 400 == yoe + 1;
    }
  }

  lemma {:induction false} YearsAscend(a: int, b: int)
    requires a < b
    ensures YearStart(a) + YearLength(a) <= YearStart(b)
    decreases b - a
  {
    YearsAdjoin(a);
    if a + 1 < b {
      YearsAscend(a + 1, b);
    }
  }

  lemma MonthsAscend(a: int, b: int)
    requires 0 <= a < b
    ensures MonthStart(a + 1) <= MonthStart(b)
  {}

  lemma DayInYear(s: Shifted)
    requires ValidShifted(s)
    ensures 0 <= DayOfYear(s) < YearLength(s.year)
  {}

  /** In March years, the day after the last of a month is the first of the next. */
  lemma MonthsAdjoin(date: Date)
    requires Valid(date) && date.day == MonthLength(date.year, date.month)
    ensures var s := Shift(date);
      Shift(NextDay(date)) == (if s.month == 11 then Shifted(s.year + 1, 0, 0) else Shifted(s.year, s.month + 1, 0))
      && DayOfYear(s) + 1 == (if s.month == 11 then YearLength(s.year) else MonthStart(s.month + 1))
  {}

  function MarchCount(s: Shifted): int {
    YearStart(s.year) + DayOfYear(s)
  }

  lemma NextMarchCount(date: Date)
    requires Valid(date)
    ensures MarchCount(Shift(NextDay(date))) == MarchCount(Shift(date)) + 1
  {
    if date.day == MonthLength(date.year, date.month) {
      MonthsAdjoin(date);
      YearsAdjoin(Shift(date).year);
    } else {
      assert Shift(NextDay(date)) == Shift(date).(day := Shift(date).day + 1);
    }
  }

  lemma NextIsValid(date: Date)
    requires Valid(date)
    ensures Valid(NextDay(date))
  {}

  lemma CountsFromEpoch()
    ensures DaysFromCivil(Date(1970, 1, 1)) == 0
  {}

  /** The day after has the next number: the count is of days since 1970-01-01. */
  lemma CountsDays(date: Date)
    requires Valid(date)
    ensures Valid(NextDay(date)) && DaysFromCivil(NextDay(date)) == DaysFromCivil(date) + 1
  {
    NextIsValid(date);
    NextMarchCount(date);
    assert DaysFromCivil(date) == MarchCount(Shift(date)) - 719468 by { DaysFromShifted(date); }
    assert DaysFromCivil(NextDay(date)) == MarchCount(Shift(NextDay(date))) - 719468
      by { DaysFromShifted(NextDay(date)); }
  }

  lemma MarchCountsAscend(s: Shifted, t: Shifted)
    requires ValidShifted(s) && ValidShifted(t)
    requires s.year < t.year || (s.year == t.year && (s.month < t.month || (s.month == t.month && s.day < t.day)))
    ensures MarchCount(s) < MarchCount(t)
  {
    DayInYear(s);
    DayInYear(t);
    if s.year < t.year {
      YearsAscend(s.year, t.year);
    } else if s.month < t.month {
      MonthsAscend(s.month, t.month);
    }
  }

  /** Later dates have larger day numbers. */
  lemma DaysAscend(a: Date, b: Date)
    requires Valid(a) && Valid(b) && Before(a, b)
    ensures DaysFromCivil(a) < DaysFromCivil(b)
  {
    ShiftBack(a);
    ShiftBack(b);
    MarchCountsAscend(Shift(a), Shift(b));
    assert DaysFromCivil(a) == MarchCount(Shift(a)) - 719468 by { DaysFromShifted(a); }
    assert DaysFromCivil(b) == MarchCount(Shift(b)) - 719468 by { DaysFromShifted(b); }
  }

  // ---------------------------------------------------------------- back from a day number

  /** The month is read off the day of the year. */
  lemma MonthOfDay(doy: int, mp: int)
    requires 0 <= doy && 0 <= mp
    ensures (5 * doy + 2) / 153 == mp <==> MonthStart(mp) <= doy < MonthStart(mp + 1)
  {}

  lemma Quotient1460(k: int, over: int)
    requires 0 <= over < 2920
    ensures (1460 * k + over) / 1460 == k + if over >= 1460 then 1 else 0
  {}

  lemma Quotient365(year: int, day: int)
    requires 0 <= day < 365
    ensures (365 * year + day) / 365 == year
  {}

  lemma Centuries(c: int, day: int)
    requires 0 <= c < 4 && 0 <= day && (day < 36524 || (day == 36524 && c == 3))
    ensures (36524 * c + day) / 36524 - (36524 * c + day) / 146096 == c
  {}

  /** The year of the era is read off the day of the era: century `c`, cycle `q`, year `r` of the cycle. */
  lemma YearOfDay(c: int, q: int, r: int, doy: int)
    requires 0 <= c < 4 && 0 <= q < 25 && 0 <= r < 4 && 0 <= doy
    requires doy <= 364 || (doy == 365 && r == 3 && (q < 24 || c == 3))
    ensures var doe := 36524 * c + 1461 * q + 365 * r + doy;
      (doe - doe / 1460 + doe / 36524 - doe / 146096) / 365 == 100 * c + 4 * q + r
  {
    var doe := 36524 * c + 1461 * q + 365 * r + doy;
    var over := 24 * c + q + 365 * r + doy;
    var carry := if over >= 1460 then 1 else 0;
    assert doe / 1460 == 25 * c + q + carry by {
      Quotient1460(25 * c + q, over);
      assert doe == 1460 * (25 * c + q) + over;
    }
    assert doe / 36524 - doe / 146096 == c by {
      Centuries(c, 1461 * q + 365 * r + doy);
    }
    Quotient365(100 * c + 4 * q + r, doy - carry);
  }

  lemma YearOfEra(c: int, q: int, r: int)
    requires 0 <= c < 4 && 0 <= q < 25 && 0 <= r < 4
    ensures var yoe := 100 * c + 4 * q + r;
      365 * yoe + yoe / 4 - yoe / 100 == 36524 * c + 1461 * q + 365 * r && 0 <= yoe < 400
  {}

  function Least(a: int, b: int): int {
    if a < b then a else b
  }

  /** Every day of an era lies in one of its years. */
  lemma DayHasYear(doe: int) returns (c: int, q: int, r: int, doy: int)
    requires 0 <= doe < 146097
    ensures 0 <= c < 4 && 0 <= q < 25 && 0 <= r < 4 && 0 <= doy
    ensures doy <= 364 || (doy == 365 && r == 3 && (q < 24 || c == 3))
    ensures doe == 36524 * c + 1461 * q + 365 * r + doy
  {
    c := Least(doe / 36524, 3);
    var e := doe - 36524 * c;
    q := Least(e / 1461, 24);
    var f := e - 1461 * q;
    r := Least(f / 365, 3);
    doy := f - 365 * r;
  }

  lemma LongYear(c: int, q: int)
    requires 0 <= c < 4 && 0 <= q < 25 && (q < 24 || c == 3)
    ensures YearLength(100 * c + 4 * q + 3) == 366
  {}

  /** The year and the day of the year that the code computes are valid and add up to the day. */
  lemma YearAndDay(doe: int) returns (yoe: int, doy: int)
    requires 0 <= doe < 146097
    ensures yoe == (doe - doe / 1460 + doe / 36524 - doe / 146096) / 365 && 0 <= yoe < 400
    ensures doy == doe - (365 * yoe + yoe / 4 - yoe / 100) && 0 <= doy < YearLength(yoe)
  {
    var c, q, r;
    c, q, r, doy := DayHasYear(doe);
    YearOfDay(c, q, r, doy);
    YearOfEra(c, q, r);
    yoe := 100 * c + 4 * q + r;
    if doy == 365 {
      LongYear(c, q);
    }
  }

  /** The rendering of day `doe` of an era, in March years. */
  function ShiftedOf(era: int, doe: int): Shifted {
    var yoe := (doe - doe / 1460 + doe / 36524 - doe / 146096) / 365;
    var doy := doe - EraYear(yoe);
    var mp := (5 * doy + 2) / 153;
    Shifted(yoe + 400 * era, mp, doy - MonthStart(mp))
  }

  lemma RenderedShifted(era: int, doe: int)
    requires 0 <= doe < 146097
    ensures ValidShifted(ShiftedOf(era, doe)) && MarchCount(ShiftedOf(era, doe)) == 146097 * era + doe
  {
    var yoe, doy := YearAndDay(doe);
    var mp := (5 * doy + 2) / 153;
    MonthOfDay(doy, mp);
    EraInvariant(yoe, era);
    var y := yoe + 400 * era;
    YearStartByEra(y);
    assert y / 400 == era && y % 400 == yoe;
  }

  lemma RenderedOfEra(era: int, doe: int)
    requires 0 <= doe < 146097
    ensures CivilOfEra(era, doe) == Unshift(ShiftedOf(era, doe))
  {
    var yoe, doy := YearAndDay(doe);
  }

  lemma UnshiftBack(s: Shifted)
    requires ValidShifted(s)
    ensures Shift(Unshift(s)) == s && Valid(Unshift(s))
  {}

  lemma EraRoundTrip(era: int, doe: int)
    requires 0 <= doe < 146097
    ensures Valid(CivilOfEra(era, doe)) && DaysFromCivil(CivilOfEra(era, doe)) == 146097 * era + doe - 719468
  {
    var s := ShiftedOf(era, doe);
    RenderedOfEra(era, doe);
    RenderedShifted(era, doe);
    UnshiftBack(s);
    DaysFromShifted(Unshift(s));
  }

  /** Every day number is the number of the date it is rendered as, and that date is valid. */
  lemma DaysRoundTrip(days: int)
    ensures Valid(CivilFromDays(days)) && DaysFromCivil(CivilFromDays(days)) == days
  {
    var z := days + 719468;
    var era := EraOf(z);
    var doe := z - era * 146097;
    assert 0 <= doe < 146097 by { FloorOfDays(z); }
    assert CivilFromDays(days) == CivilOfEra(era, doe);
    EraRoundTrip(era, doe);
  }

  /** Every valid date is what its day number is rendered as. */
  lemma DateRoundTrip(date: Date)
    requires Valid(date)
    ensures CivilFromDays(DaysFromCivil(date)) == date
  {
    var days := DaysFromCivil(date);
    var back := CivilFromDays(days);
    DaysRoundTrip(days);
    if Before(date, back) {
      DaysAscend(date, back);
    } else if Before(back, date) {
      DaysAscend(back, date);
    }
  }
}
