/**
 Unix time to RFC 3339 text (telemetry.rs) and back (token.rs). The two directions are
 written independently in the source; here they are proved inverse, and both are tied
 to a calendar defined by nothing but "the day after".
 */
module Calendar {
  import opened Common

  datatype Date = Date(year: int, month: int, day: int)

  datatype Stamp = Stamp(date: Date, hour: int, minute: int, second: int)

  /** `Overflow` stands for an i64 operation whose result does not fit. */
  datatype Parsed = Parsed(seconds: int) | Rejected | Overflow

  // ---------------------------------------------------------------- the source's arithmetic

  function CivilFromDays(daysSinceEpoch: int): Date {
    var days := daysSinceEpoch + 719_468;
    var era := TruncDiv(if days >= 0 then days else days - 146_096, 146_097);
    CivilFromDayOfEra(era, days - era * 146_097)
  }

  function YearOfEra(dayOfEra: int): int {
    (dayOfEra - dayOfEra / 1_460 + dayOfEra / 36_524 - dayOfEra / 146_096) / 365
  }

  function CivilFromDayOfEra(era: int, dayOfEra: int): Date {
    var yearOfEra := YearOfEra(dayOfEra);
    var dayOfYear := dayOfEra - (365 * yearOfEra + yearOfEra / 4 - yearOfEra / 100);
    DateInYear(yearOfEra + era * 400, dayOfYear)
  }

  function DateInYear(marchYear: int, dayOfYear: int): Date {
    var monthPrime := (5 * dayOfYear + 2) / 153;
    var day := dayOfYear - (153 * monthPrime + 2) / 5 + 1;
    var month := monthPrime + (if monthPrime < 10 then 3 else -9);
    Date(marchYear + (if month <= 2 then 1 else 0), month, day)
  }

  function DayOfYear(month: int, day: int): int {
    (153 * (month + (if month > 2 then -3 else 9)) + 2) / 5 + day - 1
  }

  function DaysFromCivil(date: Date): int {
    var adjusted := date.year - (if date.month <= 2 then 1 else 0);
    var yearOfEra := adjusted - adjusted / 400 * 400;
    EraDays(date) + (yearOfEra * 365 + yearOfEra / 4 - yearOfEra / 100 + DayOfYear(date.month, date.day)) - 719_468
  }

  /** The first day of the era a date lies in. */
  function EraDays(date: Date): int {
    var adjusted := date.year - (if date.month <= 2 then 1 else 0);
    adjusted / 400 * 146_097
  }

  predicate LeapYear(year: int) { year % 4 == 0 && (year % 100 != 0 || year % 400 == 0) }

  function DaysInMonth(year: int, month: int): int {
    if month == 1 || month == 3 || month == 5 || month == 7 || month == 8 || month == 10 || month == 12 then 31
    else if month == 4 || month == 6 || month == 9 || month == 11 then 30
    else if month == 2 then (if LeapYear(year) then 29 else 28)
    else 0
  }

  predicate ValidDate(date: Date) { 1 <= date.day <= DaysInMonth(date.year, date.month) }

  /** A date lies in its era. */
  lemma DateInEra(date: Date)
    requires ValidDate(date)
    ensures EraDays(date) <= DaysFromCivil(date) + 719_468 < EraDays(date) + 146_500
  {
    hide LeapYear;
    var adjusted := date.year - (if date.month <= 2 then 1 else 0);
    var yearOfEra := adjusted - adjusted / 400 * 400;
    assert 0 <= yearOfEra < 400;
    assert 0 <= DayOfYear(date.month, date.day) < 366;
  }

  // ---------------------------------------------------------------- the reference calendar

  /** The day after, by the month lengths and the leap rule of RFC 3339 (section 5.7, Appendix C). */
  function NextDay(date: Date): Date {
    if date.day < DaysInMonth(date.year, date.month) then date.(day := date.day + 1)
    else if date.month < 12 then Date(date.year, date.month + 1, 1)
    else Date(date.year + 1, 1, 1)
  }

  /** The date `n` days after 1 January 1970. */
  function DateAfterEpoch(n: nat): Date {
    if n == 0 then Date(1970, 1, 1) else NextDay(DateAfterEpoch(n - 1))
  }

  predicate Earlier(a: Date, b: Date) {
    a.year < b.year || (a.year == b.year && (a.month < b.month || (a.month == b.month && a.day < b.day)))
  }

  // ---------------------------------------------------------------- years of an era

  /** The first day of a March-based year, counted from the start of its era. */
  function YearStart(yearOfEra: nat): nat { 365 * yearOfEra + yearOfEra / 4 - yearOfEra / 100 }

  /** The length of a March-based year: it ends with the February of the next calendar year. */
  function YearLength(yearOfEra: nat): nat { if LeapYear(yearOfEra + 1) then 366 else 365 }

  lemma EraParts(y: nat, c: nat, q: nat, r: nat)
    requires y < 400 && c == y / 100 && q == y % 100 / 4 && r == y % 4
    ensures y == 100 * c + 4 * q + r && c < 4 && q < 25 && r < 4
    ensures y / 4 == 25 * c + q && YearStart(y) == 36_524 * c + 1_461 * q + 365 * r
    ensures LeapYear(y + 1) <==> r == 3 && (q < 24 || c == 3)
  {
  }

  /** The quotient formula recovers the year from any day inside it. */
  lemma YearOfEraInverts(y: nat, dayOfYear: nat)
    requires y < 400 && dayOfYear < YearLength(y)
    ensures YearOfEra(YearStart(y) + dayOfYear) == y
    ensures YearStart(y) + dayOfYear < 146_097
  {
    hide YearStart, LeapYear, YearOfEra;
    var c, q, r := y / 100, y % 100 / 4, y % 4;
    EraParts(y, c, q, r);
    YearInverts(c, q, r, dayOfYear);
  }

  lemma YearInverts(c: nat, q: nat, r: nat, dayOfYear: nat)
    requires c < 4 && q < 25 && r < 4 && dayOfYear < (if r == 3 && (q < 24 || c == 3) then 366 else 365)
    ensures var d := 36_524 * c + 1_461 * q + 365 * r + dayOfYear;
      YearOfEra(d) == 100 * c + 4 * q + r && d < 146_097
  {
    hide YearOfEra;
    var e := 1_461 * q + 365 * r + dayOfYear;
    var d, rest := 36_524 * c + e, 24 * c + q + 365 * r + dayOfYear;
    CenturyDays(c, q, r, dayOfYear);
    CenturyQuotient(c, e, d);
    DayQuotient(25 * c + q, rest, d);
    LeapCarry(c, q, r, dayOfYear);
    YearFromQuotients(100 * c + 4 * q + r, d, c, 25 * c + q + rest / 1_460, dayOfYear - rest / 1_460);
  }

  lemma YearFromQuotients(y: nat, d: nat, centuries: nat, cycles: nat, rest: nat)
    requires d / 36_524 - d / 146_096 == centuries && d / 1_460 == cycles
    requires d - cycles + centuries == 365 * y + rest && rest < 365
    ensures YearOfEra(d) == y
  {
    YearQuotient(y, rest);
  }

  /** Only the last century of an era has a leap day at its end. */
  lemma CenturyDays(c: nat, q: nat, r: nat, dayOfYear: nat)
    requires c < 4 && q < 25 && r < 4 && dayOfYear < (if r == 3 && (q < 24 || c == 3) then 366 else 365)
    ensures 1_461 * q + 365 * r + dayOfYear <= 36_524 && (1_461 * q + 365 * r + dayOfYear < 36_524 || c == 3)
  {
  }

  lemma DayQuotient(n: nat, rest: nat, d: nat)
    requires d == 1_460 * n + rest
    ensures d / 1_460 == n + rest / 1_460
  {
  }

  /** The day a leap year adds is taken back by the first quotient. */
  lemma LeapCarry(c: nat, q: nat, r: nat, dayOfYear: nat)
    requires c < 4 && q < 25 && r < 4 && dayOfYear < (if r == 3 && (q < 24 || c == 3) then 366 else 365)
    ensures 0 <= dayOfYear - (24 * c + q + 365 * r + dayOfYear) / 1_460 < 365
  {
  }

  lemma YearQuotient(y: nat, rest: nat)
    requires rest < 365
    ensures (365 * y + rest) / 365 == y
  {
  }

  lemma CenturyQuotient(c: nat, e: nat, d: nat)
    requires c < 4 && e <= 36_524 && (e < 36_524 || c == 3) && d == 36_524 * c + e
    ensures d / 36_524 - d / 146_096 == c && d <= 146_096
  {
  }

  /** Every day of an era lies in exactly one March-based year. */
  lemma {:induction false} LocateYear(dayOfEra: nat, y: nat)
    requires y < 400 && YearStart(y) <= dayOfEra < 146_097
    ensures exists z: nat :: y <= z < 400 && YearStart(z) <= dayOfEra < YearStart(z) + YearLength(z)
    decreases 400 - y
  {
    if dayOfEra >= YearStart(y) + YearLength(y) {
      NextYearStart(y);
      LocateYear(dayOfEra, y + 1);
    }
  }

  lemma NextYearStart(y: nat)
    requires y < 400
    ensures YearStart(y) + YearLength(y) == if y < 399 then YearStart(y + 1) else 146_097
  {
    EraParts(y, y / 100, y % 100 / 4, y % 4);
    if y < 399 {
      EraParts(y + 1, (y + 1) / 100, (y + 1) % 100 / 4, (y + 1) % 4);
    }
  }

  // ---------------------------------------------------------------- months of a year

  lemma MonthInverts(month: int, day: int)
    requires 1 <= month <= 12 && 1 <= day <= (if month == 2 then 29 else DaysInMonth(1970, month))
    ensures var doy := DayOfYear(month, day); var mp := (5 * doy + 2) / 153;
      0 <= doy < 366 && doy - (153 * mp + 2) / 5 + 1 == day && mp + (if mp < 10 then 3 else -9) == month
    ensures DayOfYear(month, day) == 365 <==> month == 2 && day == 29
  {
    hide LeapYear;
    MonthIsOne(month);
  }

  lemma MonthIsOne(month: int)
    requires 1 <= month <= 12
    ensures month == 1 || month == 2 || month == 3 || month == 4 || month == 5 || month == 6 || month == 7 || month == 8
      || month == 9 || month == 10 || month == 11 || month == 12
  {
  }

  lemma MonthLocates(doy: nat)
    requires doy < 366
    ensures var mp := (5 * doy + 2) / 153;
      var day, month := doy - (153 * mp + 2) / 5 + 1, mp + (if mp < 10 then 3 else -9);
      1 <= month <= 12 && 1 <= day <= (if month == 2 then 29 else DaysInMonth(1970, month))
      && DayOfYear(month, day) == doy
  {
  }

  // ---------------------------------------------------------------- the two directions are inverse

  /** A day number as era, year of era and day of year. */
  ghost predicate Placed(days: int, era: int, y: nat, doy: nat) {
    y < 400 && doy < YearLength(y) && days == era * 146_097 + YearStart(y) + doy - 719_468
  }

  lemma Place(days: int) returns (era: int, y: nat, doy: nat)
    ensures Placed(days, era, y, doy)
  {
    var shifted := days + 719_468;
    era := shifted / 146_097;
    var dayOfEra := shifted % 146_097;
    LocateYear(dayOfEra, 0);
    y :| y < 400 && YearStart(y) <= dayOfEra < YearStart(y) + YearLength(y);
    doy := dayOfEra - YearStart(y);
  }

  lemma CivilOfPlaced(days: int, era: int, y: nat, doy: nat)
    requires Placed(days, era, y, doy)
    ensures CivilFromDays(days) == DateInYear(y + era * 400, doy)
  {
    hide YearOfEra, DateInYear;
    YearOfEraInverts(y, doy);
    EraOf(days + 719_468, era, YearStart(y) + doy);
  }

  lemma EraOf(shifted: int, era: int, dayOfEra: nat)
    requires dayOfEra < 146_097 && shifted == era * 146_097 + dayOfEra
    ensures TruncDiv(if shifted >= 0 then shifted else shifted - 146_096, 146_097) == era
  {
    if shifted < 0 {
      assert -(shifted - 146_096) == (-era) * 146_097 + (146_096 - dayOfEra);
    }
  }

  lemma LeapAcrossEras(era: int, y: int)
    ensures LeapYear(y + era * 400) <==> LeapYear(y)
  {
    var year := y + era * 400;
    FourRemainder(y, 100 * era);
    HundredRemainder(y, 4 * era);
    EraRemainder(y, era);
  }

  lemma FourRemainder(y: int, n: int)
    ensures (y + 4 * n) % 4 == y % 4
  {
  }

  lemma HundredRemainder(y: int, n: int)
    ensures (y + 100 * n) % 100 == y % 100
  {
  }

  lemma EraRemainder(y: int, n: int)
    ensures (y + 400 * n) % 400 == y % 400
  {
  }

  /** The year a date belongs to when years begin in March. */
  function MarchYear(date: Date): int { date.year - (if date.month <= 2 then 1 else 0) }

  /** The length of a month, February taken from the March-based year it closes. */
  function MonthLength(y: nat, month: int): int {
    if month == 2 then (if YearLength(y) == 366 then 29 else 28) else DaysInMonth(1970, month)
  }

  /** A date read off era by era: its day number and what makes it real. */
  lemma DateParts(date: Date, era: int, y: nat)
    requires y < 400 && MarchYear(date) == era * 400 + y
    ensures DaysFromCivil(date) == era * 146_097 + YearStart(y) + DayOfYear(date.month, date.day) - 719_468
    ensures DaysInMonth(date.year, date.month) == MonthLength(y, date.month)
    ensures ValidDate(date) <==> 1 <= date.day <= MonthLength(y, date.month)
  {
    assert MarchYear(date) / 400 == era;
    if date.month == 2 {
      assert date.year == (y + 1) + era * 400;
      LeapAcrossEras(era, y + 1);
    }
  }

  lemma EraOfDate(date: Date) returns (era: int, y: nat)
    ensures y < 400 && MarchYear(date) == era * 400 + y
  {
    era, y := MarchYear(date) / 400, MarchYear(date) % 400;
  }

  lemma DayInYear(y: nat, month: int, day: int)
    requires y < 400 && 1 <= day <= MonthLength(y, month)
    ensures 0 <= DayOfYear(month, day) < YearLength(y)
  {
    MonthInverts(month, day);
  }

  lemma CivilParts(days: int, era: int, y: nat, doy: nat)
    requires Placed(days, era, y, doy)
    ensures var date := CivilFromDays(days);
      MarchYear(date) == era * 400 + y && DayOfYear(date.month, date.day) == doy
      && 1 <= date.day <= MonthLength(y, date.month)
  {
    hide CivilFromDays;
    CivilOfPlaced(days, era, y, doy);
    MonthLocates(doy);
    var date := CivilFromDays(days);
    assert 1 <= date.month <= 12;
    assert DayOfYear(date.month, date.day) == doy;
    MonthInverts(date.month, date.day);
  }

  /** For every day number, the date the source prints is a real date with that day number. */
  lemma DaysRoundTrip(days: int)
    ensures ValidDate(CivilFromDays(days))
    ensures DaysFromCivil(CivilFromDays(days)) == days
  {
    var era, y, doy := Place(days);
    CivilParts(days, era, y, doy);
    DateParts(CivilFromDays(days), era, y);
  }

  /** For every real date, the day number the parser computes is printed as that date. */
  lemma DateRoundTrip(date: Date)
    requires ValidDate(date)
    ensures CivilFromDays(DaysFromCivil(date)) == date
  {
    hide CivilFromDays, DaysFromCivil, ValidDate;
    var era, y := EraOfDate(date);
    DateParts(date, era, y);
    DayInYear(y, date.month, date.day);
    var days, doy := DaysFromCivil(date), DayOfYear(date.month, date.day);
    CivilParts(days, era, y, doy);
    var printed := CivilFromDays(days);
    MonthInverts(printed.month, printed.day);
    MonthInverts(date.month, date.day);
  }

  lemma MonthBoundary(y: nat, month: int, day: int)
    requires y < 400 && 1 <= day <= MonthLength(y, month)
    ensures day < MonthLength(y, month) ==> DayOfYear(month, day + 1) == DayOfYear(month, day) + 1
    ensures day == MonthLength(y, month) ==>
      if month == 2 then DayOfYear(month, day) == YearLength(y) - 1 && DayOfYear(3, 1) == 0
      else DayOfYear(if month == 12 then 1 else month + 1, 1) == DayOfYear(month, day) + 1
  {
  }

  /** The calendar's own step is one more day in the source's numbering. */
  lemma NextDayAdvances(date: Date)
    requires ValidDate(date)
    ensures ValidDate(NextDay(date)) && DaysFromCivil(NextDay(date)) == DaysFromCivil(date) + 1
  {
    hide DaysFromCivil, ValidDate, DaysInMonth, DayOfYear, YearStart, LeapYear;
    var next := NextDay(date);
    var era, y := EraOfDate(date);
    DateParts(date, era, y);
    MonthRange(date);
    MonthBoundary(y, date.month, date.day);
    if date.month == 2 && date.day == MonthLength(y, 2) {
      NextYearStart(y);
      var nextEra, nextY := if y < 399 then era else era + 1, if y < 399 then y + 1 else 0;
      DateParts(next, nextEra, nextY);
      FirstOfMonth(nextY, next.month);
      YearZero();
    } else {
      DateParts(next, era, y);
      FirstOfMonth(y, next.month);
    }
  }

  lemma MonthRange(date: Date)
    requires ValidDate(date)
    ensures 1 <= date.month <= 12
  {
  }

  lemma FirstOfMonth(y: nat, month: int)
    requires 1 <= month <= 12
    ensures 1 <= MonthLength(y, month)
  {
  }

  lemma YearZero()
    ensures YearStart(0) == 0
  {
  }

  lemma EpochIsFirst()
    ensures CivilFromDays(0) == Date(1970, 1, 1)
  {
  }

  /** The printed date of day `n` is the one reached from 1 January 1970 by `n` steps of the calendar. */
  lemma {:induction false} PrintsTheCalendar(n: nat)
    ensures CivilFromDays(n) == DateAfterEpoch(n)
  {
    hide CivilFromDays, DaysFromCivil, NextDay, ValidDate;
    if n == 0 {
      EpochIsFirst();
    } else {
      PrintsTheCalendar(n - 1);
      DaysRoundTrip(n - 1);
      NextDayAdvances(CivilFromDays(n - 1));
      DateRoundTrip(NextDay(CivilFromDays(n - 1)));
    }
  }

  lemma {:induction false} LaterDaysAreLater(a: int, k: nat)
    requires k > 0
    ensures Earlier(CivilFromDays(a), CivilFromDays(a + k))
  {
    hide CivilFromDays, DaysFromCivil, ValidDate;
    var before := CivilFromDays(a + k - 1);
    DaysRoundTrip(a + k - 1);
    NextDayAdvances(before);
    DateRoundTrip(NextDay(before));
    if k > 1 {
      LaterDaysAreLater(a, k - 1);
    }
  }

  /** Day numbers and dates are in order-preserving bijection. */
  lemma OrderPreserved(a: Date, b: Date)
    requires ValidDate(a) && ValidDate(b)
    ensures Earlier(a, b) <==> DaysFromCivil(a) < DaysFromCivil(b)
  {
    hide CivilFromDays, DaysFromCivil, ValidDate;
    var i, j := DaysFromCivil(a), DaysFromCivil(b);
    DateRoundTrip(a);
    DateRoundTrip(b);
    if i < j {
      LaterDaysAreLater(i, j - i);
    } else if j < i {
      LaterDaysAreLater(j, i - j);
    }
  }
}
