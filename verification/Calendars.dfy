/**
 * `Time::toLocalTime` (src/mstime.cc): seconds since 1970 to calendar fields, against a day count in
 * which every fourth year is a leap year, and against the Gregorian calendar.
 */
module Calendars {

  /** The lengths of the months in a common year. */
  const DAYS: seq<int> := [31, 28, 31, 30, 31, 30, 31, 31, 30, 31, 30, 31]

  const WORD32: int := 0x1_0000_0000

  /** Hours in four years. */
  const FOUR_YEARS: int := 1461 * 24

  /** `struct tm`: years since 1900, months from 0, days from 1. */
  datatype Fields = Fields(year: int, mon: int, mday: int, hour: int, min: int, sec: int)

  // ---- the every-fourth-year calendar ----

  predicate Leap(year: int) {
    year % 4 == 0
  }

  function YearLength(year: int): int {
    if Leap(year) then 366 else 365
  }

  function MonthLength(leap: bool, mon: int): int
    requires 0 <= mon < 12
  {
    if leap && mon == 1 then 29 else DAYS[mon]
  }

  /** The days from the start of 1970 to the start of `year`. */
  function BeforeYear(year: int): int {
    365 * (year - 70) + (year - 69) / 4
  }

  /** The days from the start of a year to the start of month `mon`. */
  function BeforeMonth(leap: bool, mon: int): int
    requires 0 <= mon <= 12
  {
    if mon == 0 then 0 else BeforeMonth(leap, mon - 1) + MonthLength(leap, mon - 1)
  }

  predicate InRange(f: Fields) {
    && f.year >= 70 && 0 <= f.mon < 12 && 1 <= f.mday <= MonthLength(Leap(f.year), f.mon)
    && 0 <= f.hour < 24 && 0 <= f.min < 60 && 0 <= f.sec < 60
  }

  function DayNumber(f: Fields): int
    requires InRange(f)
  {
    BeforeYear(f.year) + BeforeMonth(Leap(f.year), f.mon) + f.mday - 1
  }

  function TimeOfDay(f: Fields): int {
    3600 * f.hour + 60 * f.min + f.sec
  }

  /** Back to seconds. */
  function Seconds(f: Fields): int
    requires InRange(f)
  {
    86400 * DayNumber(f) + TimeOfDay(f)
  }

  lemma MonthTable(leap: bool)
    ensures BeforeMonth(leap, 12) == if leap then 366 else 365
    ensures BeforeMonth(false, 2) == 59 && BeforeMonth(false, 11) == 334
    ensures BeforeMonth(leap, 1) == 31 && BeforeMonth(leap, 2) == if leap then 60 else 59
  {
    assert MonthLength(leap, 0) == 31 && MonthLength(leap, 1) == if leap then 29 else 28;
    assert BeforeMonth(leap, 1) == 31;
    assert BeforeMonth(leap, 2) == if leap then 60 else 59;
    assert BeforeMonth(leap, 3) == BeforeMonth(leap, 2) + 31;
    assert BeforeMonth(leap, 5) == BeforeMonth(leap, 3) + 61;
    assert BeforeMonth(leap, 7) == BeforeMonth(leap, 5) + 61;
    assert BeforeMonth(leap, 9) == BeforeMonth(leap, 7) + 61;
    assert BeforeMonth(leap, 11) == BeforeMonth(leap, 9) + 61;
    assert BeforeMonth(leap, 12) == BeforeMonth(leap, 11) + 31;
  }

  /** The days before each month, as an almanac has them. */
  lemma MonthSums(leap: bool, mon: int)
    requires 0 <= mon <= 12
    ensures BeforeMonth(leap, mon) ==
      [0, 31, 59, 90, 120, 151, 181, 212, 243, 273, 304, 334, 365][mon] + if leap && mon >= 2 then 1 else 0
  {
    MonthTable(leap);
    FirstSums(leap);
    LaterSums(leap);
  }

  lemma FirstSums(leap: bool)
    ensures BeforeMonth(leap, 3) == if leap then 91 else 90
    ensures BeforeMonth(leap, 4) == if leap then 121 else 120
    ensures BeforeMonth(leap, 5) == if leap then 152 else 151
    ensures BeforeMonth(leap, 6) == if leap then 182 else 181
  {
    MonthTable(leap);
    assert BeforeMonth(leap, 3) == BeforeMonth(leap, 2) + 31;
    assert BeforeMonth(leap, 4) == BeforeMonth(leap, 3) + 30;
    assert BeforeMonth(leap, 5) == BeforeMonth(leap, 4) + 31;
    assert BeforeMonth(leap, 6) == BeforeMonth(leap, 5) + 30;
  }

  lemma LaterSums(leap: bool)
    ensures BeforeMonth(leap, 7) == if leap then 213 else 212
    ensures BeforeMonth(leap, 8) == if leap then 244 else 243
    ensures BeforeMonth(leap, 9) == if leap then 274 else 273
    ensures BeforeMonth(leap, 10) == if leap then 305 else 304
    ensures BeforeMonth(leap, 11) == if leap then 335 else 334
  {
    FirstSums(leap);
    assert BeforeMonth(leap, 7) == BeforeMonth(leap, 6) + 31;
    assert BeforeMonth(leap, 8) == BeforeMonth(leap, 7) + 31;
    assert BeforeMonth(leap, 9) == BeforeMonth(leap, 8) + 30;
    assert BeforeMonth(leap, 10) == BeforeMonth(leap, 9) + 31;
    assert BeforeMonth(leap, 11) == BeforeMonth(leap, 10) + 30;
  }

  lemma {:induction false} MonthsGrow(leap: bool, a: int, b: int)
    requires 0 <= a < b <= 12
    ensures BeforeMonth(leap, a) + MonthLength(leap, a) <= BeforeMonth(leap, b)
    decreases b
  {
    if a < b - 1 { MonthsGrow(leap, a, b - 1); }
  }

  lemma {:induction false} YearsGrow(a: int, b: int)
    requires 70 <= a < b
    ensures BeforeYear(a) + YearLength(a) <= BeforeYear(b)
    decreases b
  {
    if a < b - 1 { YearsGrow(a, b - 1); }
  }

  lemma {:induction false} LeapShift(mon: int)
    requires 0 <= mon <= 12
    ensures BeforeMonth(true, mon) == BeforeMonth(false, mon) + if mon >= 2 then 1 else 0
  {
    if mon > 0 { LeapShift(mon - 1); }
  }

  // ---- order ----

  predicate EarlierDay(f: Fields, g: Fields) {
    f.year < g.year || (f.year == g.year && (f.mon < g.mon || (f.mon == g.mon && f.mday < g.mday)))
  }

  predicate SameDay(f: Fields, g: Fields) {
    f.year == g.year && f.mon == g.mon && f.mday == g.mday
  }

  /** Lexicographic order, from the year down to the second. */
  predicate Earlier(f: Fields, g: Fields) {
    EarlierDay(f, g) || (SameDay(f, g)
      && (f.hour < g.hour || (f.hour == g.hour && (f.min < g.min || (f.min == g.min && f.sec < g.sec)))))
  }

  lemma DayInYear(f: Fields)
    requires InRange(f)
    ensures BeforeYear(f.year) <= DayNumber(f) < BeforeYear(f.year) + YearLength(f.year)
  {
    MonthTable(Leap(f.year));
    MonthsGrow(Leap(f.year), f.mon, 12);
    if f.mon > 0 { MonthsGrow(Leap(f.year), 0, f.mon); }
  }

  lemma EarlierDayLess(f: Fields, g: Fields)
    requires InRange(f) && InRange(g) && EarlierDay(f, g)
    ensures DayNumber(f) < DayNumber(g)
  {
    if f.year < g.year {
      YearsGrow(f.year, g.year);
      DayInYear(f);
      DayInYear(g);
    } else if f.mon < g.mon {
      MonthsGrow(Leap(f.year), f.mon, g.mon);
    }
  }

  lemma EarlierLess(f: Fields, g: Fields)
    requires InRange(f) && InRange(g) && Earlier(f, g)
    ensures Seconds(f) < Seconds(g)
  {
    if EarlierDay(f, g) { EarlierDayLess(f, g); }
  }

  /** The day count orders calendar fields as they read, and so tells them apart. */
  lemma OrderAgrees(f: Fields, g: Fields)
    requires InRange(f) && InRange(g)
    ensures Seconds(f) < Seconds(g) <==> Earlier(f, g)
    ensures Seconds(f) == Seconds(g) <==> f == g
  {
    if Earlier(f, g) {
      EarlierLess(f, g);
    } else if f != g {
      assert Earlier(g, f);
      EarlierLess(g, f);
    }
  }

  // ---- what toLocalTime promises ----

  /** The years lost where the hours are cut to 32 bits. */
  function LostYears(t: int): int
    requires t >= 0
  {
    4 * (t / 3600 / FOUR_YEARS) - 4 * (t / 3600 % WORD32 / FOUR_YEARS)
  }

  /** `f` names the second `t`, once `lost` years are given back. */
  ghost predicate NamesBut(t: int, f: Fields, lost: int) {
    InRange(f) && lost >= 0 && InRange(f.(year := f.year + lost)) && Seconds(f.(year := f.year + lost)) == t
  }

  ghost predicate Names(t: int, f: Fields) {
    t >= 0 && NamesBut(t, f, LostYears(t))
  }

  lemma NothingLost(t: int, f: Fields, lost: int)
    requires NamesBut(t, f, lost)
    ensures lost == 0 ==> Seconds(f) == t
    ensures lost > 0 ==> Seconds(f) < t
  {
    if lost > 0 { EarlierLess(f, f.(year := f.year + lost)); }
  }

  lemma LostIff(t: int)
    requires t >= 0
    ensures LostYears(t) >= 0 && (LostYears(t) == 0 <==> t / 3600 < WORD32)
    ensures LostYears(t) > 0 ==> t > MARCH_2100
  {
  }

  /** The conversion can be undone exactly if the hours fit in 32 bits. */
  lemma RoundTripIff(t: int, f: Fields)
    ensures Names(t, f) ==> (Seconds(f) == t <==> t / 3600 < 4_294_967_296)
  {
    if Names(t, f) {
      LostIff(t);
      NothingLost(t, f, LostYears(t));
    }
  }

  /** Converting what a valid date's seconds are gives that date again. */
  lemma RoundTripOfDate(f: Fields, g: Fields)
    requires InRange(f)
    ensures Seconds(f) / 3600 < WORD32 && Names(Seconds(f), g) ==> g == f
  {
    if Names(Seconds(f), g) {
      RoundTripIff(Seconds(f), g);
      OrderAgrees(f, g);
    }
  }

  /** A second has one name. */
  lemma NamesUnique(t: int, f: Fields, g: Fields)
    ensures Names(t, f) && Names(t, g) ==> f == g
  {
    if Names(t, f) && Names(t, g) {
      OrderAgrees(f.(year := f.year + LostYears(t)), g.(year := g.year + LostYears(t)));
    }
  }

  /** Later seconds have later fields. */
  lemma StrictlyIncreasing(s: int, f: Fields, t: int, g: Fields)
    requires s < t && t / 3600 < WORD32
    ensures Names(s, f) && Names(t, g) ==> Earlier(f, g)
  {
    if Names(s, f) && Names(t, g) {
      assert s / 3600 <= t / 3600;
      RoundTripIff(s, f);
      RoundTripIff(t, g);
      OrderAgrees(f, g);
    }
  }

  predicate IsFirst(g: Fields) {
    g.year == 70 && g.mon == 0 && g.mday == 1 && TimeOfDay(g) == 0
  }

  lemma ComesOutAsFirst(f: Fields, g: Fields)
    requires InRange(g)
    ensures Names(0, f) && IsFirst(g) ==> f == g
  {
    if Names(0, f) {
      RoundTripIff(0, f);
      OrderAgrees(f, g);
    }
  }

  /** The first second is 1970-01-01 00:00:00. */
  lemma FirstSecond(f: Fields)
    ensures Names(0, f) ==> f == Fields(70, 0, 1, 0, 0, 0)
  {
    ComesOutAsFirst(f, Fields(70, 0, 1, 0, 0, 0));
  }

  /** The first hour count that does not fit starts over in 1970. */
  lemma HoursStartOver(f: Fields)
    ensures Names(3600 * WORD32, f) ==> Seconds(f) != 3600 * WORD32
  {
    RoundTripIff(3600 * WORD32, f);
  }

  // ---- the Gregorian calendar ----

  predicate GregorianLeap(year: int) {
    year % 4 == 0 && (year % 100 != 0 || (year + 300) % 400 == 0)
  }

  predicate ValidDate(f: Fields) {
    0 <= f.mon < 12 && 1 <= f.mday <= MonthLength(GregorianLeap(f.year), f.mon)
  }

  /** "Seconds Since the Epoch", section 4.16 of POSIX.1-2017 Base Definitions. */
  function Posix(f: Fields): int
    requires ValidDate(f)
  {
    var yday := BeforeMonth(GregorianLeap(f.year), f.mon) + f.mday - 1;
    f.sec + f.min * 60 + f.hour * 3600 + yday * 86400 + (f.year - 70) * 31536000
    + ((f.year - 69) / 4) * 86400 - ((f.year - 1) / 100) * 86400 + ((f.year + 299) / 400) * 86400
  }

  /** 2100-03-01 00:00:00 */
  const MARCH_2100: int := 4107542400

  /** The leap days that the century rule has taken away by the date. */
  function Skipped(f: Fields): int {
    (f.year - 1) / 100 - (f.year + 299) / 400 + if Leap(f.year) && !GregorianLeap(f.year) && f.mon >= 2 then 1 else 0
  }

  lemma PosixIsSeconds(f: Fields)
    requires InRange(f) && ValidDate(f)
    ensures Posix(f) == Seconds(f) - 86400 * Skipped(f)
  {
    LeapShift(f.mon);
  }

  predicate IsFebruary29(g: Fields) {
    g.year == 200 && g.mon == 1 && g.mday == 29 && TimeOfDay(g) == 0
  }

  /** The day count puts a 29th of February 2100 where the Gregorian calendar has the first of March. */
  lemma February29(g: Fields)
    requires InRange(g)
    ensures IsFebruary29(g) ==> Seconds(g) == MARCH_2100
  {
    MonthTable(true);
  }

  /** By the day count, the seconds before March 2100 are those up to 2100-02-28. */
  lemma BeforeMarchIff(f: Fields, g: Fields)
    requires InRange(f) && InRange(g)
    ensures IsFebruary29(g) ==>
      (Seconds(f) < MARCH_2100 <==> f.year < 200 || (f.year == 200 && (f.mon < 1 || (f.mon == 1 && f.mday < 29))))
  {
    February29(g);
    OrderAgrees(f, g);
  }

  /** The last date, by the day count, that has a 29th of February the Gregorian calendar does not know, or none. */
  lemma ValidBeforeMarch(f: Fields)
    requires InRange(f)
    ensures f.year < 200 || (f.year == 200 && (f.mon < 1 || (f.mon == 1 && f.mday < 29))) ==> ValidDate(f)
    ensures f.year == 200 && f.mon == 1 && f.mday == 29 ==> !ValidDate(f)
  {
  }

  lemma PosixLags(f: Fields)
    requires InRange(f) && ValidDate(f)
    ensures Posix(f) <= Seconds(f)
    ensures Posix(f) == Seconds(f) <==> f.year < 200 || (f.year == 200 && f.mon < 2)
  {
    PosixIsSeconds(f);
  }

  /** Where the day count's date is a Gregorian one with as many seconds. */
  ghost predicate Agrees(f: Fields, s: int) {
    ValidDate(f) && Posix(f) == s
  }

  lemma AgreesIff(f: Fields, s: int)
    requires InRange(f) && s == Seconds(f)
    ensures Agrees(f, s) <==> f.year < 200 || (f.year == 200 && (f.mon < 1 || (f.mon == 1 && f.mday < 29)))
  {
    ValidBeforeMarch(f);
    if ValidDate(f) { PosixLags(f); }
  }

  lemma AgreesNoLater(f: Fields, s: int, t: int)
    requires InRange(f) && s == Seconds(f) && s < t
    ensures !Agrees(f, t)
  {
    if ValidDate(f) { PosixLags(f); }
  }

  lemma AgreesBeforeMarch(f: Fields, g: Fields)
    requires InRange(f) && InRange(g)
    ensures IsFebruary29(g) ==> (Agrees(f, Seconds(f)) <==> Seconds(f) < MARCH_2100)
  {
    BeforeMarchIff(f, g);
    AgreesIff(f, Seconds(f));
  }

  lemma AgreesIffBeforeMarch(f: Fields)
    requires InRange(f)
    ensures Agrees(f, Seconds(f)) <==> Seconds(f) < MARCH_2100
  {
    AgreesBeforeMarch(f, Fields(200, 1, 29, 0, 0, 0));
  }

  lemma GregorianBut(t: int, f: Fields, lost: int)
    requires NamesBut(t, f, lost) && (lost > 0 ==> t > MARCH_2100)
    ensures Agrees(f, t) <==> t < MARCH_2100
  {
    NothingLost(t, f, lost);
    if lost == 0 {
      AgreesIffBeforeMarch(f);
    } else {
      AgreesNoLater(f, Seconds(f), t);
    }
  }

  /** The fields are a Gregorian date with these seconds since the Epoch exactly for the seconds before March 2100. */
  lemma GregorianIff(t: int, f: Fields)
    ensures Names(t, f) ==> (Agrees(f, t) <==> t < MARCH_2100)
  {
    if Names(t, f) {
      LostIff(t);
      GregorianBut(t, f, LostYears(t));
    }
  }

  lemma ComesOutAsFebruary29(t: int, f: Fields, february29: Fields)
    requires InRange(february29)
    ensures Names(t, f) && t == MARCH_2100 && IsFebruary29(february29) ==> f == february29 && !ValidDate(f)
  {
    if Names(t, f) {
      RoundTripIff(t, f);
      February29(february29);
      OrderAgrees(f, february29);
      ValidBeforeMarch(f);
    }
  }

  /** The first of March 2100 comes out as the 29th of February, a day that does not exist. */
  lemma March2100IsNoDate(f: Fields)
    ensures Names(MARCH_2100, f) ==> f == Fields(200, 1, 29, 0, 0, 0) && !ValidDate(f)
  {
    ComesOutAsFebruary29(MARCH_2100, f, Fields(200, 1, 29, 0, 0, 0));
  }

  // ---- toLocalTime ----

  /** The hours of the first `k` years of a four-year period; the third is the leap year. */
  function HoursBefore(k: int): int {
    24 * (365 * k + if k >= 3 then 1 else 0)
  }

  /** `k` years and `rest` hours into a four-year period, at most three years in. */
  predicate InYear(hours: int, period: int, k: int, rest: int) {
    && 0 <= k <= 3 && 0 <= rest < FOUR_YEARS - HoursBefore(k)
    && hours == FOUR_YEARS * period + HoursBefore(k) + rest
  }

  predicate YearFound(hours: int, period: int, k: int, rest: int) {
    InYear(hours, period, k, rest) && rest < HoursBefore(k + 1) - HoursBefore(k)
  }

  /** The four-year periods are those of the day count. */
  lemma YearFoundIs(hours: int, period: int, k: int, rest: int)
    requires YearFound(hours, period, k, rest)
    ensures hours == 24 * BeforeYear(4 * period + 70 + k) + rest && 0 <= rest < 24 * YearLength(4 * period + 70 + k)
  {
  }

  /** After the month loop has passed `mon` months, `rest` days (from 1) into the month. */
  predicate InMonth(day: int, mon: int, rest: int) {
    0 <= mon < 12 && 1 <= rest && day == BeforeMonth(false, mon) + rest
  }

  lemma NextMonth(day: int, mon: int, rest: int)
    requires InMonth(day, mon, rest) && day <= 365 && rest > DAYS[mon]
    ensures InMonth(day, mon + 1, rest - DAYS[mon])
  {
    assert BeforeMonth(false, mon + 1) == BeforeMonth(false, mon) + MonthLength(false, mon);
    MonthTable(false);
  }

  /** A day after February, in a leap year one later than the month loop is told. */
  lemma DayFound(leap: bool, yday: int, mon: int, mday: int)
    requires 1 <= yday <= (if leap then 366 else 365) && (leap ==> yday != 60)
    requires InMonth(if leap && yday > 60 then yday - 1 else yday, mon, mday) && mday <= DAYS[mon]
    ensures mday <= MonthLength(leap, mon) && yday == BeforeMonth(leap, mon) + mday
  {
    LeapShift(mon);
    MonthOfDay(if leap && yday > 60 then yday - 1 else yday, mon, mday);
    if !leap { assert BeforeMonth(leap, mon) == BeforeMonth(false, mon); }
  }

  lemma MonthOfDay(day: int, mon: int, mday: int)
    requires InMonth(day, mon, mday) && mday <= DAYS[mon]
    ensures mon < 2 <==> day <= 59
  {
    MonthTable(false);
    if mon < 2 { MonthsGrow(false, mon, 2); } else if mon > 2 { MonthsGrow(false, 2, mon); }
  }

  /** The fields found name the second; `pass` is the number of four-year periods as the code computes it. */
  lemma FieldsName(t: int, hours: int, period: int, pass: int, k: int, rest: int, f: Fields)
    requires t >= 0 && hours == t / 3600 && YearFound(hours, period, k, rest)
    requires 0 <= pass <= period && f.year == 4 * pass + 70 + k
    requires f.sec == t % 60 && f.min == t / 60 % 60 && f.hour == rest % 24
    requires 0 <= f.mon < 12 && 1 <= f.mday <= MonthLength(Leap(f.year), f.mon)
    requires rest / 24 + 1 == BeforeMonth(Leap(f.year), f.mon) + f.mday
    ensures NamesBut(t, f, 4 * period - 4 * pass)
  {
    YearFoundIs(hours, period, k, rest);
    var g := f.(year := f.year + 4 * period - 4 * pass);
    assert g.year == 4 * period + 70 + k;
    assert Leap(g.year) == Leap(f.year);
    SecondsFrom(t, rest, g);
  }

  lemma SecondsFrom(t: int, rest: int, g: Fields)
    requires t >= 0 && InRange(g) && t / 3600 == 24 * BeforeYear(g.year) + rest
    requires rest / 24 + 1 == BeforeMonth(Leap(g.year), g.mon) + g.mday
    requires g.sec == t % 60 && g.min == t / 60 % 60 && g.hour == rest % 24
    ensures Seconds(g) == t
  {
    assert t == 60 * (t / 60) + t % 60;
    assert t / 60 == 60 * (t / 60 / 60) + t / 60 % 60;
    assert t / 60 / 60 == t / 3600;
    assert rest == 24 * (rest / 24) + rest % 24;
  }

  /** `struct tm` */
  class Tm {
    var year: int
    var mon: int
    var mday: int
    var hour: int
    var min: int
    var sec: int

    function Value(): Fields
      reads this
    {
      Fields(year, mon, mday, hour, min, sec)
    }
  }

  /** The month loop. */
  method SetMonthAndDay(tm: Tm, second: int)
    requires 1 <= second <= 365
    modifies tm`mon, tm`mday
    ensures InMonth(second, tm.mon, tm.mday) && tm.mday <= DAYS[tm.mon]
  {
    var rest := second;
    tm.mon := 0;
    while DAYS[tm.mon] < rest
      modifies tm`mon
      invariant InMonth(second, tm.mon, rest)
      decreases rest
    {
      NextMonth(second, tm.mon, rest);
      rest := rest - DAYS[tm.mon];
      tm.mon := tm.mon + 1;
    }
    tm.mday := rest;
  }

  /** The year loop, entered with the hours since the start of the four-year period; it turns `k` times. */
  method CountYears(tm: Tm, second: int, ghost hours: int, ghost period: int, ghost pass: int)
    returns (rest: int, ghost k: int)
    requires InYear(hours, period, 0, second) && tm.year == 4 * pass + 70 && pass >= 0
    modifies tm`year
    ensures YearFound(hours, period, k, rest) && tm.year == 4 * pass + 70 + k
  {
    rest, k := second, 0;
    while true
      modifies tm`year
      invariant InYear(hours, period, k, rest) && tm.year == 4 * pass + 70 + k
      decreases rest
    {
      var hoursPerYear := 365 * 24;
      if tm.year % 4 == 0 {
        hoursPerYear := hoursPerYear + 24;
      }
      if rest < hoursPerYear {
        break;
      }
      tm.year := tm.year + 1;
      rest := rest - hoursPerYear;
      k := k + 1;
    }
  }

  /** The year, from the hours since 1970; what is left are hours into the year. */
  method SetYear(tm: Tm, hours: int) returns (rest: int, ghost k: int)
    requires hours >= 0
    modifies tm`year
    ensures YearFound(hours, hours / FOUR_YEARS, k, rest)
    ensures tm.year == 4 * (hours % WORD32 / FOUR_YEARS) + 70 + k
  {
    var pass4year := hours % WORD32 / FOUR_YEARS;
    tm.year := 4 * pass4year + 70;
    rest, k := CountYears(tm, hours % FOUR_YEARS, hours, hours / FOUR_YEARS, pass4year);
  }

  /** From the day of the year, counted from 0, to the month and the day of the month. */
  method SetDate(tm: Tm, day: int)
    requires 0 <= day < YearLength(tm.year)
    modifies tm`mon, tm`mday
    ensures 0 <= tm.mon < 12 && 1 <= tm.mday <= MonthLength(Leap(tm.year), tm.mon)
    ensures day + 1 == BeforeMonth(Leap(tm.year), tm.mon) + tm.mday
  {
    var second := day + 1;
    if tm.year % 4 == 0 {
      if second > 60 {
        second := second - 1;
      } else if second == 60 {
        tm.mon := 1;
        tm.mday := 29;
        MonthTable(true);
        return;
      }
    }
    SetMonthAndDay(tm, second);
    DayFound(Leap(tm.year), day + 1, tm.mon, tm.mday);
  }

  /** Seconds and minutes; what is left are hours. */
  method SetMinutes(tm: Tm, t: int) returns (hours: int)
    requires t >= 0
    modifies tm`sec, tm`min
    ensures tm.sec == t % 60 && tm.min == t / 60 % 60 && hours == t / 3600
  {
    var second := t;
    tm.sec := second % 60;
    second := second / 60;
    tm.min := second % 60;
    hours := second / 60;
  }

  /** Everything from the hours since 1970. */
  method SetDay(tm: Tm, hours: int) returns (ghost rest: int, ghost k: int)
    requires hours >= 0
    modifies tm`year, tm`mon, tm`mday, tm`hour
    ensures YearFound(hours, hours / FOUR_YEARS, k, rest)
    ensures tm.year == 4 * (hours % WORD32 / FOUR_YEARS) + 70 + k && tm.hour == rest % 24
    ensures 0 <= tm.mon < 12 && 1 <= tm.mday <= MonthLength(Leap(tm.year), tm.mon)
    ensures rest / 24 + 1 == BeforeMonth(Leap(tm.year), tm.mon) + tm.mday
  {
    var second;
    second, k := SetYear(tm, hours);
    rest := second;
    tm.hour := second % 24;
    SetDate(tm, second / 24);
  }

  /** The fields of a second that is not before 1970. */
  method SetFields(tm: Tm, second: int)
    requires second >= 0
    modifies tm
    ensures Names(second, tm.Value())
  {
    var hours := SetMinutes(tm, second);
    ghost var rest, k := SetDay(tm, hours);
    LostIff(second);
    FieldsName(second, hours, hours / FOUR_YEARS, hours % WORD32 / FOUR_YEARS, k, rest, tm.Value());
  }

  /** `timezone` is in seconds west of Greenwich; what would be before 1970 becomes its first second. */
  method ToLocalTime(seconds: int, timezone: int, tm: Tm)
    modifies tm
    ensures seconds >= timezone ==> Names(seconds - timezone, tm.Value())
    ensures seconds < timezone ==> tm.Value() == Fields(70, 0, 1, 0, 0, 0)
  {
    var second := seconds - timezone;
    if second < 0 {
      second := 0;
    }
    SetFields(tm, second);
    if second == 0 { FirstSecond(tm.Value()); }
  }
}
