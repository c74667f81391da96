/** base/Date.cc: Julian day numbers.

    The two conversions are closed integer formulas. They are related here to
    an independent description of the Gregorian calendar (month lengths and
    leap years of section 5.7 and Appendix C of RFC 3339), so that neither
    formula is judged by the other. */
module Dates {
  import opened Common

  datatype YearMonthDay = YearMonthDay(year: int, month: int, day: int)

  function GetJulianDayNumber(year: int, month: int, day: int): int {
    var a := TruncDiv(14 - month, 12);
    var y := year + 4800 - a;
    var m := month + 12 * a - 3;
    day + TruncDiv(153 * m + 2, 5) + y * 365 + TruncDiv(y, 4) - TruncDiv(y, 100) + TruncDiv(y, 400) - 32045
  }

  function GetYearMonthDay(julianDayNumber: int): YearMonthDay {
    var a := julianDayNumber + 32044;
    var b := TruncDiv(4 * a + 3, 146097);
    var c := a - TruncDiv(b * 146097, 4);
    var d := TruncDiv(4 * c + 3, 1461);
    var e := c - TruncDiv(1461 * d, 4);
    var m := TruncDiv(5 * e + 2, 153);
    YearMonthDay(b * 100 + d - 4800 + TruncDiv(m, 10),
                 m + 3 - 12 * TruncDiv(m, 10),
                 e - TruncDiv(153 * m + 2, 5) + 1)
  }

  // ----- The calendar, stated on its own -----

  predicate IsLeap(year: int) {
    year % 4 == 0 && (year % 100 != 0 || year % 400 == 0)
  }

  function DaysInMonth(year: int, month: int): int
    requires 1 <= month <= 12
  {
    if month == 2 then (if IsLeap(year) then 29 else 28)
    else if month == 4 || month == 6 || month == 9 || month == 11 then 30
    else 31
  }

  predicate IsDate(t: YearMonthDay) {
    1 <= t.month <= 12 && 1 <= t.day <= DaysInMonth(t.year, t.month)
  }

  /** The first day the formulas cover is 1 March -4800. */
  predicate Covered(t: YearMonthDay) {
    t.year > -4800 || (t.year == -4800 && t.month >= 3)
  }

  function Successor(t: YearMonthDay): YearMonthDay
    requires IsDate(t)
  {
    if t.day < DaysInMonth(t.year, t.month) then t.(day := t.day + 1)
    else if t.month < 12 then YearMonthDay(t.year, t.month + 1, 1)
    else YearMonthDay(t.year + 1, 1, 1)
  }

  predicate Before(s: YearMonthDay, t: YearMonthDay) {
    s.year < t.year || (s.year == t.year && (s.month < t.month || (s.month == t.month && s.day < t.day)))
  }

  // ----- March-based years: both formulas count from 1 March -4800 -----

  /** Days before March-based month m (0 = March, 11 = February). */
  function MonthStart(m: int): int { (153 * m + 2) / 5 }

  /** Days before March-based year y. */
  function YearStart(y: int): int { 365 * y + y / 4 - y / 100 + y / 400 }

  function CenturyStart(b: int): int { (146097 * b) / 4 }

  function YearInCentury(d: int): int { (1461 * d) / 4 }

  /** The March-based year and month of a date. */
  function MarchYear(t: YearMonthDay): int { if t.month <= 2 then t.year + 4799 else t.year + 4800 }
  function MarchMonth(t: YearMonthDay): int { if t.month <= 2 then t.month + 9 else t.month - 3 }

  lemma JulianFromMarch(t: YearMonthDay)
    requires IsDate(t) && Covered(t)
    ensures MarchYear(t) >= 0 && 0 <= MarchMonth(t) <= 11
    ensures GetJulianDayNumber(t.year, t.month, t.day) + 32044
         == t.day - 1 + MonthStart(MarchMonth(t)) + YearStart(MarchYear(t))
  {
    assert TruncDiv(14 - t.month, 12) == if t.month <= 2 then 1 else 0;
  }

  /** Splitting a March-based year into century and year of the century. */
  lemma YearStartSplit(b: int, d: int)
    requires b >= 0 && 0 <= d < 100
    ensures YearStart(100 * b + d) == CenturyStart(b) + YearInCentury(d)
  {
    var y := 100 * b + d;
    assert y / 100 == b;
    assert y / 4 == 25 * b + d / 4;
    assert y / 400 == b / 4;
    assert CenturyStart(b) == 36524 * b + b / 4;
    assert YearInCentury(d) == 365 * d + d / 4;
  }

  /** Year y ends where year y + 1 starts, and its February is that of calendar year y - 4799. */
  lemma YearLength(y: int)
    requires y >= 0
    ensures YearStart(y + 1) == YearStart(y) + 337 + DaysInMonth(y - 4799, 2)
  {
    NextMultiple(y, 4);
    NextMultiple(y, 100);
    NextMultiple(y, 400);
    MultiplesNest(y + 1);
  }

  lemma MultiplesNest(z: int)
    ensures z % 100 == 0 ==> z % 4 == 0
    ensures z % 400 == 0 ==> z % 100 == 0
  {
    if z % 100 == 0 {
      assert z == 4 * (25 * (z / 100));
      FourDivides(25 * (z / 100));
    }
    if z % 400 == 0 {
      assert z == 100 * (4 * (z / 400));
      HundredDivides(4 * (z / 400));
    }
  }

  lemma FourDivides(k: int)
    ensures (4 * k) % 4 == 0
  {
  }

  lemma HundredDivides(k: int)
    ensures (100 * k) % 100 == 0
  {
  }

  /** A leap rule's period k divides 4800, so shifting the epoch by 4800 years keeps it. */
  lemma NextMultiple(y: int, k: int)
    requires y >= 0 && (k == 4 || k == 100 || k == 400)
    ensures (y - 4799) % k == 0 <==> (y + 1) % k == 0
    ensures (y + 1) / k == y / k + (if (y + 1) % k == 0 then 1 else 0)
  {
    if k == 4 {
      assert (y - 4799) % 4 == (y + 1) % 4;
    } else if k == 100 {
      assert (y - 4799) % 100 == (y + 1) % 100;
    } else {
      assert (y - 4799) % 400 == (y + 1) % 400;
    }
  }

  /** The three divisions of GetYearMonthDay each find the last period that starts no later than the day. */
  lemma CenturyOf(a: int, b: int)
    ensures CenturyStart(b) <= a < CenturyStart(b + 1) <==> b == (4 * a + 3) / 146097
  {
  }

  lemma YearOf(c: int, d: int)
    ensures YearInCentury(d) <= c < YearInCentury(d + 1) <==> d == (4 * c + 3) / 1461
  {
  }

  lemma MonthOf(e: int, m: int)
    ensures MonthStart(m) <= e < MonthStart(m + 1) <==> m == (5 * e + 2) / 153
  {
  }

  /** Month m of March-based year y ends where the next one starts. */
  lemma MonthLength(t: YearMonthDay)
    requires IsDate(t)
    ensures MarchMonth(t) < 11 ==>
              MonthStart(MarchMonth(t) + 1) == MonthStart(MarchMonth(t)) + DaysInMonth(t.year, t.month)
    ensures MarchMonth(t) == 11 ==> t.month == 2 && MonthStart(11) == 337
  {
  }

  /** A century holds at most 36525 days, and its hundredth year is never cut short. */
  lemma YearsFillCentury(b: int, c: int)
    requires b >= 0 && 0 <= c < CenturyStart(b + 1) - CenturyStart(b)
    ensures 0 <= (4 * c + 3) / 1461 < 100
  {
    assert CenturyStart(b + 1) - CenturyStart(b) <= 36525;
  }

  lemma Unfold(a: int, b: int, c: int, d: int, e: int, m: int)
    requires a >= 0 && b >= 0 && c >= 0 && d >= 0 && e >= 0 && m >= 0
    requires b == (4 * a + 3) / 146097 && c == a - CenturyStart(b)
    requires d == (4 * c + 3) / 1461 && e == c - YearInCentury(d)
    requires m == (5 * e + 2) / 153
    ensures GetYearMonthDay(a - 32044)
         == YearMonthDay(b * 100 + d - 4800 + m / 10, m + 3 - 12 * (m / 10), e - MonthStart(m) + 1)
  {
    hide TruncDiv;
    assert b * 146097 == 146097 * b;
  }

  /** Days since 1 March of the date's March-based year. */
  function DayOfYear(t: YearMonthDay): int { t.day - 1 + MonthStart(MarchMonth(t)) }

  lemma DayOfYearBounds(t: YearMonthDay)
    requires IsDate(t) && Covered(t)
    ensures 0 <= DayOfYear(t) < YearStart(MarchYear(t) + 1) - YearStart(MarchYear(t))
    ensures MonthStart(MarchMonth(t)) <= DayOfYear(t) < MonthStart(MarchMonth(t) + 1)
  {
    JulianFromMarch(t);
    MonthLength(t);
    YearLength(MarchYear(t));
    assert MonthStart(12) == 367;
    if MarchMonth(t) < 11 {
      assert MonthStart(MarchMonth(t) + 1) <= MonthStart(11) == 337;
    }
  }

  /** The divisions of GetYearMonthDay recover a March-based year, month and day. */
  lemma Locate(y: int, m: int, e: int)
    requires y >= 0 && 0 <= m <= 11 && 0 <= e < YearStart(y + 1) - YearStart(y)
    requires MonthStart(m) <= e < MonthStart(m + 1)
    ensures GetYearMonthDay(YearStart(y) + e - 32044)
         == YearMonthDay(y - 4800 + m / 10, m + 3 - 12 * (m / 10), e - MonthStart(m) + 1)
    ensures YearStart(y) >= 0
  {
    hide GetYearMonthDay;
    var b, d := y / 100, y % 100;
    YearStartSplit(b, d);
    YearEnd(y);
    var c := e + YearInCentury(d);
    var a := c + CenturyStart(b);
    MonthOf(e, m);
    YearOf(c, d);
    CenturyOf(a, b);
    Unfold(a, b, c, d, e, m);
  }

  /** GetYearMonthDay inverts GetJulianDayNumber on every covered calendar date. */
  lemma DateRoundTrip(t: YearMonthDay)
    requires IsDate(t) && Covered(t)
    ensures GetJulianDayNumber(t.year, t.month, t.day) >= -32044
    ensures GetYearMonthDay(GetJulianDayNumber(t.year, t.month, t.day)) == t
  {
    hide GetYearMonthDay, GetJulianDayNumber;
    JulianFromMarch(t);
    DayOfYearBounds(t);
    Locate(MarchYear(t), MarchMonth(t), DayOfYear(t));
    assert MarchMonth(t) / 10 == if t.month <= 2 then 1 else 0;
  }

  /** The days of March-based year y stay inside its slot of the century, and the century's own. */
  lemma YearEnd(y: int)
    requires y >= 0
    ensures var b, d := y / 100, y % 100;
            var length := YearStart(y + 1) - YearStart(y);
            && length <= YearInCentury(d + 1) - YearInCentury(d)
            && YearInCentury(d) + length <= CenturyStart(b + 1) - CenturyStart(b)
  {
    var b, d := y / 100, y % 100;
    YearStartSplit(b, d);
    if d < 99 {
      assert y + 1 == 100 * b + (d + 1);
      YearStartSplit(b, d + 1);
      assert YearInCentury(d + 1) <= YearInCentury(99) == 36159;
    } else {
      assert y + 1 == 100 * (b + 1) + 0;
      YearStartSplit(b + 1, 0);
    }
  }

  /** Every day number from -32044 on is the number of a covered calendar date. */
  lemma JulianRoundTrip(j: int)
    requires j >= -32044
    ensures var t := GetYearMonthDay(j);
            IsDate(t) && Covered(t) && GetJulianDayNumber(t.year, t.month, t.day) == j
  {
    hide GetYearMonthDay, GetJulianDayNumber, YearStart, MonthStart, YearInCentury, CenturyStart;
    var a := j + 32044;
    var b := (4 * a + 3) / 146097;
    CenturyOf(a, b);
    var c := a - CenturyStart(b);
    YearsFillCentury(b, c);
    var d := (4 * c + 3) / 1461;
    YearOf(c, d);
    var e := c - YearInCentury(d);
    var y := 100 * b + d;
    YearStartSplit(b, d);
    DayInsideYear(b, d, c);
    YearLength(y);
    var m := (5 * e + 2) / 153;
    MonthOf(e, m);
    Unfold(a, b, c, d, e, m);
    var t := GetYearMonthDay(j);
    assert 0 <= m <= 11;
    assert m / 10 == if m >= 10 then 1 else 0;
    MonthDays(t, e, m, y);
    JulianFromMarch(t);
  }

  lemma DayInsideYear(b: int, d: int, c: int)
    requires b >= 0 && 0 <= d < 100
    requires 0 <= c < CenturyStart(b + 1) - CenturyStart(b)
    requires YearInCentury(d) <= c < YearInCentury(d + 1)
    ensures c - YearInCentury(d) < YearStart(100 * b + d + 1) - YearStart(100 * b + d)
  {
    YearStartSplit(b, d);
    if d < 99 {
      YearStartSplit(b, d + 1);
    } else {
      YearStartSplit(b + 1, 0);
      assert 100 * b + d + 1 == 100 * (b + 1) + 0;
    }
  }

  lemma MonthDays(t: YearMonthDay, e: int, m: int, y: int)
    requires 0 <= m <= 11 && y >= 0 && MonthStart(m) <= e < MonthStart(m + 1)
    requires e < 337 + DaysInMonth(y - 4799, 2)
    requires t == YearMonthDay(y - 4800 + (if m >= 10 then 1 else 0),
                               if m >= 10 then m - 9 else m + 3, e - MonthStart(m) + 1)
    ensures IsDate(t) && Covered(t)
  {
    if m == 11 {
      assert t.month == 2 && t.year == y - 4799;
    } else {
      assert IsDate(t.(day := 1));
      MonthLength(t.(day := 1));
    }
  }

  /** The calendar's next day has the next number. */
  lemma SuccessorIsNextNumber(t: YearMonthDay)
    requires IsDate(t) && Covered(t)
    ensures var n := Successor(t);
            && IsDate(n) && Covered(n)
            && GetJulianDayNumber(n.year, n.month, n.day) == GetJulianDayNumber(t.year, t.month, t.day) + 1
  {
    var n := Successor(t);
    hide GetJulianDayNumber, YearStart, MonthStart;
    SuccessorIsDate(t);
    JulianFromMarch(t);
    JulianFromMarch(n);
    if t.day == DaysInMonth(t.year, t.month) {
      NextMonthStarts(t);
    }
  }

  /** The day after the last of a month starts the next March-based month. */
  lemma NextMonthStarts(t: YearMonthDay)
    requires IsDate(t) && Covered(t) && t.day == DaysInMonth(t.year, t.month)
    ensures var n := Successor(t);
            MonthStart(MarchMonth(n)) + YearStart(MarchYear(n))
            == t.day + MonthStart(MarchMonth(t)) + YearStart(MarchYear(t))
  {
    MonthLength(t);
    if t.month == 2 {
      YearLength(MarchYear(t));
      hide YearStart, DaysInMonth;
      assert MonthStart(0) == 0;
    } else {
      hide YearStart, DaysInMonth, MonthStart;
    }
  }

  lemma SuccessorIsDate(t: YearMonthDay)
    requires IsDate(t) && Covered(t)
    ensures IsDate(Successor(t)) && Covered(Successor(t))
  {
  }

  /** Day numbers order dates as the calendar does. */
  lemma {:induction false} OrderIsomorphism(s: YearMonthDay, t: YearMonthDay)
    requires IsDate(s) && Covered(s) && IsDate(t) && Covered(t)
    ensures Before(s, t) <==> GetJulianDayNumber(s.year, s.month, s.day) < GetJulianDayNumber(t.year, t.month, t.day)
  {
    if Before(s, t) {
      EarlierHasSmallerNumber(s, t);
    } else if Before(t, s) {
      EarlierHasSmallerNumber(t, s);
    } else {
      assert s == t;
    }
  }

  lemma {:induction false} EarlierHasSmallerNumber(s: YearMonthDay, t: YearMonthDay)
    requires IsDate(s) && Covered(s) && IsDate(t) && Covered(t) && Before(s, t)
    ensures GetJulianDayNumber(s.year, s.month, s.day) < GetJulianDayNumber(t.year, t.month, t.day)
  {
    hide GetJulianDayNumber, YearStart, MonthStart;
    JulianFromMarch(s);
    JulianFromMarch(t);
    DayOfYearBounds(s);
    DayOfYearBounds(t);
    if MarchYear(s) < MarchYear(t) {
      YearStartMonotone(MarchYear(s) + 1, MarchYear(t));
    } else if MarchMonth(s) < MarchMonth(t) {
      MonthStartMonotone(MarchMonth(s) + 1, MarchMonth(t));
    }
  }

  lemma MonthStartMonotone(m: int, n: int)
    requires m <= n
    ensures MonthStart(m) <= MonthStart(n)
  {
  }

  lemma YearStartMonotone(y: int, z: int)
    requires 0 <= y <= z
    ensures YearStart(y) <= YearStart(z)
    decreases z - y
  {
    if y < z {
      YearLength(y);
      YearStartMonotone(y + 1, z);
    }
  }

  predicate FitsInt32(n: int) { -0x8000_0000 <= n <= 0x7fff_ffff }

  /** The widest intermediate of getYearMonthDay is 4 * a + 3: on day numbers from -32044 the
      computation stays within a 32-bit int exactly when that one does. */
  lemma ConversionFitsInt32(j: int)
    requires j >= -32044
    ensures var a := j + 32044;
            var b := TruncDiv(4 * a + 3, 146097);
            var c := a - TruncDiv(b * 146097, 4);
            var d := TruncDiv(4 * c + 3, 1461);
            var e := c - TruncDiv(1461 * d, 4);
            var m := TruncDiv(5 * e + 2, 153);
            (j <= 536838867 <==>
              && FitsInt32(4 * a + 3) && FitsInt32(b * 146097) && FitsInt32(4 * c + 3)
              && FitsInt32(1461 * d) && FitsInt32(5 * e + 2) && FitsInt32(153 * m + 2) && FitsInt32(b * 100 + d))
  {
    var a := j + 32044;
    var b := (4 * a + 3) / 146097;
    CenturyOf(a, b);
    var c := a - CenturyStart(b);
    YearsFillCentury(b, c);
    var d := (4 * c + 3) / 1461;
    YearOf(c, d);
    var e := c - YearInCentury(d);
    var m := (5 * e + 2) / 153;
    assert CenturyStart(b + 1) - CenturyStart(b) <= 36525;
    assert YearInCentury(d + 1) - YearInCentury(d) <= 366;
    assert b * 146097 <= 4 * a + 3;
  }
}
