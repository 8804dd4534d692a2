/** The calendar arithmetic behind `Retry-After` dates
    (crates/provider-core/src/errors.rs) against a day count that walks years and months. */
module Civil {
  datatype Date = Date(year: int, month: int, day: int)

  predicate Leap(y: int) {
    y % 4 == 0 && (y % 100 != 0 || y % 400 == 0)
  }

  function MonthDays(y: int, m: int): nat
    requires 1 <= m <= 12
  {
    if m == 2 then (if Leap(y) then 29 else 28)
    else if m in {4, 6, 9, 11} then 30
    else 31
  }

  predicate Valid(d: Date) {
    1 <= d.month <= 12 && 1 <= d.day <= MonthDays(d.year, d.month)
  }

  // ---- the count: one year, then one month, at a time ----

  function DaysBeforeYear(y: int): nat
    requires y >= 1970
  {
    if y == 1970 then 0 else DaysBeforeYear(y - 1) + (if Leap(y - 1) then 366 else 365)
  }

  function DaysBeforeMonth(y: int, m: int): nat
    requires 1 <= m <= 12
    decreases m
  {
    if m == 1 then 0 else DaysBeforeMonth(y, m - 1) + MonthDays(y, m - 1)
  }

  function DayCount(d: Date): nat
    requires Valid(d) && d.year >= 1970
  {
    DaysBeforeYear(d.year) + DaysBeforeMonth(d.year, d.month) + d.day - 1
  }

  // ---- the formula ----

  /** Signed division, truncating toward zero. */
  function Quot(a: int, b: int): int
    requires b > 0
  {
    if a >= 0 then a / b else -(-a / b)
  }

  /** `days_from_civil`: years begin in March, grouped in eras of 400. */
  function DaysFromCivil(y: int, m: int, d: int): int {
    var y2 := y - (if m <= 2 then 1 else 0);
    var era := Quot(if y2 >= 0 then y2 else y2 - 399, 400);
    var yoe := y2 - era * 400;
    var doy := Quot(153 * (m + if m > 2 then -3 else 9) + 2, 5) + d - 1;
    var doe := yoe * 365 + Quot(yoe, 4) - Quot(yoe, 100) + doy;
    era * 146097 + doe - 719468
  }

  /** Days before March of year `y`, up to a constant. */
  function MarchDays(y: int): int {
    365 * y + y / 4 - y / 100 + y / 400
  }

  lemma EraIsFloor(y: int)
    ensures Quot(if y >= 0 then y else y - 399, 400) == y / 400
  {
    if y < 0 {
      var q, r := (399 - y) / 400, (399 - y) % 400;
      assert y == -q * 400 + (399 - r);
    }
  }

  lemma EraSplit(y: int)
    ensures var e := y / 400; var o := y - e * 400;
      0 <= o < 400 && o / 4 == y / 4 - 100 * e && o / 100 == y / 100 - 4 * e
  {
  }

  lemma Flattened(y: int, m: int, d: int)
    requires 1 <= m <= 12
    ensures
      var y2 := y - (if m <= 2 then 1 else 0);
      DaysFromCivil(y, m, d) == MarchDays(y2) + (153 * (m + if m > 2 then -3 else 9) + 2) / 5 + d - 1 - 719468
  {
    var y2 := y - (if m <= 2 then 1 else 0);
    EraIsFloor(y2);
    EraSplit(y2);
  }

  lemma MarchStep(y: int)
    ensures MarchDays(y) == MarchDays(y - 1) + if Leap(y) then 366 else 365
  {
    FourStep(y);
    HundredStep(y);
    FourHundredStep(y);
    LeapParts(y);
    assert MarchDays(y) - MarchDays(y - 1)
           == 365 + (y / 4 - (y - 1) / 4) - (y / 100 - (y - 1) / 100) + (y / 400 - (y - 1) / 400);
  }

  lemma FourStep(y: int)
    ensures y / 4 == (y - 1) / 4 + if y % 4 == 0 then 1 else 0
  {
    var q, r := (y - 1) / 4, (y - 1) % 4;
    assert y == 4 * q + r + 1;
  }

  lemma HundredStep(y: int)
    ensures y / 100 == (y - 1) / 100 + if y % 100 == 0 then 1 else 0
  {
    var q, r := (y - 1) / 100, (y - 1) % 100;
    assert y == 100 * q + r + 1;
  }

  lemma FourHundredStep(y: int)
    ensures y / 400 == (y - 1) / 400 + if y % 400 == 0 then 1 else 0
  {
    var q, r := (y - 1) / 400, (y - 1) % 400;
    assert y == 400 * q + r + 1;
  }

  lemma LeapParts(y: int)
    ensures y % 400 == 0 ==> y % 100 == 0
    ensures y % 100 == 0 ==> y % 4 == 0
  {
    if y % 400 == 0 {
      var q := y / 400;
      assert y == 400 * q;
      HundredOf(y, 4 * q);
    }
    if y % 100 == 0 {
      var q := y / 100;
      assert y == 100 * q;
      FourOf(y, 25 * q);
    }
  }

  lemma HundredOf(y: int, k: int)
    requires y == 100 * k
    ensures y % 100 == 0
  {
  }

  lemma FourOf(y: int, k: int)
    requires y == 4 * k
    ensures y % 4 == 0
  {
  }

  /** Across a month, the formula moves by exactly that month's length. */
  lemma MonthStep(y: int, m: int, d: int)
    requires 1 <= m < 12
    ensures DaysFromCivil(y, m + 1, d) == DaysFromCivil(y, m, d) + MonthDays(y, m)
  {
    hide DaysFromCivil, MarchDays, Leap;
    Flattened(y, m, d);
    Flattened(y, m + 1, d);
    if m == 2 { MarchStep(y); }
  }

  /** Across New Year, the formula moves by December's length. */
  lemma YearStep(y: int, d: int)
    ensures DaysFromCivil(y + 1, 1, d) == DaysFromCivil(y, 12, d) + 31
  {
    Flattened(y, 12, d);
    Flattened(y + 1, 1, d);
  }

  lemma {:induction false} MonthsCount(y: int, m: int, d: int)
    requires 1 <= m <= 12
    ensures DaysFromCivil(y, m, d) == DaysFromCivil(y, 1, d) + DaysBeforeMonth(y, m)
    decreases m
  {
    hide DaysFromCivil, MonthDays;
    if m > 1 {
      MonthsCount(y, m - 1, d);
      MonthStep(y, m - 1, d);
    }
  }

  lemma {:induction false} YearsCount(y: int, d: int)
    requires y >= 1970
    ensures DaysFromCivil(y, 1, d) == DaysBeforeYear(y) + d - 1
    decreases y
  {
    if y > 1970 {
      hide DaysFromCivil;
      YearsCount(y - 1, d);
      MonthsCount(y - 1, 12, d);
      YearStep(y - 1, d);
      YearLength(y - 1);
    }
  }

  lemma YearLength(y: int)
    ensures DaysBeforeMonth(y, 12) + 31 == if Leap(y) then 366 else 365
  {
    assert DaysBeforeMonth(y, 4) == DaysBeforeMonth(y, 2) + MonthDays(y, 2) + 31;
    assert DaysBeforeMonth(y, 8) == DaysBeforeMonth(y, 4) + 122;
    assert DaysBeforeMonth(y, 12) == DaysBeforeMonth(y, 8) + 122;
  }

  /** From 1970 on, the closed formula is the day count. */
  lemma FormulaCounts(d: Date)
    requires Valid(d) && d.year >= 1970
    ensures DaysFromCivil(d.year, d.month, d.day) == DayCount(d)
  {
    MonthsCount(d.year, d.month, d.day);
    YearsCount(d.year, d.day);
  }

  // ---- the calendar is a bijection with the days ----

  predicate Before(a: Date, b: Date) {
    || a.year < b.year
    || (a.year == b.year && (a.month < b.month || (a.month == b.month && a.day < b.day)))
  }

  lemma {:induction false} MonthsGrow(y: int, m: int, n: int)
    requires 1 <= m < n <= 12
    ensures DaysBeforeMonth(y, m) + MonthDays(y, m) <= DaysBeforeMonth(y, n)
    decreases n
  {
    if m < n - 1 { MonthsGrow(y, m, n - 1); }
  }

  lemma {:induction false} YearsGrow(y: int, z: int)
    requires 1970 <= y < z
    ensures DaysBeforeYear(y) + (if Leap(y) then 366 else 365) <= DaysBeforeYear(z)
    decreases z
  {
    if y < z - 1 { YearsGrow(y, z - 1); }
  }

  /** A later date has a strictly larger count, and only a later date has. */
  lemma OrderKept(a: Date, b: Date)
    requires Valid(a) && Valid(b) && a.year >= 1970 && b.year >= 1970
    ensures Before(a, b) <==> DayCount(a) < DayCount(b)
    ensures a == b <==> DayCount(a) == DayCount(b)
  {
    if Before(a, b) { LaterIsMore(a, b); }
    if Before(b, a) { LaterIsMore(b, a); }
  }

  lemma LaterIsMore(a: Date, b: Date)
    requires Valid(a) && Valid(b) && a.year >= 1970 && b.year >= 1970 && Before(a, b)
    ensures DayCount(a) < DayCount(b)
  {
    var december := MonthDays(a.year, 12);
    assert december == 31;
    hide DaysBeforeYear, DaysBeforeMonth, MonthDays;
    if a.year < b.year {
      YearsGrow(a.year, b.year);
      YearLength(a.year);
      if a.month < 12 {
        MonthsGrow(a.year, a.month, 12);
      }
    } else if a.month < b.month {
      MonthsGrow(a.year, a.month, b.month);
    }
  }

  function Tomorrow(d: Date): Date
    requires Valid(d)
  {
    if d.day < MonthDays(d.year, d.month) then d.(day := d.day + 1)
    else if d.month < 12 then Date(d.year, d.month + 1, 1)
    else Date(d.year + 1, 1, 1)
  }

  /** One calendar day is one count, for every year, before 1970 too. */
  lemma TomorrowIsNext(d: Date)
    requires Valid(d)
    ensures Valid(Tomorrow(d))
    ensures
      var t := Tomorrow(d);
      DaysFromCivil(t.year, t.month, t.day) == DaysFromCivil(d.year, d.month, d.day) + 1
  {
    hide DaysFromCivil;
    Shift(d.year, d.month, d.day);
    if d.day == MonthDays(d.year, d.month) {
      if d.month < 12 { MonthStep(d.year, d.month, 1); } else { YearStep(d.year, 1); }
    }
  }

  lemma Shift(y: int, m: int, d: int)
    ensures DaysFromCivil(y, m, d + 1) == DaysFromCivil(y, m, d) + 1
    ensures DaysFromCivil(y, m, d) == DaysFromCivil(y, m, 1) + d - 1
  {
  }

  /** Every day from 1970-01-01 on is the count of a date (of one date only, by `OrderKept`). */
  lemma {:induction false} EveryDay(n: nat)
    ensures exists d: Date :: Valid(d) && d.year >= 1970 && DayCount(d) == n
  {
    var epoch := Date(1970, 1, 1);
    assert Valid(epoch) && DayCount(epoch) == 0;
    hide DayCount, DaysFromCivil;
    if n > 0 {
      EveryDay(n - 1);
      var d: Date :| Valid(d) && d.year >= 1970 && DayCount(d) == n - 1;
      TomorrowIsNext(d);
      FormulaCounts(d);
      FormulaCounts(Tomorrow(d));
    }
  }

  // ---- seconds ----

  datatype Stamp = Stamp(date: Date, hour: nat, minute: nat, second: nat)

  /** A second of 60 is the leap second that section 5.6.7 of RFC 9110 allows. */
  predicate Clock(t: Stamp) {
    t.hour < 24 && t.minute < 60 && t.second <= 60
  }

  function SecondsOf(t: Stamp): int {
    DaysFromCivil(t.date.year, t.date.month, t.date.day) * 86400 + t.hour * 3600 + t.minute * 60 + t.second
  }

  predicate Earlier(a: Stamp, b: Stamp) {
    || Before(a.date, b.date)
    || (a.date == b.date
        && (a.hour < b.hour
            || (a.hour == b.hour && (a.minute < b.minute || (a.minute == b.minute && a.second < b.second)))))
  }

  /** Time order is kept, strictly unless the earlier stamp is a leap second. */
  lemma SecondsOrdered(a: Stamp, b: Stamp)
    requires Valid(a.date) && Valid(b.date) && a.date.year >= 1970 && b.date.year >= 1970
    requires Clock(a) && Clock(b) && Earlier(a, b)
    ensures SecondsOf(a) <= SecondsOf(b)
    ensures a.second < 60 ==> SecondsOf(a) < SecondsOf(b)
  {
    FormulaCounts(a.date);
    FormulaCounts(b.date);
    hide DaysFromCivil, DayCount, Valid;
    if Before(a.date, b.date) {
      LaterIsMore(a.date, b.date);
    }
  }

  /** Four-digit years from 1970 on stay far inside the 64-bit range the source computes in. */
  lemma FitsWord(t: Stamp)
    requires Valid(t.date) && 1970 <= t.date.year <= 9999 && Clock(t)
    ensures SecondsOf(t) == DayCount(t.date) * 86400 + t.hour * 3600 + t.minute * 60 + t.second
    ensures 0 <= SecondsOf(t) < 0x100_0000_0000
  {
    FormulaCounts(t.date);
    Flattened(t.date.year, t.date.month, t.date.day);
    hide DaysFromCivil;
  }
}
