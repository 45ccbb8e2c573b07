/** Calendar arithmetic and timestamps (crates/engine/src/time_fmt.rs; the same code stands in
    crates/engine/src/breadcrumb.rs and crates/engine/src/usage_metrics.rs). */
module Calendar {
  datatype Date = Date(year: int, month: nat, day: nat)

  // ------------------------------------------------- the proleptic Gregorian calendar

  predicate IsLeap(y: int) { y % 4 == 0 && (y % 100 != 0 || y % 400 == 0) }

  function DaysIn(y: int, m: nat): nat {
    if m == 2 then (if IsLeap(y) then 29 else 28)
    else if m == 4 || m == 6 || m == 9 || m == 11 then 30
    else 31
  }

  predicate Valid(d: Date) {
    1 <= d.month <= 12 && 1 <= d.day <= DaysIn(d.year, d.month)
  }

  function Successor(d: Date): Date {
    if d.day < DaysIn(d.year, d.month) then d.(day := d.day + 1)
    else if d.month < 12 then Date(d.year, d.month + 1, 1)
    else Date(d.year + 1, 1, 1)
  }

  predicate Earlier(a: Date, b: Date) {
    a.year < b.year
    || (a.year == b.year && (a.month < b.month || (a.month == b.month && a.day < b.day)))
  }

  // ------------------------------------------------------------- the algorithm

  // Integer division that truncates toward zero.
  function Quotient(a: int, b: int): int
    requires b > 0
  {
    if a >= 0 then a / b else -((-a) / b)
  }

  function Era(z: int): int { Quotient(if z >= 0 then z else z - 146096, 146097) }

  function YearOfEra(doe: int): int { (doe - doe / 1460 + doe / 36524 - doe / 146096) / 365 }

  // The date a number of days after 1 January 1970.
  function DaysToCivil(days: int): Date {
    var z := days + 719468;
    var era := Era(z);
    var doe := z - era * 146097;
    EraLemma(z);
    var yoe := YearOfEra(doe);
    YearOfEraLemma(doe);
    var y := yoe + era * 400;
    var doy := doe - (365 * yoe + yoe / 4 - yoe / 100);
    var mp := (5 * doy + 2) / 153;
    MonthLemma(doy);
    var d := doy - (153 * mp + 2) / 5 + 1;
    var m := if mp < 10 then mp + 3 else mp - 9;
    Date(if m <= 2 then y + 1 else y, m, d)
  }

  lemma EraLemma(z: int)
    ensures Era(z) == z / 146097
    ensures 0 <= z - Era(z) * 146097 < 146097
  {
  }

  // ------------------------------------------------- years that begin in March

  // Days of the era before its year `yoe`.
  function YearStart(yoe: int): int { 365 * yoe + yoe / 4 - yoe / 100 }

  predicate LongYear(yoe: int) { (yoe % 4 == 3 && yoe % 100 != 99) || yoe == 399 }

  function YearEnd(yoe: int): int { YearStart(yoe) + if LongYear(yoe) then 366 else 365 }

  // Day `t` of the `q`-th four-year cycle of century `c`.
  lemma YearInCycle(doe: int, c: int, q: int, t: int)
    requires doe == 36524 * c + 1461 * q + t && 0 <= c <= 3 && 0 <= q <= 24 && 0 <= t <= 1460
    requires 1461 * q + t < 36524 && doe < 146096
    ensures YearOfEra(doe) == 100 * c + 4 * q + (if t == 1460 then 3 else t / 365)
  {
    var k := (q + t + 24 * c) / 1460;
    assert doe / 1460 == 25 * c + q + k;
    assert doe / 36524 == c && doe / 146096 == 0;
    var u := if t == 1460 then 3 else t / 365;
    assert (t - k) / 365 == u && 0 <= u <= 3;
    assert doe - doe / 1460 + c == 365 * (100 * c + 4 * q) + (t - k);
  }

  lemma YearOfEraLemma(doe: int)
    requires 0 <= doe < 146097
    ensures 0 <= YearOfEra(doe) <= 399
    ensures YearStart(YearOfEra(doe)) <= doe < YearEnd(YearOfEra(doe))
  {
    if doe < 146096 {
      var c := doe / 36524;
      var r := doe - 36524 * c;
      var q, t := r / 1461, r % 1461;
      YearInCycle(doe, c, q, t);
      CycleYear(doe, c, q, t);
    }
  }

  lemma CycleYear(doe: int, c: int, q: int, t: int)
    requires doe == 36524 * c + 1461 * q + t && 0 <= c <= 3 && 0 <= q <= 24 && 0 <= t <= 1460
    requires 1461 * q + t < 36524
    ensures var y := 100 * c + 4 * q + (if t == 1460 then 3 else t / 365);
            0 <= y <= 399 && YearStart(y) <= doe < YearEnd(y)
  {
    var u := if t == 1460 then 3 else t / 365;
    var y := 100 * c + 4 * q + u;
    assert y / 4 == 25 * c + q && y / 100 == c;
    assert y % 4 == u && y % 100 == 4 * q + u;
  }

  lemma YearsApart(a: int, b: int)
    requires 0 <= a < b <= 399
    ensures YearEnd(a) <= YearStart(b)
  {
  }

  lemma YearOfEraIs(doe: int, yoe: int)
    requires 0 <= yoe <= 399 && YearStart(yoe) <= doe < YearEnd(yoe) && 0 <= doe < 146097
    ensures YearOfEra(doe) == yoe
  {
    YearOfEraLemma(doe);
    if YearOfEra(doe) < yoe { YearsApart(YearOfEra(doe), yoe); }
    if yoe < YearOfEra(doe) { YearsApart(yoe, YearOfEra(doe)); }
  }

  function MonthStart(mp: int): int { (153 * mp + 2) / 5 }

  lemma MonthLemma(doy: int)
    requires 0 <= doy <= 365
    ensures 0 <= (5 * doy + 2) / 153 <= 11
    ensures MonthStart((5 * doy + 2) / 153) <= doy < MonthStart((5 * doy + 2) / 153 + 1)
  {
  }

  // The date of day `doy` of the year `yoe` of era `era`, years beginning in March.
  function FromMarch(era: int, yoe: int, doy: int): Date
    requires 0 <= doy <= 365
  {
    MonthLemma(doy);
    var mp := (5 * doy + 2) / 153;
    var m: nat := if mp < 10 then mp + 3 else mp - 9;
    Date(yoe + era * 400 + (if m <= 2 then 1 else 0), m, doy - MonthStart(mp) + 1)
  }

  // The date of day `doe` of era `era`.
  function OfEra(era: int, doe: int): Date
    requires 0 <= doe < 146097
  {
    var yoe := YearOfEra(doe);
    YearOfEraLemma(doe);
    FromMarch(era, yoe, doe - YearStart(yoe))
  }

  lemma DayOf(days: int)
    ensures var z := days + 719468; DaysToCivil(days) == OfEra(z / 146097, z % 146097)
  {
    EraLemma(days + 719468);
    hide YearOfEra, Era;
  }

  lemma LeapYear(era: int, yoe: int)
    requires 0 <= yoe <= 399
    ensures IsLeap(yoe + era * 400 + 1) <==> LongYear(yoe)
  {
    Modulo4(100 * era, yoe + 1);
    Modulo100(4 * era, yoe + 1);
    Modulo400(era, yoe + 1);
    LeapInEra(yoe);
  }

  lemma Modulo4(k: int, a: int)
    ensures (4 * k + a) % 4 == a % 4
  {
  }

  lemma Modulo100(k: int, a: int)
    ensures (100 * k + a) % 100 == a % 100
  {
  }

  lemma Modulo400(k: int, a: int)
    ensures (400 * k + a) % 400 == a % 400
  {
  }

  lemma LeapInEra(yoe: int)
    requires 0 <= yoe <= 399
    ensures IsLeap(yoe + 1) <==> LongYear(yoe)
  {
    assert (yoe + 1) % 4 == 0 <==> yoe % 4 == 3;
    assert (yoe + 1) % 100 == 0 <==> yoe % 100 == 99;
    assert (yoe + 1) % 400 == 0 <==> yoe == 399;
  }

  lemma MarchValid(era: int, yoe: int, doy: int)
    requires 0 <= yoe <= 399 && 0 <= doy < YearEnd(yoe) - YearStart(yoe)
    ensures Valid(FromMarch(era, yoe, doy))
  {
    MonthLemma(doy);
    LeapYear(era, yoe);
    hide IsLeap;
  }

  lemma MarchNext(era: int, yoe: int, doy: int)
    requires 0 <= yoe <= 399 && 0 <= doy && doy + 1 < YearEnd(yoe) - YearStart(yoe)
    ensures FromMarch(era, yoe, doy + 1) == Successor(FromMarch(era, yoe, doy))
  {
    MonthLemma(doy);
    MonthLemma(doy + 1);
    LeapYear(era, yoe);
    hide IsLeap;
  }

  lemma MarchNewYear(era: int, yoe: int, era2: int, yoe2: int)
    requires 0 <= yoe <= 399 && yoe2 + era2 * 400 == yoe + era * 400 + 1
    ensures var last := YearEnd(yoe) - YearStart(yoe) - 1;
            FromMarch(era2, yoe2, 0) == Successor(FromMarch(era, yoe, last))
  {
    LeapYear(era, yoe);
    hide IsLeap;
  }

  // ------------------------------------------------------------- the walk

  lemma Epoch()
    ensures DaysToCivil(0) == Date(1970, 1, 1)
  {
    assert Era(719468) == 4;
    assert YearOfEra(135080) == 369 by { YearInCycle(135080, 3, 17, 671); }
    assert 369 / 4 == 92 && 369 / 100 == 3;
    hide Era, YearOfEra;
  }

  lemma CivilValid(days: int)
    ensures Valid(DaysToCivil(days))
  {
    DayOf(days);
    hide OfEra, DaysToCivil, Valid;
    OfEraValid((days + 719468) / 146097, (days + 719468) % 146097);
  }

  lemma OfEraValid(era: int, doe: int)
    requires 0 <= doe < 146097
    ensures Valid(OfEra(era, doe))
  {
    YearOfEraLemma(doe);
    hide YearOfEra, YearStart, LongYear, Valid, FromMarch;
    MarchValid(era, YearOfEra(doe), doe - YearStart(YearOfEra(doe)));
  }

  // One day later is the next date of the calendar, for every day before and after the epoch.
  lemma CivilSuccessor(days: int)
    ensures DaysToCivil(days + 1) == Successor(DaysToCivil(days))
  {
    DayOf(days);
    DayOf(days + 1);
    var z := days + 719468;
    hide OfEra, DaysToCivil, Successor;
    ShiftByOne(days);
    MarchStep(z / 146097, z % 146097);
  }

  lemma ShiftByOne(days: int)
    ensures days + 1 + 719468 == days + 719468 + 1
    ensures var z := days + 719468;
            if z % 146097 < 146096 then (z + 1) / 146097 == z / 146097 && (z + 1) % 146097 == z % 146097 + 1
            else (z + 1) / 146097 == z / 146097 + 1 && (z + 1) % 146097 == 0
  {
  }

  lemma MarchStep(era: int, doe: int)
    requires 0 <= doe < 146097
    ensures (if doe < 146096 then OfEra(era, doe + 1) else OfEra(era + 1, 0)) == Successor(OfEra(era, doe))
  {
    hide *;
    var yoe := YearOfEra(doe);
    YearOfEraLemma(doe);
    EraBounds();
    InYear(era, doe, yoe);
    if doe + 1 < YearEnd(yoe) {
      if yoe < 399 { EndsBefore(yoe); }
      InYear(era, doe + 1, yoe);
      MarchNext(era, yoe, doe - YearStart(yoe));
    } else if yoe < 399 {
      Consecutive(yoe);
      EndsBefore(yoe);
      InYear(era, doe + 1, yoe + 1);
      MarchNewYear(era, yoe, era, yoe + 1);
    } else {
      InYear(era + 1, 0, 0);
      MarchNewYear(era, yoe, era + 1, 0);
    }
  }

  lemma EraBounds()
    ensures YearEnd(399) == 146097 && YearStart(0) == 0 && YearEnd(0) == 365
  {
    assert 399 / 4 == 99 && 399 / 100 == 3;
    assert 0 / 4 == 0 && 0 / 100 == 0 && 0 % 4 == 0;
  }

  lemma InYear(era: int, doe: int, yoe: int)
    requires 0 <= yoe <= 399 && YearStart(yoe) <= doe < YearEnd(yoe) && 0 <= doe < 146097
    ensures 0 <= doe - YearStart(yoe) <= 365 && OfEra(era, doe) == FromMarch(era, yoe, doe - YearStart(yoe))
  {
    YearOfEraIs(doe, yoe);
    hide FromMarch, YearOfEra, YearStart, LongYear;
  }

  lemma EndsBefore(yoe: int)
    requires 0 <= yoe < 399
    ensures YearEnd(yoe) < 146097
  {
    YearsApart(yoe, 399);
  }

  lemma Consecutive(yoe: int)
    requires 0 <= yoe < 399
    ensures YearEnd(yoe) == YearStart(yoe + 1) && YearStart(yoe + 1) < YearEnd(yoe + 1)
  {
    assert (yoe + 1) / 4 == yoe / 4 + if yoe % 4 == 3 then 1 else 0;
    assert (yoe + 1) / 100 == yoe / 100 + if yoe % 100 == 99 then 1 else 0;
    assert yoe % 100 == 99 ==> yoe % 4 == 3;
  }

  // ------------------------------------------------------------- counting back

  // Days from 1 January of year 1 to 1 January of year `y`.
  function DaysBeforeYear(y: int): int { 365 * (y - 1) + (y - 1) / 4 - (y - 1) / 100 + (y - 1) / 400 }

  function DaysBeforeMonth(y: int, m: nat): int {
    if m <= 1 then 0 else DaysBeforeMonth(y, m - 1) + DaysIn(y, m - 1)
  }

  // The day number of a date, by counting whole years, whole months and days.
  function DayNumber(d: Date): int {
    DaysBeforeYear(d.year) + DaysBeforeMonth(d.year, d.month) + d.day - 1 - 719162
  }

  lemma YearLength(y: int)
    ensures DaysBeforeYear(y + 1) == DaysBeforeYear(y) + (if IsLeap(y) then 366 else 365)
    ensures DaysBeforeMonth(y, 12) + 31 == if IsLeap(y) then 366 else 365
  {
    assert DaysBeforeMonth(y, 2) == 31 && DaysBeforeMonth(y, 3) == 31 + DaysIn(y, 2);
    assert DaysBeforeMonth(y, 5) == DaysBeforeMonth(y, 4) + 30 && DaysBeforeMonth(y, 4) == DaysBeforeMonth(y, 3) + 31;
    assert DaysBeforeMonth(y, 7) == DaysBeforeMonth(y, 6) + 30 && DaysBeforeMonth(y, 6) == DaysBeforeMonth(y, 5) + 31;
    assert DaysBeforeMonth(y, 9) == DaysBeforeMonth(y, 8) + 31 && DaysBeforeMonth(y, 8) == DaysBeforeMonth(y, 7) + 31;
    assert DaysBeforeMonth(y, 11) == DaysBeforeMonth(y, 10) + 31;
    assert DaysBeforeMonth(y, 10) == DaysBeforeMonth(y, 9) + 30;
    assert DaysBeforeMonth(y, 12) == DaysBeforeMonth(y, 11) + 30;
    YearDivisions(y);
  }

  lemma YearDivisions(y: int)
    ensures y / 4 == (y - 1) / 4 + (if y % 4 == 0 then 1 else 0)
    ensures y / 100 == (y - 1) / 100 + (if y % 100 == 0 then 1 else 0)
    ensures y / 400 == (y - 1) / 400 + (if y % 400 == 0 then 1 else 0)
  {
  }

  lemma NumberOfSuccessor(d: Date)
    requires Valid(d)
    ensures DayNumber(Successor(d)) == DayNumber(d) + 1
  {
    if d.day == DaysIn(d.year, d.month) && d.month == 12 {
      YearLength(d.year);
      hide DaysBeforeYear, IsLeap;
    } else {
      hide DaysBeforeYear, IsLeap;
    }
  }

  lemma NumberOfEpoch()
    ensures DayNumber(Date(1970, 1, 1)) == 0
  {
  }

  // Counting the days of the computed date gives the day number back.
  lemma {:induction false} NumberOfCivil(days: int)
    ensures DayNumber(DaysToCivil(days)) == days
    decreases if days < 0 then -days else days
  {
    hide DayNumber, DaysToCivil, Valid, Successor;
    if days == 0 {
      Epoch();
      NumberOfEpoch();
    } else if days > 0 {
      NumberOfCivil(days - 1);
      CivilSuccessor(days - 1);
      CivilValid(days - 1);
      NumberOfSuccessor(DaysToCivil(days - 1));
    } else {
      NumberOfCivil(days + 1);
      CivilSuccessor(days);
      CivilValid(days);
      NumberOfSuccessor(DaysToCivil(days));
    }
  }

  lemma {:induction false} MonthsApart(y: int, m: nat, n: nat)
    requires 1 <= m < n <= 13
    ensures DaysBeforeMonth(y, m) + DaysIn(y, m) <= DaysBeforeMonth(y, n)
    decreases n
  {
    if m < n - 1 { MonthsApart(y, m, n - 1); }
  }

  lemma {:induction false} YearsApartFrom(y: int, z: int)
    requires y < z
    ensures DaysBeforeYear(y) + (if IsLeap(y) then 366 else 365) <= DaysBeforeYear(z)
    decreases z - y
  {
    if y + 1 < z {
      YearsApartFrom(y, z - 1);
      YearLength(z - 1);
    } else {
      YearLength(y);
    }
  }

  // Day numbers order dates as the calendar does.
  lemma NumberOrders(a: Date, b: Date)
    requires Valid(a) && Valid(b) && Earlier(a, b)
    ensures DayNumber(a) < DayNumber(b)
  {
    hide DaysBeforeYear, IsLeap, DaysIn;
    if a.year < b.year {
      YearsApartFrom(a.year, b.year);
      YearLength(a.year);
      MonthEnds(a.year, a.month);
      if b.month > 1 { MonthsApart(b.year, 1, b.month); }
    } else if a.month < b.month {
      MonthsApart(a.year, a.month, b.month);
    }
  }

  lemma MonthEnds(y: int, m: nat)
    requires 1 <= m <= 12
    ensures DaysBeforeMonth(y, m) + DaysIn(y, m) <= DaysBeforeMonth(y, 12) + 31
  {
    if m < 12 { MonthsApart(y, m, 12); }
  }

  // Every valid date is the date of exactly one day.
  lemma CivilOfNumber(d: Date)
    requires Valid(d)
    ensures DaysToCivil(DayNumber(d)) == d
  {
    var e := DaysToCivil(DayNumber(d));
    NumberOfCivil(DayNumber(d));
    CivilValid(DayNumber(d));
    hide DayNumber, DaysToCivil;
    if Earlier(d, e) { NumberOrders(d, e); }
    if Earlier(e, d) { NumberOrders(e, d); }
  }

  // Later days have later dates, and conversely.
  lemma CivilOrders(m: int, n: int)
    ensures m < n <==> Earlier(DaysToCivil(m), DaysToCivil(n))
  {
    var a, b := DaysToCivil(m), DaysToCivil(n);
    NumberOfCivil(m);
    NumberOfCivil(n);
    CivilValid(m);
    CivilValid(n);
    hide DayNumber, DaysToCivil;
    if Earlier(a, b) { NumberOrders(a, b); }
    if Earlier(b, a) { NumberOrders(b, a); }
  }
}
