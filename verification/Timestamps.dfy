/** Printed timestamps (crates/engine/src/time_fmt.rs:9-29), the form of RFC 3339 section 5.6 in UTC. */
module Timestamps {
  import opened Text
  import opened Calendar

  // String order as in section 5.1 of RFC 3339: character by character.
  predicate Before(a: string, b: string)
    decreases |a|
  {
    b != [] && (a == [] || a[0] < b[0] || (a[0] == b[0] && Before(a[1..], b[1..])))
  }

  function Zeros(n: nat): (r: string)
    ensures |r| == n
  {
    seq(n, _ => '0')
  }

  // A decimal number padded with zeros to a least width.
  function Padded(n: nat, width: nat): string {
    var s := Decimal(n);
    if |s| < width then Zeros(width - |s|) + s else s
  }

  // The fields of the timestamp, most significant first.
  function Fields(secs: nat): (r: seq<int>)
    ensures |r| == 6 && forall i :: 1 <= i < 6 ==> 0 <= r[i] < 100
  {
    var d := DaysToCivil(secs / 86400);
    var rest := secs % 86400;
    CivilValid(secs / 86400);
    [d.year, d.month, d.day, rest / 3600, rest % 3600 / 60, rest % 60]
  }

  function Stamp(secs: nat): string {
    var f := Fields(secs);
    NotBeforeEpoch(secs / 86400);
    Columns(Padded(f[0], 4), Padded(f[1], 2), Padded(f[2], 2), Padded(f[3], 2), Padded(f[4], 2), Padded(f[5], 2))
  }

  // The format string of the timestamp.
  function Columns(y: string, m: string, d: string, h: string, min: string, s: string): string {
    y + ("-" + (m + ("-" + (d + ("T" + (h + (":" + (min + (":" + (s + "Z"))))))))))
  }

  lemma NotBeforeEpoch(days: nat)
    ensures DaysToCivil(days).year >= 1970
  {
    Epoch();
    CivilOrders(days, 0);
    CivilValid(days);
    hide DaysToCivil;
  }

  // The first second of the year 10000.
  const LIMIT: nat := 253402300800

  lemma BelowLimit(secs: nat)
    ensures secs < LIMIT <==> Fields(secs)[0] <= 9999
  {
    hide DaysToCivil, DayNumber;
    var last := Date(10000, 1, 1);
    SharpNumbers();
    CivilOfNumber(last);
    CivilOrders(secs / 86400, LIMIT / 86400);
    CivilValid(secs / 86400);
    assert secs < LIMIT <==> secs / 86400 < LIMIT / 86400;
  }

  // ------------------------------------------------------------- digits

  // The lowest `width` decimal digits.
  function Digits(n: nat, width: nat): (r: string)
    ensures |r| == width && forall c :: c in r ==> IsDigit(c)
  {
    if width == 0 then "" else Digits(n / 10, width - 1) + [DigitChar(n % 10)]
  }

  function Power(width: nat): nat { if width == 0 then 1 else 10 * Power(width - 1) }

  lemma {:induction false} DigitsOfZero(width: nat)
    ensures Digits(0, width) == Zeros(width)
  {
    if width > 0 { DigitsOfZero(width - 1); }
  }

  lemma {:induction false} PaddedIsDigits(n: nat, width: nat)
    requires n < Power(width) && 1 <= width
    ensures Padded(n, width) == Digits(n, width) && |Decimal(n)| <= width
  {
    if n < 10 {
      assert n / 10 == 0 && n % 10 == n;
      DigitsOfZero(width - 1);
    } else {
      assert n / 10 < Power(width - 1);
      assert width >= 2;
      PaddedIsDigits(n / 10, width - 1);
      assert Decimal(n) == Decimal(n / 10) + [DigitChar(n % 10)];
      var k := width - |Decimal(n)|;
      assert Zeros(k) + (Decimal(n / 10) + [DigitChar(n % 10)]) == (Zeros(k) + Decimal(n / 10)) + [DigitChar(n % 10)];
    }
  }

  lemma {:induction false} BeforeAppend(a: string, b: string, x: string, y: string)
    requires |a| == |b|
    ensures Before(a + x, b + y) <==> Before(a, b) || (a == b && Before(x, y))
  {
    if a == [] {
      assert a + x == x && b + y == y;
    } else {
      assert (a + x)[1..] == a[1..] + x && (b + y)[1..] == b[1..] + y;
      BeforeAppend(a[1..], b[1..], x, y);
      assert a == b <==> a[0] == b[0] && a[1..] == b[1..];
    }
  }

  lemma {:induction false} DigitsOrder(m: nat, n: nat, width: nat)
    requires m < Power(width) && n < Power(width)
    ensures Before(Digits(m, width), Digits(n, width)) <==> m < n
    ensures Digits(m, width) == Digits(n, width) <==> m == n
  {
    if width > 0 {
      DigitsOrder(m / 10, n / 10, width - 1);
      var a, b := Digits(m / 10, width - 1), Digits(n / 10, width - 1);
      BeforeAppend(a, b, [DigitChar(m % 10)], [DigitChar(n % 10)]);
      assert (a + [DigitChar(m % 10)])[..width - 1] == a && (b + [DigitChar(n % 10)])[..width - 1] == b;
    }
  }

  lemma {:induction false} ParseDigits(n: nat, width: nat)
    requires n < Power(width)
    ensures ParseDecimal(Digits(n, width)) == n
  {
    if width > 0 {
      ParseDigits(n / 10, width - 1);
      assert Digits(n, width)[..width - 1] == Digits(n / 10, width - 1);
    }
  }

  // ------------------------------------------------------------- the layout

  const WIDTHS: seq<nat> := [4, 2, 2, 2, 2, 2]
  const MARKS: string := "--T::Z"

  // Fields that fit their columns.
  predicate Fit(f: seq<int>) {
    |f| == 6 && 0 <= f[0] < 10000 && forall i :: 1 <= i < 6 ==> 0 <= f[i] < 100
  }

  lemma FitPower(f: seq<int>, i: nat)
    requires Fit(f) && i < 6
    ensures 0 <= f[i] < Power(WIDTHS[i])
  {
    assert Power(2) == 100;
    assert Power(4) == 10000 by { assert Power(3) == 10 * Power(2); }
  }

  // The fields from the `i`-th on, each in its column and followed by its mark.
  function Layout(f: seq<int>, i: nat): string
    requires Fit(f) && i <= 6
    decreases 6 - i
  {
    if i == 6 then "" else Digits(f[i], WIDTHS[i]) + [MARKS[i]] + Layout(f, i + 1)
  }

  lemma StampIsLayout(secs: nat)
    requires secs < LIMIT
    ensures Fit(Fields(secs)) && Stamp(secs) == Layout(Fields(secs), 0)
  {
    var f := Fields(secs);
    BelowLimit(secs);
    NotBeforeEpoch(secs / 86400);
    hide Fields, DaysToCivil, Digits, Padded;
    assert f[0] >= 0 by { FirstField(secs); }
    forall i: nat | i < 6 ensures Padded(f[i], WIDTHS[i]) == Digits(f[i], WIDTHS[i]) {
      FitPower(f, i);
      PaddedIsDigits(f[i], WIDTHS[i]);
    }
    assert Padded(f[0], 4) == Digits(f[0], WIDTHS[0]) && Padded(f[1], 2) == Digits(f[1], WIDTHS[1]);
    assert Padded(f[2], 2) == Digits(f[2], WIDTHS[2]) && Padded(f[3], 2) == Digits(f[3], WIDTHS[3]);
    assert Padded(f[4], 2) == Digits(f[4], WIDTHS[4]) && Padded(f[5], 2) == Digits(f[5], WIDTHS[5]);
    LayoutUnfolds(f);
  }

  lemma FirstField(secs: nat)
    ensures Fields(secs)[0] >= 1970
  {
    NotBeforeEpoch(secs / 86400);
  }

  lemma LayoutUnfolds(f: seq<int>)
    requires Fit(f)
    ensures Layout(f, 0) == Columns(Digits(f[0], 4), Digits(f[1], 2), Digits(f[2], 2),
                                    Digits(f[3], 2), Digits(f[4], 2), Digits(f[5], 2))
  {
    hide Digits;
    assert Layout(f, 5) == Digits(f[5], 2) + "Z" by { Nest(Digits(f[5], 2), 'Z', ""); }
    assert Layout(f, 4) == Digits(f[4], 2) + (":" + Layout(f, 5)) by { Nest(Digits(f[4], 2), ':', Layout(f, 5)); }
    assert Layout(f, 3) == Digits(f[3], 2) + (":" + Layout(f, 4)) by { Nest(Digits(f[3], 2), ':', Layout(f, 4)); }
    assert Layout(f, 2) == Digits(f[2], 2) + ("T" + Layout(f, 3)) by { Nest(Digits(f[2], 2), 'T', Layout(f, 3)); }
    assert Layout(f, 1) == Digits(f[1], 2) + ("-" + Layout(f, 2)) by { Nest(Digits(f[1], 2), '-', Layout(f, 2)); }
    assert Layout(f, 0) == Digits(f[0], 4) + ("-" + Layout(f, 1)) by { Nest(Digits(f[0], 4), '-', Layout(f, 1)); }
  }

  lemma Nest(a: string, c: char, b: string)
    ensures a + [c] + b == a + ([c] + b)
  {
  }

  predicate Smaller(f: seq<int>, g: seq<int>, i: nat)
    requires |f| == |g| == 6 && i <= 6
    decreases 6 - i
  {
    i < 6 && (f[i] < g[i] || (f[i] == g[i] && Smaller(f, g, i + 1)))
  }

  lemma {:induction false} LayoutOrder(f: seq<int>, g: seq<int>, i: nat)
    requires Fit(f) && Fit(g) && i <= 6
    ensures Before(Layout(f, i), Layout(g, i)) <==> Smaller(f, g, i)
    decreases 6 - i
  {
    if i < 6 {
      hide Before, Digits, Power;
      FitPower(f, i);
      FitPower(g, i);
      DigitsOrder(f[i], g[i], WIDTHS[i]);
      LayoutOrder(f, g, i + 1);
      ColumnOrder(Digits(f[i], WIDTHS[i]), Digits(g[i], WIDTHS[i]), MARKS[i], Layout(f, i + 1), Layout(g, i + 1));
    } else {
      assert !Before("", "");
    }
  }

  lemma ColumnOrder(a: string, b: string, mark: char, x: string, y: string)
    requires |a| == |b|
    ensures Before(a + [mark] + x, b + [mark] + y) <==> Before(a, b) || (a == b && Before(x, y))
  {
    Nest(a, mark, x);
    Nest(b, mark, y);
    BeforeAppend(a, b, [mark] + x, [mark] + y);
    BeforeAppend([mark], [mark], x, y);
  }

  lemma FieldsOrder(s: nat, t: nat)
    ensures Smaller(Fields(s), Fields(t), 0) <==> s < t
  {
    hide DaysToCivil;
    var f, g := Fields(s), Fields(t);
    var a, b := DaysToCivil(s / 86400), DaysToCivil(t / 86400);
    CivilOrders(s / 86400, t / 86400);
    SameDate(s / 86400, t / 86400);
    ClockOrder(s % 86400, t % 86400, f, g);
    DateOrder(f, g, a, b);
    hide *;
    DaysThenClock(s, t);
  }

  lemma SameDate(m: int, n: int)
    ensures DaysToCivil(m) == DaysToCivil(n) <==> m == n
  {
    hide DaysToCivil;
    NumberOfCivil(m);
    NumberOfCivil(n);
  }

  lemma DaysThenClock(s: nat, t: nat)
    ensures s < t <==> s / 86400 < t / 86400 || (s / 86400 == t / 86400 && s % 86400 < t % 86400)
  {
  }

  lemma DateOrder(f: seq<int>, g: seq<int>, a: Date, b: Date)
    requires |f| == |g| == 6 && f[..3] == [a.year, a.month, a.day] && g[..3] == [b.year, b.month, b.day]
    ensures Smaller(f, g, 0) <==> Earlier(a, b) || (a == b && Smaller(f, g, 3))
  {
    assert f[0] == f[..3][0] && f[1] == f[..3][1] && f[2] == f[..3][2];
    assert g[0] == g[..3][0] && g[1] == g[..3][1] && g[2] == g[..3][2];
    assert Smaller(f, g, 1) <==> f[1] < g[1] || (f[1] == g[1] && Smaller(f, g, 2));
  }

  lemma ClockOrder(s: nat, t: nat, f: seq<int>, g: seq<int>)
    requires |f| == |g| == 6 && f[3..] == [s / 3600, s % 3600 / 60, s % 60]
    requires g[3..] == [t / 3600, t % 3600 / 60, t % 60]
    requires s < 86400 && t < 86400
    ensures Smaller(f, g, 3) <==> s < t
  {
    assert f[3] == f[3..][0] && f[4] == f[3..][1] && f[5] == f[3..][2];
    assert g[3] == g[3..][0] && g[4] == g[3..][1] && g[5] == g[3..][2];
    Clock(s);
    Clock(t);
    assert Smaller(f, g, 4) <==> f[4] < g[4] || (f[4] == g[4] && f[5] < g[5]);
  }

  lemma Clock(s: nat)
    ensures s == 3600 * (s / 3600) + 60 * (s % 3600 / 60) + s % 60
    ensures 0 <= s % 3600 / 60 < 60
  {
    assert s % 60 == s % 3600 % 60;
  }

  // Timestamps before the year 10000 sort as time does.
  lemma StampsSort(s: nat, t: nat)
    requires s < LIMIT && t < LIMIT
    ensures Before(Stamp(s), Stamp(t)) <==> s < t
  {
    StampIsLayout(s);
    StampIsLayout(t);
    hide Fields, Stamp;
    LayoutOrder(Fields(s), Fields(t), 0);
    FieldsOrder(s, t);
  }

  // The bound cannot be raised: the next second's timestamp sorts before the last one's.
  lemma BoundIsSharp()
    ensures Stamp(LIMIT) == "10000-01-01T00:00:00Z" && Stamp(LIMIT - 1) == "9999-12-31T23:59:59Z"
    ensures Before(Stamp(LIMIT), Stamp(LIMIT - 1))
  {
    SharpFields();
    PrintedBound();
    hide Fields, Padded;
    assert Stamp(LIMIT)[0] == '1' && Stamp(LIMIT - 1)[0] == '9';
  }

  lemma SharpFields()
    ensures Fields(LIMIT) == [10000, 1, 1, 0, 0, 0]
    ensures Fields(LIMIT - 1) == [9999, 12, 31, 23, 59, 59]
  {
    hide DaysToCivil, DayNumber, Valid;
    SharpNumbers();
    assert Valid(Date(10000, 1, 1)) && Valid(Date(9999, 12, 31)) by { SharpDates(); }
    CivilOfNumber(Date(10000, 1, 1));
    CivilOfNumber(Date(9999, 12, 31));
    assert LIMIT % 86400 == 0 && (LIMIT - 1) % 86400 == 86399;
  }

  lemma SharpDates()
    ensures Valid(Date(10000, 1, 1)) && Valid(Date(9999, 12, 31))
  {
  }

  lemma PrintedBound()
    ensures Padded(10000, 4) == "10000" && Padded(9999, 4) == "9999"
    ensures Padded(0, 2) == "00" && Padded(1, 2) == "01" && Padded(12, 2) == "12"
    ensures Padded(31, 2) == "31" && Padded(23, 2) == "23" && Padded(59, 2) == "59"
  {
    assert Decimal(10) == "10" && Decimal(100) == "100" && Decimal(1000) == "1000" && Decimal(10000) == "10000";
    assert Decimal(99) == "99" && Decimal(999) == "999" && Decimal(9999) == "9999";
    assert Decimal(12) == "12" && Decimal(31) == "31" && Decimal(23) == "23" && Decimal(59) == "59";
  }

  lemma SharpNumbers()
    ensures DayNumber(Date(10000, 1, 1)) == LIMIT / 86400
    ensures DayNumber(Date(9999, 12, 31)) == (LIMIT - 1) / 86400
  {
    YearLength(9999);
    assert !IsLeap(9999) && DaysIn(9999, 12) == 31;
    assert DaysBeforeMonth(10000, 1) == 0;
  }

  // ------------------------------------------------------------- reading back

  function Seconds(f: seq<int>): int
    requires Fit(f)
  {
    DayNumber(Date(f[0], f[1], f[2])) * 86400 + f[3] * 3600 + f[4] * 60 + f[5]
  }

  // Digits in the columns of a timestamp.
  predicate Shaped(s: string) {
    |s| == 20 && AllDigits(s[..4]) && AllDigits(s[5..7]) && AllDigits(s[8..10])
    && AllDigits(s[11..13]) && AllDigits(s[14..16]) && AllDigits(s[17..19])
  }

  // The fields of a timestamp, cut at its fixed columns.
  function Cut(s: string): seq<int>
    requires Shaped(s)
  {
    [ParseDecimal(s[..4]), ParseDecimal(s[5..7]), ParseDecimal(s[8..10]),
     ParseDecimal(s[11..13]), ParseDecimal(s[14..16]), ParseDecimal(s[17..19])]
  }

  lemma CutOfLayout(f: seq<int>)
    requires Fit(f)
    ensures var s := Layout(f, 0);
            Shaped(s) && Cut(s) == f
  {
    hide Digits, Layout, ParseDecimal, Columns, Cut, Shaped;
    LayoutUnfolds(f);
    forall i: nat | i < 6 ensures ParseDecimal(Digits(f[i], WIDTHS[i])) == f[i] {
      FitPower(f, i);
      ParseDigits(f[i], WIDTHS[i]);
    }
    assert ParseDecimal(Digits(f[0], WIDTHS[0])) == f[0] && ParseDecimal(Digits(f[1], WIDTHS[1])) == f[1];
    assert ParseDecimal(Digits(f[2], WIDTHS[2])) == f[2] && ParseDecimal(Digits(f[3], WIDTHS[3])) == f[3];
    assert ParseDecimal(Digits(f[4], WIDTHS[4])) == f[4] && ParseDecimal(Digits(f[5], WIDTHS[5])) == f[5];
    CutOfColumns(f, Digits(f[0], 4), Digits(f[1], 2), Digits(f[2], 2), Digits(f[3], 2), Digits(f[4], 2),
                 Digits(f[5], 2));
  }

  predicate AllDigits(s: string) { forall c :: c in s ==> IsDigit(c) }

  lemma ColumnsCut(y: string, m: string, d: string, h: string, min: string, s: string)
    requires |y| == 4 && |m| == |d| == |h| == |min| == |s| == 2
    ensures var r := Columns(y, m, d, h, min, s);
            && |r| == 20 && r[..4] == y && r[5..7] == m && r[8..10] == d
            && r[11..13] == h && r[14..16] == min && r[17..19] == s
  {
    var t5 := s + "Z";
    var t4 := min + (":" + t5);
    var t3 := h + (":" + t4);
    var t2 := d + ("T" + t3);
    var t1 := m + ("-" + t2);
    var r := y + ("-" + t1);
    assert r == Columns(y, m, d, h, min, s);
    assert |t5| == 3 && |t4| == 6 && |t3| == 9 && |t2| == 12 && |t1| == 15 && |r| == 20;
    Tail(y, '-', t1);
    Tail(m, '-', t2);
    Tail(d, 'T', t3);
    Tail(h, ':', t4);
    Tail(min, ':', t5);
    assert t5[..2] == s;
    hide Columns;
    Within(r, t1, 5, 0, 2);
    Within(r, t1, 5, 3, 15);
    Within(r, t2, 8, 0, 2);
    Within(r, t2, 8, 3, 12);
    Within(r, t3, 11, 0, 2);
    Within(r, t3, 11, 3, 9);
    Within(r, t4, 14, 0, 2);
    Within(r, t4, 14, 3, 6);
    Within(r, t5, 17, 0, 2);
  }

  lemma Tail(a: string, c: char, b: string)
    ensures (a + ([c] + b))[..|a|] == a && (a + ([c] + b))[|a| + 1..] == b
  {
  }

  lemma Within(r: string, t: string, at: nat, i: nat, j: nat)
    requires at <= |r| && r[at..] == t && i <= j <= |t|
    ensures at + j <= |r| && r[at + i..at + j] == t[i..j]
  {
    assert r[at..][i..j] == r[at + i..at + j];
  }

  lemma CutOfColumns(f: seq<int>, y: string, m: string, d: string, h: string, min: string, s: string)
    requires |y| == 4 && |m| == |d| == |h| == |min| == |s| == 2 && Fit(f)
    requires AllDigits(y) && AllDigits(m) && AllDigits(d) && AllDigits(h) && AllDigits(min) && AllDigits(s)
    requires ParseDecimal(y) == f[0] && ParseDecimal(m) == f[1] && ParseDecimal(d) == f[2]
    requires ParseDecimal(h) == f[3] && ParseDecimal(min) == f[4] && ParseDecimal(s) == f[5]
    ensures var r := Columns(y, m, d, h, min, s); Shaped(r) && Cut(r) == f
  {
    ColumnsCut(y, m, d, h, min, s);
    hide Columns, ParseDecimal;
  }

  // Reading a timestamp gives the second it was printed for.
  lemma StampRoundTrip(secs: nat)
    requires secs < LIMIT
    ensures Fit(Fields(secs)) && Stamp(secs) == Layout(Fields(secs), 0)
    ensures var s := Stamp(secs);
            Shaped(s) && Fit(Cut(s)) && Seconds(Cut(s)) == secs
  {
    StampIsLayout(secs);
    CutOfLayout(Fields(secs));
    NumberOfCivil(secs / 86400);
    Clock(secs % 86400);
    hide Stamp, Layout, Cut, DaysToCivil, DayNumber;
  }
}
