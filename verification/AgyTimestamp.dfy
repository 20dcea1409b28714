/** Session timestamps: text with nanoseconds and an offset, read into a UTC instant in
  * milliseconds through the calendar arithmetic of section 21.4.1 of ECMA-262. */
module AgyTimestamp {
  import opened Wrappers

  // ---- The civil calendar ---------------------------------------------------

  predicate Leap(y: int) { y % 4 == 0 && (y % 100 != 0 || y % 400 == 0) }

  function YearLength(y: int): int { if Leap(y) then 366 else 365 }

  /** `m` counts from 1. */
  function MonthLength(y: int, m: int): int
    requires 1 <= m <= 12
  {
    if m == 2 then (if Leap(y) then 29 else 28)
    else if m == 4 || m == 6 || m == 9 || m == 11 then 30
    else 31
  }

  predicate Civil(y: int, m: int, d: int) { 1 <= m <= 12 && 1 <= d <= MonthLength(y, m) }

  /** Days from the epoch to the first of January, counted year by year. */
  function DaysToYear(y: int): int
    decreases if y >= 1970 then y - 1970 else 1970 - y
  {
    if y == 1970 then 0
    else if y > 1970 then DaysToYear(y - 1) + YearLength(y - 1)
    else DaysToYear(y + 1) - YearLength(y)
  }

  /** Days from the first of January to the first of the month, counted month by month. */
  function DaysToMonth(y: int, m: int): int
    requires 1 <= m <= 13
    decreases m
  {
    if m == 1 then 0 else DaysToMonth(y, m - 1) + MonthLength(y, m - 1)
  }

  function CivilDay(y: int, m: int, d: int): int
    requires Civil(y, m, d)
  {
    DaysToYear(y) + DaysToMonth(y, m) + d - 1
  }

  // ---- The arithmetic of section 21.4.1 of ECMA-262 -------------------------

  const MS_PER_DAY: int := 86_400_000

  /** DayFromYear (section 21.4.1.8). */
  function DayFromYear(y: int): int {
    365 * (y - 1970) + (y - 1969) / 4 - (y - 1901) / 100 + (y - 1601) / 400
  }

  /** The first day of month `m`, counted from 0, within its year; 12 is the next year. */
  function FirstOfMonth(m: int, leap: bool): int
    requires 0 <= m <= 12
  {
    var shift := if leap then 1 else 0;
    if m == 0 then 0 else if m == 1 then 31
    else if m == 2 then 59 + shift else if m == 3 then 90 + shift else if m == 4 then 120 + shift
    else if m == 5 then 151 + shift else if m == 6 then 181 + shift else if m == 7 then 212 + shift
    else if m == 8 then 243 + shift else if m == 9 then 273 + shift else if m == 10 then 304 + shift
    else if m == 11 then 334 + shift else 365 + shift
  }

  /** MakeDay for a month within the year; the date may run past the month. */
  function MakeDay(y: int, m: int, d: int): int
    requires 0 <= m <= 11
  {
    DayFromYear(y) + FirstOfMonth(m, Leap(y)) + d - 1
  }

  /** YearFromTime: the year whose first day is the last one not after `day`, from a guess. */
  function YearFrom(day: int, guess: int): int
    decreases if day < DayFromYear(guess) then 1 else 0,
              if day < DayFromYear(guess) then DayFromYear(guess) - day else day - DayFromYear(guess)
  {
    YearAdvances(guess);
    YearAdvances(guess - 1);
    if day < DayFromYear(guess) then YearFrom(day, guess - 1)
    else if day >= DayFromYear(guess + 1) then YearFrom(day, guess + 1)
    else guess
  }

  /** MonthFromTime within a year, from a month the day is not before. */
  function MonthFrom(day: int, leap: bool, m: int): int
    requires 0 <= m <= 11
    decreases 11 - m
  {
    if m == 11 || day < FirstOfMonth(m + 1, leap) then m else MonthFrom(day, leap, m + 1)
  }

  lemma YearAdvances(y: int)
    ensures DayFromYear(y + 1) == DayFromYear(y) + YearLength(y)
  {
    FloorSteps(y - 1969, 4);
    FloorSteps(y - 1901, 100);
    FloorSteps(y - 1601, 400);
    LeapByFloors(y);
  }

  lemma FloorSteps(a: int, n: int)
    requires n > 0
    ensures (a + 1) / n == a / n + if (a + 1) % n == 0 then 1 else 0
  {
    var q, r := a / n, a % n;
    assert a == n * q + r;
    if r == n - 1 {
      assert a + 1 == n * (q + 1);
      FloorIs(a + 1, n, q + 1, 0);
    } else {
      FloorIs(a + 1, n, q, r + 1);
    }
  }

  lemma AtLeastOnce(n: int, k: int)
    requires n > 0 && k >= 1
    ensures n * k >= n
  {
    assert n * k == n + n * (k - 1);
  }

  lemma FloorIs(a: int, n: int, q: int, r: int)
    requires n > 0 && a == n * q + r && 0 <= r < n
    ensures a / n == q && a % n == r
  {
    var q', r' := a / n, a % n;
    assert a == n * q' + r';
    assert n * (q - q') == n * q - n * q' && n * (q' - q) == n * q' - n * q;
    if q > q' {
      AtLeastOnce(n, q - q');
    } else if q < q' {
      AtLeastOnce(n, q' - q);
    }
  }

  lemma LeapByFloors(y: int)
    ensures (y - 1968) % 4 == y % 4 && (y - 1900) % 100 == y % 100 && (y - 1600) % 400 == y % 400
    ensures y % 400 == 0 ==> y % 100 == 0
    ensures y % 100 == 0 ==> y % 4 == 0
  {
    FloorIs(y - 1968, 4, y / 4 - 492, y % 4);
    FloorIs(y - 1900, 100, y / 100 - 19, y % 100);
    FloorIs(y - 1600, 400, y / 400 - 4, y % 400);
    if y % 400 == 0 { FloorIs(y, 100, 4 * (y / 400), 0); }
    if y % 100 == 0 { FloorIs(y, 4, 25 * (y / 100), 0); }
  }

  // ---- The two calendars agree ----------------------------------------------

  lemma {:induction false} DayFromYearCounts(y: int)
    ensures DayFromYear(y) == DaysToYear(y)
    decreases if y >= 1970 then y - 1970 else 1970 - y
  {
    if y > 1970 {
      DayFromYearCounts(y - 1);
      YearAdvances(y - 1);
    } else if y < 1970 {
      DayFromYearCounts(y + 1);
      YearAdvances(y);
    }
  }

  lemma {:induction false} FirstOfMonthCounts(y: int, m: int)
    requires 1 <= m <= 13
    ensures FirstOfMonth(m - 1, Leap(y)) == DaysToMonth(y, m)
    decreases m
  {
    if m > 1 { FirstOfMonthCounts(y, m - 1); }
  }

  lemma MakeDayIsCivil(y: int, m: int, d: int)
    requires Civil(y, m, d)
    ensures MakeDay(y, m - 1, d) == CivilDay(y, m, d)
  {
    DayFromYearCounts(y);
    FirstOfMonthCounts(y, m);
  }

  lemma {:induction false} YearsIncrease(y: int, z: int)
    requires y < z
    ensures DayFromYear(y) < DayFromYear(z) && DayFromYear(y + 1) <= DayFromYear(z)
    decreases z - y
  {
    YearAdvances(y);
    if y + 1 < z { YearsIncrease(y + 1, z); }
  }

  lemma {:induction false} YearFromIs(day: int, guess: int)
    ensures var y := YearFrom(day, guess); DayFromYear(y) <= day < DayFromYear(y + 1)
    decreases if day < DayFromYear(guess) then 1 else 0,
              if day < DayFromYear(guess) then DayFromYear(guess) - day else day - DayFromYear(guess)
  {
    hide DayFromYear;
    YearAdvances(guess);
    YearAdvances(guess - 1);
    if day < DayFromYear(guess) {
      YearFromIs(day, guess - 1);
    } else if day >= DayFromYear(guess + 1) {
      YearFromIs(day, guess + 1);
    }
  }

  lemma YearOfDay(day: int, y: int, guess: int)
    requires DayFromYear(y) <= day < DayFromYear(y + 1)
    ensures YearFrom(day, guess) == y
  {
    YearFromIs(day, guess);
    var z := YearFrom(day, guess);
    if y < z { YearsIncrease(y, z); } else if z < y { YearsIncrease(z, y); }
  }

  lemma {:induction false} MonthFromIs(day: int, leap: bool, m: int)
    requires 0 <= m <= 11 && FirstOfMonth(m, leap) <= day < FirstOfMonth(12, leap)
    ensures var r := MonthFrom(day, leap, m); m <= r <= 11 && FirstOfMonth(r, leap) <= day < FirstOfMonth(r + 1, leap)
    decreases 11 - m
  {
    if m < 11 && day >= FirstOfMonth(m + 1, leap) { MonthFromIs(day, leap, m + 1); }
  }

  lemma {:induction false} MonthsIncrease(leap: bool, m: int, n: int)
    requires 0 <= m < n <= 12
    ensures FirstOfMonth(m, leap) < FirstOfMonth(n, leap) && FirstOfMonth(m + 1, leap) <= FirstOfMonth(n, leap)
    decreases n - m
  {
    if m + 1 < n { MonthsIncrease(leap, m + 1, n); }
  }

  lemma MonthOfDay(day: int, leap: bool, m: int)
    requires 0 <= m <= 11 && FirstOfMonth(m, leap) <= day < FirstOfMonth(m + 1, leap)
    ensures MonthFrom(day, leap, 0) == m
  {
    if m > 0 { MonthsIncrease(leap, 0, m); }
    if m < 11 { MonthsIncrease(leap, m + 1, 12); }
    MonthFromIs(day, leap, 0);
    var r := MonthFrom(day, leap, 0);
    if m < r { MonthsIncrease(leap, m, r); } else if r < m { MonthsIncrease(leap, r, m); }
  }

  /** The parts of a day number, as the getters of section 21.4.4 return them. */
  function YearOf(day: int): int { YearFrom(day, 1970) }

  function MonthOf(day: int): (m: int)
    ensures 0 <= m <= 11
  {
    var y := YearOf(day);
    YearFromIs(day, 1970);
    MonthBounds(day - DayFromYear(y), Leap(y), 0);
    MonthFrom(day - DayFromYear(y), Leap(y), 0)
  }

  lemma {:induction false} MonthBounds(day: int, leap: bool, m: int)
    requires 0 <= m <= 11
    ensures m <= MonthFrom(day, leap, m) <= 11
    decreases 11 - m
  {
    if m < 11 { MonthBounds(day, leap, m + 1); }
  }

  function DateOf(day: int): int {
    day - DayFromYear(YearOf(day)) - FirstOfMonth(MonthOf(day), Leap(YearOf(day))) + 1
  }

  lemma DayParts(y: int, m: int, d: int)
    requires Civil(y, m, d)
    ensures var day := MakeDay(y, m - 1, d); YearOf(day) == y && MonthOf(day) == m - 1 && DateOf(day) == d
  {
    var day := MakeDay(y, m - 1, d);
    if m > 1 { MonthsIncrease(Leap(y), 0, m - 1); }
    if m < 12 { MonthsIncrease(Leap(y), m, 12); }
    YearAdvances(y);
    YearOfDay(day, y, 1970);
    MonthOfDay(day - DayFromYear(y), Leap(y), m - 1);
  }

  /** A date that does not exist comes back as another one: building a day and reading its
    * parts returns what was put in exactly for the dates of the calendar. */
  lemma RealDatesComeBack(y: int, m: int, d: int)
    requires 1 <= m <= 12 && d >= 1
    ensures var day := MakeDay(y, m - 1, d);
            (YearOf(day) == y && MonthOf(day) == m - 1 && DateOf(day) == d) <==> Civil(y, m, d)
  {
    var day := MakeDay(y, m - 1, d);
    if Civil(y, m, d) {
      DayParts(y, m, d);
    } else if YearOf(day) == y && MonthOf(day) == m - 1 {
      YearFromIs(day, 1970);
      YearAdvances(y);
      MonthFromIs(day - DayFromYear(y), Leap(y), 0);
    }
  }

  // ---- The text -------------------------------------------------------------

  predicate Digit(c: char) { '0' <= c <= '9' }

  predicate Digits(s: string, from: nat, end: nat)
    requires from <= end <= |s|
  {
    forall i :: from <= i < end ==> Digit(s[i])
  }

  /** The fixed layout `YYYY-MM-DD hh:mm:ss.fffffffff+hh:mm`. */
  predicate Shaped(s: string) {
    && |s| == 35
    && Digits(s, 0, 4) && s[4] == '-' && Digits(s, 5, 7) && s[7] == '-' && Digits(s, 8, 10) && s[10] == ' '
    && Digits(s, 11, 13) && s[13] == ':' && Digits(s, 14, 16) && s[16] == ':' && Digits(s, 17, 19) && s[19] == '.'
    && Digits(s, 20, 29) && (s[29] == '+' || s[29] == '-') && Digits(s, 30, 32) && s[32] == ':' && Digits(s, 33, 35)
  }

  function Value(c: char): int { c as int - '0' as int }

  function Num(s: string, from: nat, end: nat): (n: int)
    requires from <= end <= |s| && Digits(s, from, end)
    ensures n >= 0
    decreases end
  {
    if from == end then 0 else 10 * Num(s, from, end - 1) + Value(s[end - 1])
  }

  datatype Fields = Fields(year: int, month: int, day: int, hour: int, minute: int, second: int, nanos: int,
                           offset: int)

  /** `offset` is in minutes, east positive. */
  function FieldsOf(s: string): Fields
    requires Shaped(s)
  {
    Fields(Num(s, 0, 4), Num(s, 5, 7), Num(s, 8, 10), Num(s, 11, 13), Num(s, 14, 16), Num(s, 17, 19), Num(s, 20, 29),
           (Num(s, 30, 32) * 60 + Num(s, 33, 35)) * if s[29] == '+' then 1 else -1)
  }

  /** A date of the calendar, a time of the day and an offset below a day. */
  predicate Real(s: string) {
    && Shaped(s)
    && var f := FieldsOf(s);
       && Civil(f.year, f.month, f.day) && f.hour <= 23 && f.minute <= 59 && f.second <= 59
       && Num(s, 30, 32) <= 23 && Num(s, 33, 35) <= 59
  }

  /** The exact instant, in nanoseconds from the epoch. */
  function ExactNanos(f: Fields): int
    requires Civil(f.year, f.month, f.day)
  {
    LocalSeconds(f) * 1_000_000_000 + f.nanos - f.offset * 60_000_000_000
  }

  function LocalSeconds(f: Fields): int
    requires Civil(f.year, f.month, f.day)
  {
    CivilDay(f.year, f.month, f.day) * 86_400 + f.hour * 3600 + f.minute * 60 + f.second
  }

  function Millis(nanos: int): int { (nanos + 500_000) / 1_000_000 }

  /** What the text reads as: nothing, or an instant in milliseconds. */
  function Read(s: string): Option<int> {
    if !Real(s) then None
    else
      var f := FieldsOf(s);
      Some(LocalSeconds(f) * 1000 + Millis(f.nanos) - f.offset * 60_000)
  }

  /** The reading is the nearest millisecond. */
  lemma ReadIsNearest(s: string)
    requires Real(s)
    ensures var ns := Read(s).value * 1_000_000 - ExactNanos(FieldsOf(s)); -500_000 < ns <= 500_000
  {
  }

  /** East of Greenwich the same clock shows an earlier instant: a text and the same one at offset zero
    * are apart by exactly the hours and minutes it spells, `+` before and `-` after. */
  lemma OffsetShiftsTheInstant(s: string, zero: string)
    requires Real(s) && Real(zero) && zero[..29] == s[..29] && zero[29..] == "+00:00"
    ensures var minutes := 600 * D(s, 30) + 60 * D(s, 31) + 10 * D(s, 33) + D(s, 34);
            Read(s).value == Read(zero).value + (if s[29] == '+' then -minutes else minutes) * 60_000
  {
    hide Civil, CivilDay;
    assert forall i :: 0 <= i < 29 ==> s[i] == s[..29][i] == zero[..29][i] == zero[i];
    SameClock(s, zero);
    assert forall i :: 29 <= i < 35 ==> zero[i] == zero[29..][i - 29];
    TwoDigits(s, 30);
    TwoDigits(s, 33);
    TwoDigits(zero, 30);
    TwoDigits(zero, 33);
  }

  lemma SameClock(a: string, b: string)
    requires Shaped(a) && Shaped(b) && forall i :: 0 <= i < 29 ==> a[i] == b[i]
    ensures FieldsOf(a) == FieldsOf(b).(offset := FieldsOf(a).offset)
  {
    hide Num;
    NumSame(a, b, 0, 4);
    NumSame(a, b, 5, 7);
    NumSame(a, b, 8, 10);
    NumSame(a, b, 11, 13);
    NumSame(a, b, 14, 16);
    NumSame(a, b, 17, 19);
    NumSame(a, b, 20, 29);
  }

  lemma TwoDigits(s: string, i: nat)
    requires i + 2 <= |s| && Digits(s, i, i + 2)
    ensures Num(s, i, i + 2) == 10 * D(s, i) + D(s, i + 1)
  {
    assert Num(s, i, i) == 0;
    assert Num(s, i, i + 1) == D(s, i);
  }

  /** What a digit at this place is worth. */
  function D(s: string, i: nat): int
    requires i < |s|
  {
    s[i] as int - '0' as int
  }

  /** Every field is the decimal number its own digits spell. */
  lemma FieldsSpelledOut(s: string)
    requires Shaped(s)
    ensures var f := FieldsOf(s);
            && f.year == 1000 * D(s, 0) + 100 * D(s, 1) + 10 * D(s, 2) + D(s, 3)
            && f.month == 10 * D(s, 5) + D(s, 6) && f.day == 10 * D(s, 8) + D(s, 9)
            && f.hour == 10 * D(s, 11) + D(s, 12) && f.minute == 10 * D(s, 14) + D(s, 15)
            && f.second == 10 * D(s, 17) + D(s, 18)
            && f.nanos == 1_000_000 * (100 * D(s, 20) + 10 * D(s, 21) + D(s, 22))
                          + 1000 * (100 * D(s, 23) + 10 * D(s, 24) + D(s, 25))
                          + 100 * D(s, 26) + 10 * D(s, 27) + D(s, 28)
  {
    hide Num;
    TwoDigits(s, 0);
    TwoDigits(s, 2);
    Joined(s, 0, 2, 4);
    TwoDigits(s, 5);
    TwoDigits(s, 8);
    TwoDigits(s, 11);
    TwoDigits(s, 14);
    TwoDigits(s, 17);
    TwoDigits(s, 20);
    TwoDigits(s, 22);
    TwoDigits(s, 24);
    TwoDigits(s, 26);
    Joined(s, 20, 22, 24);
    Joined(s, 20, 24, 26);
    Joined(s, 20, 26, 28);
    OneDigit(s, 20, 28);
  }

  lemma OneDigit(s: string, from: nat, i: nat)
    requires from <= i < |s| && Digits(s, from, i + 1)
    ensures Num(s, from, i + 1) == 10 * Num(s, from, i) + D(s, i)
  {
  }

  lemma Joined(s: string, from: nat, middle: nat, end: nat)
    requires from <= middle && end == middle + 2 <= |s| && Digits(s, from, end)
    ensures Num(s, from, end) == 100 * Num(s, from, middle) + Num(s, middle, end)
  {
    TwoDigits(s, middle);
    OneDigit(s, from, middle);
    OneDigit(s, from, middle + 1);
  }

  // ---- Text order is time order ---------------------------------------------

  /** The order of the texts as strings: the first difference decides. */
  predicate Before(a: string, b: string, k: nat) {
    k < |a| && k < |b| && a[..k] == b[..k] && a[k] < b[k]
  }

  lemma {:induction false} NumSame(a: string, b: string, from: nat, end: nat)
    requires from <= end <= |a| && end <= |b| && Digits(a, from, end) && Digits(b, from, end)
    requires forall i :: from <= i < end ==> a[i] == b[i]
    ensures Num(a, from, end) == Num(b, from, end)
    decreases end
  {
    if from != end { NumSame(a, b, from, end - 1); }
  }

  lemma {:induction false} NumLess(a: string, b: string, from: nat, end: nat, k: nat)
    requires from <= k < end <= |a| && end <= |b| && Digits(a, from, end) && Digits(b, from, end)
    requires (forall i :: from <= i < k ==> a[i] == b[i]) && a[k] < b[k]
    ensures Num(a, from, end) < Num(b, from, end)
    decreases end
  {
    if end == k + 1 { NumSame(a, b, from, k); } else { NumLess(a, b, from, end - 1, k); }
  }

  /** A field before the difference is the same, the one holding it is smaller. */
  lemma FieldOrder(a: string, b: string, from: nat, end: nat, k: nat)
    requires from < end <= |a| && end <= |b| && Digits(a, from, end) && Digits(b, from, end) && Before(a, b, k)
    ensures end <= k ==> Num(a, from, end) == Num(b, from, end)
    ensures from <= k < end ==> Num(a, from, end) < Num(b, from, end)
  {
    assert forall i :: 0 <= i < k ==> a[i] == a[..k][i] == b[..k][i] == b[i];
    if end <= k {
      NumSame(a, b, from, end);
    } else if from <= k {
      NumLess(a, b, from, end, k);
    }
  }

  lemma {:induction false} LaterMonth(y: int, m: int, n: int)
    requires 1 <= m < n <= 13
    ensures DaysToMonth(y, m) + MonthLength(y, m) <= DaysToMonth(y, n)
    decreases n
  {
    if m + 1 < n { LaterMonth(y, m, n - 1); }
  }

  lemma LaterDay(y: int, m: int, d: int, y': int, m': int, d': int)
    requires Civil(y, m, d) && Civil(y', m', d')
    requires y < y' || (y == y' && (m < m' || (m == m' && d < d')))
    ensures CivilDay(y, m, d) < CivilDay(y', m', d')
  {
    if y < y' {
      MakeDayIsCivil(y, m, d);
      MakeDayIsCivil(y', m', d');
      YearsIncrease(y, y');
      YearAdvances(y);
      LaterMonth(y, m, 13);
      FirstOfMonthCounts(y, 13);
      FirstOfMonthCounts(y, m);
      if m' > 1 { MonthsIncrease(Leap(y'), 0, m' - 1); }
    } else if m < m' {
      LaterMonth(y, m, m');
    }
  }

  /** For texts with the same offset, string order is the order of the instants, so sorting
    * the column as text sorts the sessions by time. */
  lemma TextOrderIsTimeOrder(a: string, b: string, k: nat)
    requires Real(a) && Real(b) && a[29..] == b[29..] && Before(a, b, k)
    ensures Read(a).value <= Read(b).value
  {
    SameOffset(a, b);
    assert k < 29;
    FieldsInOrder(a, b, k);
    var f, g := FieldsOf(a), FieldsOf(b);
    NanosBounded(a);
    NanosBounded(b);
    if (f.year, f.month, f.day) != (g.year, g.month, g.day) {
      LaterDay(f.year, f.month, f.day, g.year, g.month, g.day);
    }
  }

  lemma SameOffset(a: string, b: string)
    requires Shaped(a) && Shaped(b) && a[29..] == b[29..]
    ensures FieldsOf(a).offset == FieldsOf(b).offset && forall i :: 29 <= i < 35 ==> a[i] == b[i]
  {
    assert forall i :: 29 <= i < 35 ==> a[i] == a[29..][i - 29] == b[29..][i - 29] == b[i];
    NumSame(a, b, 30, 32);
    NumSame(a, b, 33, 35);
  }

  lemma {:induction false} NumBounded(s: string, from: nat, end: nat, p: int)
    requires from <= end <= |s| && Digits(s, from, end) && p == Power(end - from)
    ensures Num(s, from, end) < p
    decreases end
  {
    if from != end { NumBounded(s, from, end - 1, Power(end - 1 - from)); }
  }

  function Power(n: nat): int { if n == 0 then 1 else 10 * Power(n - 1) }

  lemma NanosBounded(s: string)
    requires Shaped(s)
    ensures 0 <= FieldsOf(s).nanos <= 999_999_999
  {
    assert Power(3) == 1000;
    assert Power(6) == 1_000_000 by { assert Power(6) == 10 * (10 * (10 * Power(3))); }
    assert Power(9) == 1_000_000_000 by { assert Power(9) == 10 * (10 * (10 * Power(6))); }
    NumBounded(s, 20, 29, Power(9));
  }

  predicate Earlier(f: Fields, g: Fields) {
    if f.year != g.year then f.year < g.year
    else if f.month != g.month then f.month < g.month
    else if f.day != g.day then f.day < g.day
    else if f.hour != g.hour then f.hour < g.hour
    else if f.minute != g.minute then f.minute < g.minute
    else if f.second != g.second then f.second < g.second
    else f.nanos < g.nanos
  }

  /** The fields compare as the texts do, most significant first. */
  lemma FieldsInOrder(a: string, b: string, k: nat)
    requires Shaped(a) && Shaped(b) && Before(a, b, k) && k < 29
    ensures Earlier(FieldsOf(a), FieldsOf(b))
  {
    hide Num, Before, Digits;
    NotASeparator(a, b, k);
    ShapedDigits(a);
    ShapedDigits(b);
    FieldOrder(a, b, 0, 4, k);
    FieldOrder(a, b, 5, 7, k);
    FieldOrder(a, b, 8, 10, k);
    FieldOrder(a, b, 11, 13, k);
    FieldOrder(a, b, 14, 16, k);
    FieldOrder(a, b, 17, 19, k);
    FieldOrder(a, b, 20, 29, k);
  }

  lemma ShapedDigits(s: string)
    requires Shaped(s)
    ensures |s| == 35 && Digits(s, 0, 4) && Digits(s, 5, 7) && Digits(s, 8, 10) && Digits(s, 11, 13)
    ensures Digits(s, 14, 16)
    ensures Digits(s, 17, 19) && Digits(s, 20, 29)
  {
  }

  lemma NotASeparator(a: string, b: string, k: nat)
    requires Shaped(a) && Shaped(b) && Before(a, b, k)
    ensures k != 4 && k != 7 && k != 10 && k != 13 && k != 16 && k != 19
  {
    hide Digits;
    assert a[4] == b[4] && a[7] == b[7] && a[10] == b[10] && a[13] == b[13] && a[16] == b[16] && a[19] == b[19];
  }

  // ---- The program ----------------------------------------------------------

  /** A date object, set and read through UTC. */
  class UtcDate {
    var time: int

    constructor (time: int)
      ensures this.time == time
    {
      this.time := time;
    }

    method SetUTCFullYear(y: int, m: int, d: int)
      requires 0 <= m <= 11
      modifies this
      ensures time == MakeDay(y, m, d) * MS_PER_DAY + old(time) % MS_PER_DAY
    {
      time := MakeDay(y, m, d) * MS_PER_DAY + time % MS_PER_DAY;
    }

    method SetUTCHours(h: int, min: int, s: int, ms: int)
      modifies this
      ensures time == old(time) / MS_PER_DAY * MS_PER_DAY + ((h * 60 + min) * 60 + s) * 1000 + ms
    {
      time := time / MS_PER_DAY * MS_PER_DAY + ((h * 60 + min) * 60 + s) * 1000 + ms;
    }
  }

  /** Sets a date and a time of day and reads them back; None when they do not come back. */
  method SetAndReadBack(year: int, month: int, day: int, hour: int, minute: int, second: int)
    returns (time: Option<int>)
    requires 1 <= month <= 12 && day >= 1
    requires 0 <= hour <= 23 && 0 <= minute <= 59 && 0 <= second <= 59
    ensures time == if Civil(year, month, day)
                    then Some((CivilDay(year, month, day) * 86_400 + hour * 3600 + minute * 60 + second) * 1000)
                    else None
  {
    hide CivilDay, MakeDay, YearOf, MonthOf, DateOf, Civil;
    var local := new UtcDate(0);
    local.SetUTCFullYear(year, month - 1, day);
    local.SetUTCHours(hour, minute, second, 0);
    var days := local.time / MS_PER_DAY;
    assert days == MakeDay(year, month - 1, day);
    RealDatesComeBack(year, month, day);
    if YearOf(days) != year || MonthOf(days) != month - 1 || DateOf(days) != day { return None; }
    MakeDayIsCivil(year, month, day);
    return Some(local.time);
  }

  /** Accepts exactly the real dates and returns the nearest millisecond. */
  method ParseAgyTimestamp(s: string) returns (r: Option<int>)
    ensures r == Read(s)
  {
    hide Num, Digits, CivilDay;
    if !Shaped(s) { return None; }
    var year, month, day := Num(s, 0, 4), Num(s, 5, 7), Num(s, 8, 10);
    var hour, minute, second := Num(s, 11, 13), Num(s, 14, 16), Num(s, 17, 19);
    var offsetHour, offsetMinute := Num(s, 30, 32), Num(s, 33, 35);
    if month < 1 || month > 12 || day < 1 || hour > 23 || minute > 59 || second > 59
       || offsetHour > 23 || offsetMinute > 59 {
      return None;
    }
    var time := SetAndReadBack(year, month, day, hour, minute, second);
    if time.None? { return None; }
    var fractionMs := (Num(s, 20, 29) + 500_000) / 1_000_000;
    var offsetMs := (offsetHour * 60 + offsetMinute) * 60_000 * if s[29] == '+' then 1 else -1;
    return Some(time.value + fractionMs - offsetMs);
  }
}
