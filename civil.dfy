/** The `dt_txt` rendering: Unix seconds, read by `pd.to_datetime(unit='s')`
    as a UTC instant, printed with `strftime('%Y-%m-%d %H:%M:%S')`. Days are
    turned into proleptic Gregorian dates by stepping through years and
    months from 1970-01-01; the reverse direction, from a date to its day
    number, is the independent reference the stepping is proved against. */
module Civil {

  // ---------------------------------------------------------------------
  // The Gregorian calendar

  predicate IsLeap(y: int)
  {
    y % 4 == 0 && (y % 100 != 0 || y % 400 == 0)
  }

  function YearLength(y: int): nat
  {
    if IsLeap(y) then 366 else 365
  }

  function MonthLength(y: int, m: int): nat
    requires 1 <= m <= 12
  {
    if m == 2 then (if IsLeap(y) then 29 else 28)
    else if m == 4 || m == 6 || m == 9 || m == 11 then 30
    else 31
  }

  /** The days of the year before the first of month `m`. */
  function DaysBeforeMonth(y: int, m: int): nat
    requires 1 <= m <= 12
  {
    [0, 31, 59, 90, 120, 151, 181, 212, 243, 273, 304, 334][m - 1]
      + (if m > 2 && IsLeap(y) then 1 else 0)
  }

  /** The table agrees with the month lengths: each month starts where the
      previous one ends, and December ends the year. */
  lemma DaysBeforeMonthSum(y: int, m: int)
    requires 1 <= m <= 12
    ensures DaysBeforeMonth(y, m) + MonthLength(y, m)
         == if m == 12 then YearLength(y) else DaysBeforeMonth(y, m + 1)
  {
  }

  /** The days from 1970-01-01 to the first of January of `y`. */
  function DaysBeforeYear(y: int): nat
    requires y >= 1970
    decreases y
  {
    if y == 1970 then 0 else DaysBeforeYear(y - 1) + YearLength(y - 1)
  }

  /** The leap years in [1970, y): those of [1, y) less the 477 of [1, 1970). */
  function LeapsBefore(y: int): int
  {
    (y - 1) / 4 - (y - 1) / 100 + (y - 1) / 400 - 477
  }

  /** `y / k` grows by one exactly at the multiples of `k`. */
  lemma DivSteps(y: int)
    ensures y / 4 == (y - 1) / 4 + (if y % 4 == 0 then 1 else 0)
    ensures y / 100 == (y - 1) / 100 + (if y % 100 == 0 then 1 else 0)
    ensures y / 400 == (y - 1) / 400 + (if y % 400 == 0 then 1 else 0)
  {
  }

  lemma LeapStep(y: int)
    requires y >= 1970
    ensures LeapsBefore(y + 1) == LeapsBefore(y) + (if IsLeap(y) then 1 else 0)
  {
    DivSteps(y);
    Century(y);
  }

  /** A multiple of 400 is a multiple of 100, and a multiple of 100 one of 4:
      each remainder is a multiple of the divisor below the divisor, so zero. */
  lemma Century(y: int)
    ensures y % 400 == 0 ==> y % 100 == 0
    ensures y % 100 == 0 ==> y % 4 == 0
  {
    if y % 400 == 0 {
      var m := 4 * (y / 400) - y / 100;
      assert y % 100 == 100 * m;
    }
    if y % 100 == 0 {
      var m := 25 * (y / 100) - y / 4;
      assert y % 4 == 4 * m;
    }
  }

  /** The year count in closed form: 365 days a year plus one per leap year. */
  lemma {:induction false} DaysBeforeYearClosed(y: int)
    requires y >= 1970
    ensures DaysBeforeYear(y) == 365 * (y - 1970) + LeapsBefore(y)
    decreases y
  {
    if y > 1970 {
      DaysBeforeYearClosed(y - 1);
      LeapStep(y - 1);
    }
  }

  /** Every year has at least 365 days. */
  lemma {:induction false} DaysBeforeYearBound(y: int)
    requires y >= 1970
    ensures DaysBeforeYear(y) >= 365 * (y - 1970)
    decreases y
  {
    if y > 1970 {
      DaysBeforeYearBound(y - 1);
    }
  }

  // ---------------------------------------------------------------------
  // Dates and their day numbers

  datatype Date = Date(year: int, month: int, day: int)

  /** A real calendar date on or after the Unix epoch. */
  predicate ValidDate(t: Date)
  {
    t.year >= 1970 && 1 <= t.month <= 12 && 1 <= t.day <= MonthLength(t.year, t.month)
  }

  /** The number of days from 1970-01-01 to `t`. */
  function DaysFromCivil(t: Date): nat
    requires ValidDate(t)
  {
    DaysBeforeYear(t.year) + DaysBeforeMonth(t.year, t.month) + t.day - 1
  }

  /** The year that `d` days after the first of January of `y` falls in,
      with the day of that year (from 0). */
  function YearOf(d: nat, y: int): (r: (int, nat))
    requires y >= 1970
    ensures r.0 >= y && r.1 < YearLength(r.0)
    decreases d
  {
    if d < YearLength(y) then (y, d) else YearOf(d - YearLength(y), y + 1)
  }

  /** The month that day `doy` of year `y`, counted from the first of month
      `m`, falls in, with the day of that month (from 0). */
  function MonthOf(y: int, doy: nat, m: int): (r: (int, nat))
    requires 1 <= m <= 12
    requires DaysBeforeMonth(y, m) + doy < YearLength(y)
    ensures m <= r.0 <= 12 && r.1 < MonthLength(y, r.0)
    decreases 12 - m
  {
    DaysBeforeMonthSum(y, m);
    if doy < MonthLength(y, m) then (m, doy)
    else MonthOf(y, doy - MonthLength(y, m), m + 1)
  }

  /** The date `n` days after 1970-01-01. */
  function CivilFromDays(n: nat): Date
  {
    var (y, doy) := YearOf(n, 1970);
    var (m, d) := MonthOf(y, doy, 1);
    Date(y, m, d + 1)
  }

  lemma {:induction false} YearOfDays(d: nat, y: int)
    requires y >= 1970
    ensures DaysBeforeYear(YearOf(d, y).0) + YearOf(d, y).1 == DaysBeforeYear(y) + d
    decreases d
  {
    if d >= YearLength(y) {
      YearOfDays(d - YearLength(y), y + 1);
    }
  }

  lemma {:induction false} MonthOfDays(y: int, doy: nat, m: int)
    requires 1 <= m <= 12
    requires DaysBeforeMonth(y, m) + doy < YearLength(y)
    ensures DaysBeforeMonth(y, MonthOf(y, doy, m).0) + MonthOf(y, doy, m).1 == DaysBeforeMonth(y, m) + doy
    decreases 12 - m
  {
    DaysBeforeMonthSum(y, m);
    if doy >= MonthLength(y, m) {
      MonthOfDays(y, doy - MonthLength(y, m), m + 1);
    }
  }

  /** Stepping from the epoch gives a real date whose day number is `n`. */
  lemma CivilFromDaysSound(n: nat)
    ensures ValidDate(CivilFromDays(n))
    ensures DaysFromCivil(CivilFromDays(n)) == n
  {
    var (y, doy) := YearOf(n, 1970);
    YearOfDays(n, 1970);
    MonthOfDays(y, doy, 1);
  }

  lemma {:induction false} YearOfInverse(y0: int, y: int, doy: nat)
    requires 1970 <= y0 <= y && doy < YearLength(y)
    ensures DaysBeforeYear(y) - DaysBeforeYear(y0) + doy >= 0
    ensures YearOf(DaysBeforeYear(y) - DaysBeforeYear(y0) + doy, y0) == (y, doy)
    decreases y - y0
  {
    DaysBeforeYearMono(y0, y);
    if y0 < y {
      DaysBeforeYearMono(y0 + 1, y);
      YearOfInverse(y0 + 1, y, doy);
    }
  }

  lemma {:induction false} DaysBeforeYearMono(y0: int, y: int)
    requires 1970 <= y0 <= y
    ensures DaysBeforeYear(y0) <= DaysBeforeYear(y)
    ensures y0 < y ==> DaysBeforeYear(y0) + YearLength(y0) <= DaysBeforeYear(y)
    decreases y - y0
  {
    if y0 < y {
      DaysBeforeYearMono(y0, y - 1);
    }
  }

  lemma {:induction false} MonthOfInverse(y: int, m0: int, m: int, d: nat)
    requires 1 <= m0 <= m <= 12 && d < MonthLength(y, m)
    ensures DaysBeforeMonth(y, m) - DaysBeforeMonth(y, m0) + d >= 0
    ensures DaysBeforeMonth(y, m0) + (DaysBeforeMonth(y, m) - DaysBeforeMonth(y, m0) + d) < YearLength(y)
    ensures MonthOf(y, DaysBeforeMonth(y, m) - DaysBeforeMonth(y, m0) + d, m0) == (m, d)
    decreases m - m0
  {
    MonthEnds(y, m);
    DaysBeforeMonthSum(y, m0);
    if m0 < m {
      MonthOfInverse(y, m0 + 1, m, d);
    }
  }

  /** Every month ends within its year. */
  lemma MonthEnds(y: int, m: int)
    requires 1 <= m <= 12
    ensures DaysBeforeMonth(y, m) + MonthLength(y, m) <= YearLength(y)
  {
  }

  /** Every date on or after the epoch is reached from its day number. */
  lemma CivilFromDaysComplete(t: Date)
    requires ValidDate(t)
    ensures CivilFromDays(DaysFromCivil(t)) == t
  {
    var doy := DaysBeforeMonth(t.year, t.month) + t.day - 1;
    DaysBeforeMonthSum(t.year, t.month);
    MonthOfInverse(t.year, 1, t.month, t.day - 1);
    YearOfInverse(1970, t.year, doy);
  }

  // ---------------------------------------------------------------------
  // Instants

  /** A UTC wall-clock time with one-second resolution. */
  datatype DateTime = DateTime(date: Date, hour: int, minute: int, second: int)

  predicate ValidDateTime(t: DateTime)
  {
    ValidDate(t.date) && 0 <= t.hour < 24 && 0 <= t.minute < 60 && 0 <= t.second < 60
  }

  const SecondsPerDay: nat := 86400

  /** `pd.to_datetime(secs, unit='s')` for a non-negative integer: no leap seconds. */
  function FromEpoch(secs: nat): DateTime
  {
    var rem := secs % SecondsPerDay;
    DateTime(CivilFromDays(secs / SecondsPerDay), rem / 3600, rem % 3600 / 60, rem % 60)
  }

  /** The Unix seconds of a wall-clock time. */
  function ToEpoch(t: DateTime): nat
    requires ValidDateTime(t)
  {
    DaysFromCivil(t.date) * SecondsPerDay + t.hour * 3600 + t.minute * 60 + t.second
  }

  /** Reading seconds gives a real time with those very seconds. */
  lemma FromEpochSound(secs: nat)
    ensures ValidDateTime(FromEpoch(secs))
    ensures ToEpoch(FromEpoch(secs)) == secs
  {
    CivilFromDaysSound(secs / SecondsPerDay);
  }

  /** Every time on or after the epoch is the reading of its seconds. */
  lemma FromEpochComplete(t: DateTime)
    requires ValidDateTime(t)
    ensures FromEpoch(ToEpoch(t)) == t
  {
    var r := t.hour * 3600 + t.minute * 60 + t.second;
    ClockFields(t.hour, t.minute, t.second);
    DayDivision(DaysFromCivil(t.date), r);
    CivilFromDaysComplete(t.date);
  }

  /** Seconds split into whole days and the seconds of the last day. */
  lemma DayDivision(days: nat, r: nat)
    requires r < SecondsPerDay
    ensures (days * SecondsPerDay + r) / SecondsPerDay == days
    ensures (days * SecondsPerDay + r) % SecondsPerDay == r
  {
  }

  /** The seconds of a day split back into hour, minute and second. */
  lemma ClockFields(h: int, m: int, s: int)
    requires 0 <= h < 24 && 0 <= m < 60 && 0 <= s < 60
    ensures 0 <= h * 3600 + m * 60 + s < SecondsPerDay
    ensures (h * 3600 + m * 60 + s) / 3600 == h
    ensures (h * 3600 + m * 60 + s) % 3600 / 60 == m
    ensures (h * 3600 + m * 60 + s) % 60 == s
  {
    HourDivision(h, m * 60 + s);
    MinuteDivision(m, s);
    MinuteDivision(h * 60 + m, s);
  }

  lemma HourDivision(q: int, r: int)
    requires 0 <= r < 3600
    ensures (q * 3600 + r) / 3600 == q && (q * 3600 + r) % 3600 == r
  {
  }

  lemma MinuteDivision(q: int, r: int)
    requires 0 <= r < 60
    ensures (q * 60 + r) / 60 == q && (q * 60 + r) % 60 == r
  {
  }

  /** The last second pandas can hold: its Timestamp counts int64 nanoseconds. */
  const MaxSeconds: nat := 9223372036

  /** Up to that bound the year has at most four digits. */
  lemma FromEpochYearBound(secs: nat)
    requires secs <= MaxSeconds
    ensures 1970 <= FromEpoch(secs).date.year <= 2263
  {
    var n := secs / SecondsPerDay;
    CivilFromDaysSound(n);
    DaysBeforeYearBound(CivilFromDays(n).year);
  }

  // ---------------------------------------------------------------------
  // Zero-padded decimal text

  function DigitChar(d: nat): char
    requires d < 10
  {
    "0123456789"[d]
  }

  predicate IsDigit(c: char)
  {
    '0' <= c <= '9'
  }

  predicate AllDigits(s: string)
  {
    forall i :: 0 <= i < |s| ==> IsDigit(s[i])
  }

  function DigitValue(c: char): nat
    requires IsDigit(c)
  {
    c as int - '0' as int
  }

  /** The decimal digits of `n`, without leading zeros. */
  function Digits(n: nat): (s: string)
    ensures 1 <= |s| && AllDigits(s)
    decreases n
  {
    if n < 10 then [DigitChar(n)] else Digits(n / 10) + [DigitChar(n % 10)]
  }

  function Zeros(k: nat): string
  {
    seq(k, _ => '0')
  }

  /** `n` printed in at least `w` characters, padded with leading zeros
      (`%02d`, and `%Y` for a year). */
  function Padded(n: nat, w: nat): string
  {
    var s := Digits(n);
    if |s| >= w then s else Zeros(w - |s|) + s
  }

  /** The number a string of decimal digits denotes. */
  function Value(s: string): nat
    requires AllDigits(s)
    decreases |s|
  {
    if s == [] then 0
    else
      assert AllDigits(s[..|s| - 1]) && IsDigit(s[|s| - 1]);
      10 * Value(s[..|s| - 1]) + DigitValue(s[|s| - 1])
  }

  /** The number a text denotes, or -1 when it is not all digits. */
  function ValueOf(s: string): int
  {
    if AllDigits(s) then Value(s) else -1
  }

  function Pow10(w: nat): nat
  {
    if w == 0 then 1 else 10 * Pow10(w - 1)
  }

  /** Reading the digits of `n` gives back `n`, and a number below `10^w`
      has at most `w` digits. */
  lemma DigitsValue(n: nat)
    ensures Value(Digits(n)) == n
    ensures forall w: nat :: 1 <= w && n < Pow10(w) ==> |Digits(n)| <= w
  {
    DigitsRead(n);
    forall w: nat | 1 <= w && n < Pow10(w) ensures |Digits(n)| <= w {
      DigitsWidth(n, w);
    }
  }

  lemma {:induction false} DigitsRead(n: nat)
    ensures Value(Digits(n)) == n
    decreases n
  {
    if n >= 10 {
      DigitsRead(n / 10);
      var s := Digits(n);
      assert s[..|s| - 1] == Digits(n / 10);
      DigitCharValue(n % 10);
    } else {
      DigitCharValue(n);
    }
  }

  lemma DigitCharValue(d: nat)
    requires d < 10
    ensures IsDigit(DigitChar(d)) && DigitValue(DigitChar(d)) == d
  {
  }

  lemma {:induction false} DigitsWidth(n: nat, w: nat)
    requires 1 <= w && n < Pow10(w)
    ensures |Digits(n)| <= w
    decreases n
  {
    if n >= 10 {
      assert w != 1;
      assert n / 10 < Pow10(w - 1);
      DigitsWidth(n / 10, w - 1);
    }
  }

  lemma {:induction false} ZerosValue(k: nat, s: string)
    requires AllDigits(s)
    ensures AllDigits(Zeros(k) + s)
    ensures Value(Zeros(k) + s) == Value(s)
    decreases |s|
  {
    var z := Zeros(k);
    assert AllDigits(z);
    if s == [] {
      assert z + s == z;
      ZerosAlone(k);
    } else {
      var p := s[..|s| - 1];
      assert AllDigits(p);
      ZerosValue(k, p);
      assert (z + s)[..|z + s| - 1] == z + p;
    }
  }

  lemma {:induction false} ZerosAlone(k: nat)
    ensures AllDigits(Zeros(k))
    ensures Value(Zeros(k)) == 0
    decreases k
  {
    if k > 0 {
      ZerosAlone(k - 1);
      assert Zeros(k)[..k - 1] == Zeros(k - 1);
    }
  }

  /** Padding is undone by reading the digits back, and a number below
      `10^w` takes exactly `w` characters. */
  lemma PaddedValue(n: nat, w: nat)
    ensures AllDigits(Padded(n, w))
    ensures Value(Padded(n, w)) == n
    ensures |Padded(n, w)| >= w
    ensures 1 <= w && n < Pow10(w) ==> |Padded(n, w)| == w
  {
    var s := Digits(n);
    DigitsRead(n);
    if |s| < w {
      ZerosValue(w - |s|, s);
    }
    if 1 <= w && n < Pow10(w) {
      DigitsWidth(n, w);
    }
  }

  /** `strftime('%Y-%m-%d %H:%M:%S')`. */
  function Strftime(t: DateTime): string
    requires ValidDateTime(t)
  {
    Padded(t.date.year, 4) + ("-" + (Padded(t.date.month, 2) + ("-" + (Padded(t.date.day, 2) + (" "
      + (Padded(t.hour, 2) + (":" + (Padded(t.minute, 2) + (":" + Padded(t.second, 2))))))))))
  }

  /** A text reads back as a time when it has the 19-character layout of
      Strftime and every field is a number. */
  function ParseDateTime(r: string): (t: DateTime)
  {
    if |r| == 19 && r[4] == '-' && r[7] == '-' && r[10] == ' ' && r[13] == ':' && r[16] == ':'
    then DateTime(Date(ValueOf(r[0..4]), ValueOf(r[5..7]), ValueOf(r[8..10])),
                  ValueOf(r[11..13]), ValueOf(r[14..16]), ValueOf(r[17..19]))
    else DateTime(Date(-1, -1, -1), -1, -1, -1)
  }

  lemma FieldAt(r: string, i: nat, f: string, rest: string)
    requires i <= |r| && r[i..] == f + rest
    ensures i + |f| <= |r| && r[i..i + |f|] == f && r[i + |f|..] == rest
  {
    assert r[i..][..|f|] == f;
    assert r[i..][|f|..] == rest;
  }

  /** Where each field of the Strftime layout stands. */
  lemma Layout(y: string, mo: string, d: string, h: string, mi: string, s: string)
    requires |y| == 4 && |mo| == 2 && |d| == 2 && |h| == 2 && |mi| == 2 && |s| == 2
    ensures var r := y + ("-" + (mo + ("-" + (d + (" " + (h + (":" + (mi + (":" + s)))))))));
      && |r| == 19 && r[4] == '-' && r[7] == '-' && r[10] == ' ' && r[13] == ':' && r[16] == ':'
      && r[0..4] == y && r[5..7] == mo && r[8..10] == d && r[11..13] == h && r[14..16] == mi && r[17..19] == s
  {
    var time := h + (":" + (mi + (":" + s)));
    var r := y + ("-" + (mo + ("-" + (d + (" " + time)))));
    DateAt(r, y, mo, d, " " + time);
    TimeAt(r, 10, h, mi, s);
  }

  /** The date fields at the head of a Strftime text. */
  lemma DateAt(r: string, y: string, mo: string, d: string, rest: string)
    requires |y| == 4 && |mo| == 2 && |d| == 2
    requires r == y + ("-" + (mo + ("-" + (d + rest))))
    ensures |r| == 10 + |rest| && r[4] == '-' && r[7] == '-'
    ensures r[0..4] == y && r[5..7] == mo && r[8..10] == d && r[10..] == rest
  {
    var t4 := d + rest;
    var t3 := "-" + t4;
    var t2 := mo + t3;
    var t1 := "-" + t2;
    assert r[0..] == r;
    FieldAt(r, 0, y, t1);
    FieldAt(r, 4, "-", t2);
    FieldAt(r, 5, mo, t3);
    FieldAt(r, 7, "-", t4);
    FieldAt(r, 8, d, rest);
    assert r[4] == r[4..5][0] && r[7] == r[7..8][0];
  }

  /** The time fields at the tail of a Strftime text, from offset `i`. */
  lemma TimeAt(r: string, i: nat, h: string, mi: string, s: string)
    requires |h| == 2 && |mi| == 2 && |s| == 2
    requires i <= |r| && r[i..] == " " + (h + (":" + (mi + (":" + s))))
    ensures |r| == i + 9 && r[i] == ' ' && r[i + 3] == ':' && r[i + 6] == ':'
    ensures r[i + 1..i + 3] == h && r[i + 4..i + 6] == mi && r[i + 7..i + 9] == s
  {
    var t9 := ":" + s;
    var t8 := mi + t9;
    var t7 := ":" + t8;
    var t6 := h + t7;
    FieldAt(r, i, " ", t6);
    FieldAt(r, i + 1, h, t7);
    FieldAt(r, i + 3, ":", t8);
    FieldAt(r, i + 4, mi, t9);
    FieldAt(r, i + 6, ":", s);
    assert r[i] == r[i..i + 1][0] && r[i + 3] == r[i + 3..i + 4][0] && r[i + 6] == r[i + 6..i + 7][0];
    assert r[i + 7..] == r[i + 7..i + 9];
  }

  /** For a year below 10000 the text has the fixed 19-character layout and
      reads back as the time it renders. */
  lemma StrftimeParse(t: DateTime)
    requires ValidDateTime(t) && t.date.year < 10000
    ensures |Strftime(t)| == 19
    ensures ParseDateTime(Strftime(t)) == t
  {
    assert Pow10(2) == 100 && Pow10(4) == 10000 by {
      assert Pow10(1) == 10;
      assert Pow10(3) == 1000;
    }
    PaddedValue(t.date.year, 4);
    PaddedValue(t.date.month, 2);
    PaddedValue(t.date.day, 2);
    PaddedValue(t.hour, 2);
    PaddedValue(t.minute, 2);
    PaddedValue(t.second, 2);
    Layout(Padded(t.date.year, 4), Padded(t.date.month, 2), Padded(t.date.day, 2),
           Padded(t.hour, 2), Padded(t.minute, 2), Padded(t.second, 2));
  }

  // ---------------------------------------------------------------------
  // dt_txt

  /** The `dt_txt` text of `secs` Unix seconds. */
  function EpochText(secs: nat): string
  {
    FromEpochSound(secs);
    Strftime(FromEpoch(secs))
  }

  /** Within pandas' range the text is 19 characters and names a real time
      that is exactly `secs` seconds after 1970-01-01 00:00:00 UTC. */
  lemma EpochTextSpec(secs: nat)
    requires secs <= MaxSeconds
    ensures |EpochText(secs)| == 19
    ensures ValidDateTime(ParseDateTime(EpochText(secs)))
    ensures ToEpoch(ParseDateTime(EpochText(secs))) == secs
  {
    FromEpochSound(secs);
    FromEpochYearBound(secs);
    StrftimeParse(FromEpoch(secs));
  }

  /** 1700000000 seconds is 2023-11-14 22:13:20 UTC. */
  lemma EpochExample()
    ensures FromEpoch(1700000000) == DateTime(Date(2023, 11, 14), 22, 13, 20)
  {
    var t := DateTime(Date(2023, 11, 14), 22, 13, 20);
    DaysBeforeYearClosed(2023);
    assert DaysFromCivil(t.date) == 19675;
    assert ToEpoch(t) == 1700000000;
    FromEpochComplete(t);
  }

  lemma PaddedYearExample()
    ensures Padded(2023, 4) == "2023"
  {
    assert Digits(20) == "20";
    assert Digits(202) == "202";
  }

  lemma PaddedTwoDigits(n: nat)
    requires 10 <= n < 100
    ensures Padded(n, 2) == [DigitChar(n / 10), DigitChar(n % 10)]
  {
    assert Digits(n / 10) == [DigitChar(n / 10)];
  }

  lemma PaddedExamples()
    ensures Padded(2023, 4) == "2023" && Padded(11, 2) == "11" && Padded(14, 2) == "14"
    ensures Padded(22, 2) == "22" && Padded(13, 2) == "13" && Padded(20, 2) == "20"
  {
    PaddedYearExample();
    PaddedTwoDigits(11);
    PaddedTwoDigits(14);
    PaddedTwoDigits(22);
    PaddedTwoDigits(13);
    PaddedTwoDigits(20);
  }

  lemma StrftimeExample()
    ensures Strftime(DateTime(Date(2023, 11, 14), 22, 13, 20)) == "2023-11-14 22:13:20"
  {
    PaddedExamples();
  }

  /** The dt_txt of 1700000000 is "2023-11-14 22:13:20". */
  lemma EpochTextExample()
    ensures EpochText(1700000000) == "2023-11-14 22:13:20"
  {
    EpochExample();
    StrftimeExample();
  }
}
