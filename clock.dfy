/**
 * Instants as the handlers see them: a JavaScript `Date`, i.e. milliseconds
 * since 1970-01-01T00:00:00Z, and its `toISOString()` text (ISO 8601, UTC).
 * The day key used by the attendance ledger and the invoice form is
 * `new Date().toISOString().split('T')[0]`.
 */
module Clock {
  import opened Decimal

  /** Milliseconds since the epoch; `Date.now()` is a parameter of every operation that reads it. */
  type Time = int

  const SecondMs: int := 1000
  const MinuteMs: int := 60 * SecondMs
  const HourMs: int := 60 * MinuteMs
  const DayMs: int := 24 * HourMs

  /** The UTC day number of an instant: days since 1970-01-01, rounded down. */
  function UtcDay(t: Time): int
  {
    t / DayMs
  }

  /** Leap years of the proleptic Gregorian calendar. */
  predicate IsLeap(y: int)
  {
    y % 4 == 0 && (y % 100 != 0 || y % 400 == 0)
  }

  function YearLength(y: int): int
  {
    if IsLeap(y) then 366 else 365
  }

  /**
   * The year and the day within it (0-based) of the day `d` days after
   * January 1st of year `y`, counting whole years off forwards or backwards.
   */
  function YearAndDay(y: int, d: int): (r: (int, int))
    ensures 0 <= r.1 < YearLength(r.0)
    ensures YearStart(r.0) + r.1 == YearStart(y) + d
    decreases if d < 0 then 1 else 0, if d < 0 then -d else d
  {
    if d < 0 then YearAndDay(y - 1, d + YearLength(y - 1))
    else if d >= YearLength(y) then YearAndDay(y + 1, d - YearLength(y))
    else (y, d)
  }

  /** The day number of January 1st of year `y`, counted from 1970-01-01. */
  ghost function YearStart(y: int): int
    decreases if y < 1970 then 1970 - y else y - 1970
  {
    if y == 1970 then 0
    else if y > 1970 then YearStart(y - 1) + YearLength(y - 1)
    else YearStart(y + 1) - YearLength(y)
  }

  function MonthLength(leap: bool, m: int): int
  {
    if m == 2 then (if leap then 29 else 28)
    else if m == 4 || m == 6 || m == 9 || m == 11 then 30
    else 31
  }

  /** The number of days in the months from `m` to December. */
  function DaysFrom(leap: bool, m: int): int
    requires 1 <= m <= 12
    decreases 12 - m
  {
    if m == 12 then 31 else MonthLength(leap, m) + DaysFrom(leap, m + 1)
  }

  /** The twelve months make up the year. */
  lemma MonthsMakeYear(y: int)
    ensures DaysFrom(IsLeap(y), 1) == YearLength(y)
  {
    var leap := IsLeap(y);
    assert DaysFrom(leap, 10) == 92;
    assert DaysFrom(leap, 7) == 184;
    assert DaysFrom(leap, 4) == 275;
  }

  /**
   * The month (from `m` on) and the 1-based day of month of the 0-based day
   * `d` of the year, where `d` lies within the months from `m` on.
   */
  function MonthAndDay(leap: bool, m: int, d: int): (r: (int, int))
    requires 1 <= m <= 12 && 0 <= d < DaysFrom(leap, m)
    ensures m <= r.0 <= 12 && 1 <= r.1 <= MonthLength(leap, r.0)
    decreases 12 - m
  {
    if m < 12 && d >= MonthLength(leap, m) then MonthAndDay(leap, m + 1, d - MonthLength(leap, m))
    else (m, d + 1)
  }

  /** Proleptic Gregorian (year, month, day) of the day `days` days after 1970-01-01. */
  function CivilFromDays(days: int): (r: (int, int, int))
    ensures 1 <= r.1 <= 12 && 1 <= r.2 <= MonthLength(IsLeap(r.0), r.1)
  {
    var (y, doy) := YearAndDay(1970, days);
    MonthsMakeYear(y);
    var (m, d) := MonthAndDay(IsLeap(y), 1, doy);
    (y, m, d)
  }

  /** Day 0 is the epoch, 1 January 1970. */
  lemma EpochIsNewYear1970()
    ensures CivilFromDays(0) == (1970, 1, 1)
  {
    assert YearAndDay(1970, 0) == (1970, 0);
  }

  /** Day 789 is 29 February 1972, the first leap day after the epoch. */
  lemma FirstLeapDay()
    ensures CivilFromDays(789) == (1972, 2, 29)
  {
    assert YearAndDay(1971, 424) == (1972, 59);
    assert MonthAndDay(true, 2, 28) == (2, 29);
  }

  /** A digit string and the separators ISO dates use: no 'T' can occur in it. */
  predicate DateText(s: string)
  {
    forall i :: 0 <= i < |s| ==> IsDigit(s[i]) || s[i] == '-' || s[i] == '+'
  }

  function Padded(n: int, width: nat): (s: string)
    ensures DateText(s)
  {
    var s := IntToString(n);
    IntegerIsDateText(n);
    ZeroPadIsDateText(s, width);
    PadStart(s, width, '0')
  }

  lemma IntegerIsDateText(n: int)
    ensures DateText(IntToString(n))
  {
    var s := IntToString(n);
    if n >= 0 {
      assert s == NatToString(n);
    } else {
      assert s == "-" + NatToString(-n);
      assert forall i :: 1 <= i < |s| ==> s[i] == NatToString(-n)[i - 1];
    }
  }

  lemma ZeroPadIsDateText(s: string, width: nat)
    requires DateText(s)
    ensures DateText(PadStart(s, width, '0'))
  {
    var r := PadStart(s, width, '0');
    assert r[|r| - |s|..] == s;
    assert forall i :: |r| - |s| <= i < |r| ==> r[i] == s[i - (|r| - |s|)];
  }

  /** The year as `toISOString` writes it: four digits for 0..9999, else a sign and six digits. */
  function YearText(y: int): (s: string)
    ensures DateText(s)
  {
    if 0 <= y <= 9999 then Padded(y, 4)
    else if y < 0 then "-" + Padded(-y, 6)
    else "+" + Padded(y, 6)
  }

  /** The `YYYY-MM-DD` part of `toISOString()`. */
  function DateString(t: Time): (s: string)
    ensures DateText(s)
  {
    var ymd := CivilFromDays(UtcDay(t));
    DateJoin(YearText(ymd.0), Padded(ymd.1, 2), Padded(ymd.2, 2))
  }

  function DateJoin(y: string, m: string, d: string): (s: string)
    requires DateText(y) && DateText(m) && DateText(d)
    ensures DateText(s)
  {
    var s := y + "-" + m + "-" + d;
    assert forall i :: |y| + 1 <= i < |y| + 1 + |m| ==> s[i] == m[i - |y| - 1];
    assert forall i :: |y| + |m| + 2 <= i < |s| ==> s[i] == d[i - |y| - |m| - 2];
    s
  }

  /** A number below 10^width is padded to exactly `width` characters. */
  lemma PaddedWidth(n: int, width: nat)
    requires 1 <= width && 0 <= n < Pow10(width)
    ensures |Padded(n, width)| == width
  {
    DigitCountBelow(n, width);
  }

  /** The `HH:mm:ss.sssZ` part of `toISOString()`: always 13 characters, separators in place. */
  function TimeString(t: Time): (s: string)
    ensures |s| == 13 && s[2] == ':' && s[5] == ':' && s[8] == '.' && s[12] == 'Z'
  {
    var ms := t % DayMs;
    TimeFieldsFit(ms);
    var hh, mm, ss, sss := Padded(ms / HourMs, 2), Padded(ms % HourMs / MinuteMs, 2),
      Padded(ms % MinuteMs / SecondMs, 2), Padded(ms % SecondMs, 3);
    TimeJoin(hh, mm, ss, sss)
  }

  /** Hours, minutes, seconds and milliseconds of a time of day fit their two or three digits. */
  lemma TimeFieldsFit(ms: int)
    requires 0 <= ms < DayMs
    ensures 0 <= ms / HourMs < Pow10(2) && 0 <= ms % HourMs / MinuteMs < Pow10(2)
    ensures 0 <= ms % MinuteMs / SecondMs < Pow10(2) && 0 <= ms % SecondMs < Pow10(3)
    ensures |Padded(ms / HourMs, 2)| == 2 && |Padded(ms % HourMs / MinuteMs, 2)| == 2
    ensures |Padded(ms % MinuteMs / SecondMs, 2)| == 2 && |Padded(ms % SecondMs, 3)| == 3
  {
    assert Pow10(2) == 100 && Pow10(3) == 1000;
    TimeFieldsBelow(ms);
    PaddedWidth(ms / HourMs, 2);
    PaddedWidth(ms % HourMs / MinuteMs, 2);
    PaddedWidth(ms % MinuteMs / SecondMs, 2);
    PaddedWidth(ms % SecondMs, 3);
  }

  lemma TimeFieldsBelow(ms: int)
    requires 0 <= ms < DayMs
    ensures 0 <= ms / HourMs < 24 && 0 <= ms % HourMs / MinuteMs < 60
    ensures 0 <= ms % MinuteMs / SecondMs < 60 && 0 <= ms % SecondMs < 1000
  {
    assert DayMs == 86400000 && HourMs == 3600000 && MinuteMs == 60000 && SecondMs == 1000;
  }

  function TimeJoin(hh: string, mm: string, ss: string, sss: string): (s: string)
    requires |hh| == 2 && |mm| == 2 && |ss| == 2 && |sss| == 3
    ensures |s| == 13 && s[2] == ':' && s[5] == ':' && s[8] == '.' && s[12] == 'Z'
  {
    hh + ":" + mm + ":" + ss + "." + sss + "Z"
  }

  /** `new Date(t).toISOString()`: the date, a 'T' the date never contains, and the time. */
  function IsoString(t: Time): (r: string)
    ensures var date := DateString(t);
      && |r| == |date| + 14 && r[..|date|] == date && r[|date|] == 'T' && r[|date| + 1..] == TimeString(t)
      && 'T' !in date && r[|r| - 1] == 'Z'
  {
    var date := DateString(t);
    DateTextHasNoT(date);
    IsoJoin(date, TimeString(t))
  }

  lemma DateTextHasNoT(s: string)
    requires DateText(s)
    ensures 'T' !in s
  {
    assert forall i :: 0 <= i < |s| ==> s[i] != 'T';
  }

  function IsoJoin(date: string, time: string): (r: string)
    requires |time| == 13 && time[12] == 'Z'
    ensures |r| == |date| + 14 && r[..|date|] == date && r[|date|] == 'T' && r[|date| + 1..] == time
    ensures r[|r| - 1] == 'Z'
  {
    date + "T" + time
  }

  /** `s.split(c)[0]`: everything before the first `c`, or all of `s` when there is none. */
  function BeforeFirst(s: string, c: char): (r: string)
    ensures |r| <= |s| && r == s[..|r|]
  {
    if s == [] || s[0] == c then [] else [s[0]] + BeforeFirst(s[1..], c)
  }

  lemma {:induction false} BeforeFirstOfJoin(a: string, c: char, b: string)
    requires c !in a
    ensures BeforeFirst(a + [c] + b, c) == a
  {
    if a != [] {
      assert (a + [c] + b)[1..] == a[1..] + [c] + b;
      BeforeFirstOfJoin(a[1..], c, b);
    }
  }

  /**
   * The day key of an instant: its UTC calendar date `YYYY-MM-DD`, which is
   * what `new Date(t).toISOString().split('T')[0]` yields (DayKeyIsIsoPrefix).
   */
  function DayKey(t: Time): (k: string)
    ensures DateText(k)
  {
    DateString(t)
  }

  lemma YearText1970()
    ensures YearText(1970) == "1970"
  {
    assert NatToString(19) == "19";
    assert NatToString(197) == "197";
    assert NatToString(1970) == "1970";
  }

  lemma PaddedOne()
    ensures Padded(1, 2) == "01"
  {
    assert NatToString(1) == "1";
    assert Repeat('0', 1) == "0";
  }

  lemma EpochDate()
    ensures DateString(0) == DateJoin(YearText(1970), Padded(1, 2), Padded(1, 2))
  {
    assert UtcDay(0) == 0;
    EpochIsNewYear1970();
  }

  /** The first instant has the key `1970-01-01`. */
  lemma EpochKey()
    ensures DayKey(0) == "1970-01-01"
  {
    EpochDate();
    YearText1970();
    PaddedOne();
    EpochJoin();
  }

  lemma EpochJoin()
    ensures DateJoin("1970", "01", "01") == "1970-01-01"
  {
    var s := DateJoin("1970", "01", "01");
    assert s == "1970" + "-" + "01" + "-" + "01";
    assert |s| == 10;
    forall i | 0 <= i < 10 ensures s[i] == "1970-01-01"[i] { }
  }

  /** Splitting the ISO timestamp at the first 'T' leaves exactly the day key. */
  lemma DayKeyIsIsoPrefix(t: Time)
    ensures BeforeFirst(IsoString(t), 'T') == DayKey(t)
  {
    var date := DateString(t);
    assert forall i :: 0 <= i < |date| ==> date[i] != 'T';
    assert IsoString(t) == date + ['T'] + TimeString(t);
    BeforeFirstOfJoin(date, 'T', TimeString(t));
  }

  /**
   * The day boundary is UTC midnight: two instants of the same UTC day (the same
   * number of whole days since the epoch) have the same day key, whatever the
   * server's time zone.
   */
  lemma SameUtcDaySameKey(t1: Time, t2: Time)
    requires UtcDay(t1) == UtcDay(t2)
    ensures DayKey(t1) == DayKey(t2)
  {
  }

  /** The key of the day that starts at UTC midnight `k * DayMs` is the key of every instant of that day. */
  lemma KeyOfMidnight(k: int, t: Time)
    requires k * DayMs <= t < (k + 1) * DayMs
    ensures DayKey(t) == DayKey(k * DayMs)
  {
    assert UtcDay(t) == k;
    assert UtcDay(k * DayMs) == k;
    SameUtcDaySameKey(t, k * DayMs);
  }
}
