/** Calendar dates and durations as records of integer fields.  A DateTime is a
    naive (time-zone free) date and time to the second; a Duration follows
    pendulum's normalisation: years and months are kept apart and every other
    unit is folded into a signed number of seconds. */
module Dates {
  import opened Text
  import opened Wrappers

  datatype DateTime = DateTime(year: nat, month: nat, day: nat, hour: nat, minute: nat, second: nat)

  predicate IsLeapYear(y: nat) {
    y % 4 == 0 && (y % 100 != 0 || y % 400 == 0)
  }

  function DaysInMonth(y: nat, m: nat): nat {
    if m == 2 then (if IsLeapYear(y) then 29 else 28)
    else if m == 4 || m == 6 || m == 9 || m == 11 then 30
    else 31
  }

  /** What Python's datetime accepts: years 1 to 9999, real days of the month. */
  predicate Valid(d: DateTime) {
    && 1 <= d.year <= 9999
    && 1 <= d.month <= 12
    && 1 <= d.day <= DaysInMonth(d.year, d.month)
    && d.hour < 24 && d.minute < 60 && d.second < 60
  }

  /** `a < b` on datetimes: lexicographic on the fields. */
  predicate Before(a: DateTime, b: DateTime) {
    || a.year < b.year
    || (a.year == b.year && a.month < b.month)
    || (a.year == b.year && a.month == b.month && a.day < b.day)
    || (a.year == b.year && a.month == b.month && a.day == b.day && a.hour < b.hour)
    || (a.year == b.year && a.month == b.month && a.day == b.day && a.hour == b.hour
        && a.minute < b.minute)
    || (a.year == b.year && a.month == b.month && a.day == b.day && a.hour == b.hour
        && a.minute == b.minute && a.second < b.second)
  }

  /** Months since the start of year 0: the measure that NextDate advances by one. */
  function MonthIndex(d: DateTime): int {
    d.year * 12 + d.month - 1
  }

  lemma BeforeMonthIndex(a: DateTime, b: DateTime)
    requires 1 <= a.month <= 12 && 1 <= b.month <= 12 && Before(a, b)
    ensures MonthIndex(a) <= MonthIndex(b)
  {
  }

  /** `(d + pendulum.duration(months=1)).start_of("month")`: midnight on the
      first day of the following month; December rolls over into January. */
  function NextDate(d: DateTime): (r: DateTime)
    requires 1 <= d.month <= 12
    ensures r.day == 1 && r.hour == 0 && r.minute == 0 && r.second == 0
    ensures MonthIndex(r) == MonthIndex(d) + 1
    ensures d.month == 12 ==> r.year == d.year + 1 && r.month == 1
    ensures d.month < 12 ==> r.year == d.year && r.month == d.month + 1
    ensures Before(d, r)
    ensures Valid(d) && !(d.year == 9999 && d.month == 12) ==> Valid(r)
  {
    if d.month == 12 then DateTime(d.year + 1, 1, 1, 0, 0, 0)
    else DateTime(d.year, d.month + 1, 1, 0, 0, 0)
  }

  // ---- strftime ----

  /** `strftime("%Y")`: the year in decimal, not padded (glibc). */
  function StrfYear(d: DateTime): string {
    NatToString(d.year)
  }

  /** `strftime("%m")`: the month, two digits. */
  function StrfMonth(d: DateTime): string {
    ZeroPadded(d.month, 2)
  }

  /** `strftime("%Y%m%d%H")`. */
  function StrfYmdh(d: DateTime): string {
    StrfYear(d) + ZeroPadded(d.month, 2) + ZeroPadded(d.day, 2) + ZeroPadded(d.hour, 2)
  }

  lemma StrfYmdhShape(d: DateTime)
    requires Valid(d) && d.year >= 1000
    ensures |StrfYear(d)| == 4 && |StrfMonth(d)| == 2
    ensures |StrfYmdh(d)| == 10 && AllDigits(StrfYmdh(d))
    ensures StrfYmdh(d)[..4] == StrfYear(d) && StrfYmdh(d)[4..6] == StrfMonth(d)
    ensures DigitsValue(StrfYear(d)) == d.year && DigitsValue(StrfMonth(d)) == d.month
    ensures DigitsValue(StrfYmdh(d)[6..8]) == d.day && DigitsValue(StrfYmdh(d)[8..]) == d.hour
  {
    NatToStringLength(d.year, 4);
    NatToStringRoundTrip(d.year);
    NatToStringLengthBelow(d.year, 3);
    ZeroPaddedRoundTrip(d.month, 2);
    ZeroPaddedRoundTrip(d.day, 2);
    ZeroPaddedRoundTrip(d.hour, 2);
    Fields4(StrfYear(d), ZeroPadded(d.month, 2), ZeroPadded(d.day, 2), ZeroPadded(d.hour, 2));
  }

  /** The four fields of a concatenation, by offset, and its digits. */
  lemma Fields4(a: string, b: string, c: string, e: string)
    requires |a| == 4 && |b| == 2 && |c| == 2 && |e| == 2
    requires AllDigits(a) && AllDigits(b) && AllDigits(c) && AllDigits(e)
    ensures var s := a + b + c + e; |s| == 10 && AllDigits(s)
    ensures var s := a + b + c + e; s[..4] == a && s[4..6] == b && s[6..8] == c && s[8..] == e
  {
  }

  lemma {:induction false} NatToStringLengthBelow(n: nat, w: nat)
    requires n >= Pow10(w)
    ensures |NatToString(n)| > w
  {
    if w > 0 {
      NatToStringLengthBelow(n / 10, w - 1);
    }
  }

  // ---- isoformat / fromisoformat ----

  /** `d.isoformat()` for a naive datetime without microseconds: for a
      valid date, nineteen characters with the separators at fixed
      places. */
  function IsoFormat(d: DateTime): (s: string)
    ensures Valid(d) ==> |s| == 19 && s[4] == '-' && s[7] == '-' && s[10] == 'T' && s[13] == ':' && s[16] == ':'
  {
    var s := ZeroPadded(d.year, 4) + "-" + ZeroPadded(d.month, 2) + "-" + ZeroPadded(d.day, 2)
             + "T" + ZeroPadded(d.hour, 2) + ":" + ZeroPadded(d.minute, 2) + ":" + ZeroPadded(d.second, 2);
    if Valid(d) then
      ZeroPaddedRoundTrip(d.year, 4);
      ZeroPaddedRoundTrip(d.month, 2);
      ZeroPaddedRoundTrip(d.day, 2);
      ZeroPaddedRoundTrip(d.hour, 2);
      ZeroPaddedRoundTrip(d.minute, 2);
      ZeroPaddedRoundTrip(d.second, 2);
      IsoFormatSlices(ZeroPadded(d.year, 4), ZeroPadded(d.month, 2), ZeroPadded(d.day, 2),
                      ZeroPadded(d.hour, 2), ZeroPadded(d.minute, 2), ZeroPadded(d.second, 2));
      s
    else s
  }

  datatype DateError = InvalidIsoFormat(text: string) | DateOutOfRange(text: string)

  /** `fromisoformat(s)`, read only in the 19-character
      "YYYY-MM-DD?HH:MM:SS" form that IsoFormat writes (any character
      separates date and time).  Every other text, including the shorter,
      fractional-second and offset forms Python also accepts, is rejected
      like a date that does not exist. */
  function FromIsoFormat(s: string): (r: Result<DateTime, DateError>)
    ensures r.Success? ==> Valid(r.value)
  {
    if |s| != 19 || s[4] != '-' || s[7] != '-' || s[13] != ':' || s[16] != ':' then
      Failure(InvalidIsoFormat(s))
    else if !(AllDigits(s[..4]) && AllDigits(s[5..7]) && AllDigits(s[8..10])
              && AllDigits(s[11..13]) && AllDigits(s[14..16]) && AllDigits(s[17..])) then
      Failure(InvalidIsoFormat(s))
    else
      var d := DateTime(DigitsValue(s[..4]), DigitsValue(s[5..7]), DigitsValue(s[8..10]),
                        DigitsValue(s[11..13]), DigitsValue(s[14..16]), DigitsValue(s[17..]));
      if Valid(d) then Success(d) else Failure(DateOutOfRange(s))
  }

  /** Parsing what isoformat wrote gives the same datetime back. */
  lemma IsoFormatRoundTrip(d: DateTime)
    requires Valid(d)
    ensures |IsoFormat(d)| == 19
    ensures FromIsoFormat(IsoFormat(d)) == Success(d)
  {
    ZeroPaddedRoundTrip(d.year, 4);
    ZeroPaddedRoundTrip(d.month, 2);
    ZeroPaddedRoundTrip(d.day, 2);
    ZeroPaddedRoundTrip(d.hour, 2);
    ZeroPaddedRoundTrip(d.minute, 2);
    ZeroPaddedRoundTrip(d.second, 2);
    IsoFormatSlices(ZeroPadded(d.year, 4), ZeroPadded(d.month, 2), ZeroPadded(d.day, 2),
                    ZeroPadded(d.hour, 2), ZeroPadded(d.minute, 2), ZeroPadded(d.second, 2));
  }

  lemma IsoFormatSlices(y: string, mo: string, dd: string, h: string, mi: string, se: string)
    requires |y| == 4 && |mo| == 2 && |dd| == 2 && |h| == 2 && |mi| == 2 && |se| == 2
    ensures var s := y + "-" + mo + "-" + dd + "T" + h + ":" + mi + ":" + se;
      && |s| == 19 && s[4] == '-' && s[7] == '-' && s[10] == 'T' && s[13] == ':' && s[16] == ':'
      && s[..4] == y && s[5..7] == mo && s[8..10] == dd
      && s[11..13] == h && s[14..16] == mi && s[17..] == se
  {
    var date := y + "-" + mo + "-" + dd;
    var time := h + ":" + mi + ":" + se;
    var s := y + "-" + mo + "-" + dd + "T" + h + ":" + mi + ":" + se;
    assert s == date + "T" + time;
    assert |date| == 10 && date[..4] == y && date[5..7] == mo && date[8..] == dd;
    assert |time| == 8 && time[..2] == h && time[3..5] == mi && time[6..] == se;
  }

  // ---- durations ----

  /** pendulum.Duration: `years` and `months` as given, everything else as a
      signed number of seconds (`rest`); microseconds are not modelled. */
  datatype Duration = Duration(years: int, months: int, rest: int)

  function Abs(x: int): nat {
    if x < 0 then -x else x
  }

  /** pendulum's sign of the remainder: -1 exactly when it is negative. */
  function SignOf(x: int): int {
    if x < 0 then -1 else 1
  }

  /** `pendulum.duration(seconds=s)`. */
  function FromSeconds(s: int): (d: Duration)
    ensures d.years == 0 && d.months == 0
  {
    Duration(0, 0, s)
  }

  /** `pendulum.duration(hours=h)`. */
  function DurationHours(h: int): Duration {
    FromSeconds(h * 3600)
  }

  /** `total_seconds()`: a year counts 365 days and a month 30. */
  function TotalSeconds(d: Duration): int {
    (d.years * 365 + d.months * 30) * 86400 + d.rest
  }

  /** timedelta equality, which is how two durations compare equal. */
  predicate SameDuration(a: Duration, b: Duration) {
    TotalSeconds(a) == TotalSeconds(b)
  }

  function Weeks(d: Duration): int {
    Abs(d.rest) / 86400 / 7 * SignOf(d.rest)
  }

  function RemainingDays(d: Duration): int {
    Abs(d.rest) / 86400 % 7 * SignOf(d.rest)
  }

  function Hours(d: Duration): int {
    Abs(d.rest) % 86400 / 3600 * SignOf(d.rest)
  }

  function Minutes(d: Duration): int {
    Abs(d.rest) % 86400 / 60 % 60 * SignOf(d.rest)
  }

  function RemainingSeconds(d: Duration): int {
    Abs(d.rest) % 60 * SignOf(d.rest)
  }

  /** The components pendulum reports put the remainder back together, and all
      of them carry the remainder's sign. */
  lemma ComponentsRecompose(d: Duration)
    ensures d.rest == (Weeks(d) * 7 + RemainingDays(d)) * 86400
                      + Hours(d) * 3600 + Minutes(d) * 60 + RemainingSeconds(d)
    ensures 0 <= Abs(RemainingDays(d)) < 7 && 0 <= Abs(Hours(d)) < 24
    ensures 0 <= Abs(Minutes(d)) < 60 && 0 <= Abs(RemainingSeconds(d)) < 60
  {
    var a := Abs(d.rest);
    var days := a / 86400;
    var secs := a % 86400;
    assert a == days * 86400 + secs;
    assert days == (days / 7) * 7 + days % 7;
    assert secs == (secs / 3600) * 3600 + (secs / 60 % 60) * 60 + secs % 60 by {
      assert secs == (secs / 60) * 60 + secs % 60;
      assert secs / 60 == (secs / 60 / 60) * 60 + secs / 60 % 60;
      assert secs / 60 / 60 == secs / 3600;
    }
    assert a % 60 == secs % 60 by {
      assert a == (days * 1440) * 60 + secs;
    }
    var m := SignOf(d.rest);
    assert d.rest == a * m;
    assert a * m == (((days / 7) * 7 + days % 7) * 86400 + (secs / 3600) * 3600
                     + (secs / 60 % 60) * 60 + secs % 60) * m;
  }

  /** A duration read back from its total seconds equals the original. */
  lemma FromTotalSeconds(d: Duration)
    ensures SameDuration(FromSeconds(TotalSeconds(d)), d)
    ensures d.years == 0 && d.months == 0 ==> FromSeconds(TotalSeconds(d)) == d
  {
  }
}
