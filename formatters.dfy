/**
 * The two formatters of frontend/src/utils/formatters.js that are plain arithmetic:
 * the `YYYY-MM-DD` value of a date input, and the "… yang lalu" text of an elapsed
 * time. The calendar reading of a date (`getFullYear`, `getMonth`, `getDate`) and the
 * clock are parameters. Dafny's `/` on a positive divisor rounds down, which is what
 * `Math.floor(a / b)` does for every sign of `a`.
 */
module Formatters {
  import opened Wrappers
  import opened Text
  import opened FrontModel

  /** A calendar date as a `Date` reads it: a month from 1 to 12 and a day from 1 to 31. */
  predicate ValidDate(c: CivilDate) {
    1 <= c.month <= 12 && 1 <= c.day <= 31
  }

  /** `String(n).padStart(2, "0")` for a number below 100. */
  function Pad2(n: nat): (s: string)
    requires n < 100
    ensures |s| == 2 && AllDigits(s) && ParseNat(s) == n
  {
    var d := NatToString(n);
    ParseNatToString(n);
    var s := PadStart2(d);
    assert AllDigits(s) && ParseNat(s) == n by {
      if n < 10 {
        assert s == "0" + d && s[..1] == "0" && s[..0] == [];
      }
    }
    s
  }

  /** `formatDateForInput`: the year, the month from 1 and the day, joined by '-'. */
  function FormatDateForInput(c: CivilDate): (s: string)
    requires ValidDate(c)
    ensures |s| == |IntToString(c.year)| + 6
    ensures s[..|IntToString(c.year)|] == IntToString(c.year)
    ensures s[|s| - 6] == '-' && s[|s| - 3] == '-'
    ensures 1000 <= c.year <= 9999 ==> |s| == 10
  {
    var y := IntToString(c.year);
    assert 1000 <= c.year <= 9999 ==> |y| == 4 by {
      if 1000 <= c.year <= 9999 {
        NatLength4(c.year);
      }
    }
    y + "-" + Pad2(c.month) + "-" + Pad2(c.day)
  }

  /** A number from 1000 to 9999 has four digits. */
  lemma NatLength4(n: nat)
    requires 1000 <= n <= 9999
    ensures |NatToString(n)| == 4
  {
    assert |NatToString(n / 10)| == 3 by {
      assert |NatToString(n / 100)| == 2 by {
        assert |NatToString(n / 1000)| == 1;
      }
    }
  }

  /** Reads a `YYYY-MM-DD` value back: three decimal numbers separated by '-'. */
  function ParseDateInput(s: string): Option<CivilDate> {
    var parts := Split(s, '-');
    if |parts| == 3 && AllDigits(parts[0]) && AllDigits(parts[1]) && AllDigits(parts[2])
    then Some(CivilDate(ParseNat(parts[0]), ParseNat(parts[1]), ParseNat(parts[2])))
    else None
  }

  /** A string of digits holds no '-'. */
  lemma DigitsHaveNoDash(s: string)
    requires AllDigits(s)
    ensures '-' !in s
  {
    assert forall i :: 0 <= i < |s| ==> IsDigit(s[i]);
  }

  /** The three fields of a date input, read back from its text. */
  lemma SplitDateInput(y: string, mm: string, dd: string)
    requires AllDigits(y) && AllDigits(mm) && AllDigits(dd)
    ensures Split(y + "-" + mm + "-" + dd, '-') == [y, mm, dd]
  {
    DigitsHaveNoDash(y);
    DigitsHaveNoDash(mm);
    DigitsHaveNoDash(dd);
    assert Join([y, mm, dd], "-") == y + "-" + mm + "-" + dd by {
      assert Join([dd], "-") == dd;
      assert [y, mm, dd][1..] == [mm, dd] && [mm, dd][1..] == [dd];
    }
    SplitJoin([y, mm, dd], '-');
  }

  /** The value of a date input reads back as the date, for any year that is not negative. */
  lemma DateInputRoundTrip(c: CivilDate)
    requires ValidDate(c) && c.year >= 0
    ensures ParseDateInput(FormatDateForInput(c)) == Some(c)
  {
    var y := NatToString(c.year);
    ParseNatToString(c.year);
    SplitDateInput(y, Pad2(c.month), Pad2(c.day));
  }

  const SECOND: int := 1000
  const MINUTE: int := 60000
  const HOUR: int := 3600000

  /** What `getRelativeTime` shows: "Baru saja", or a count of one unit. */
  datatype Elapsed =
    | JustNow
    | MinutesAgo(n: int)
    | HoursAgo(n: int)
    | DaysAgo(n: int)
    | MonthsAgo(n: int)
    | YearsAgo(n: int)

  /** The text of a relative time. */
  function RelativeText(r: Elapsed): string {
    match r
    case JustNow => "Baru saja"
    case MinutesAgo(n) => IntToString(n) + " menit yang lalu"
    case HoursAgo(n) => IntToString(n) + " jam yang lalu"
    case DaysAgo(n) => IntToString(n) + " hari yang lalu"
    case MonthsAgo(n) => IntToString(n) + " bulan yang lalu"
    case YearsAgo(n) => IntToString(n) + " tahun yang lalu"
  }

  /**
   * `getRelativeTime` as written, on the elapsed milliseconds `diff`: the units by
   * repeated floor division, 30-day months and 365-day years, and the first bucket
   * whose test passes. A date in the future is "Baru saja".
   */
  function RelativeAsWritten(diff: int): (r: Elapsed)
    ensures r == JustNow <==> diff < MINUTE
    ensures r.MinutesAgo? <==> MINUTE <= diff < HOUR
    ensures r.HoursAgo? <==> HOUR <= diff < DAY
    ensures r.DaysAgo? <==> DAY <= diff < 30 * DAY
    ensures r.MonthsAgo? <==> 30 * DAY <= diff < 360 * DAY
    ensures r.YearsAgo? <==> 360 * DAY <= diff
    ensures r.MinutesAgo? ==> r.n == diff / MINUTE
    ensures r.HoursAgo? ==> r.n == diff / HOUR
    ensures r.DaysAgo? ==> r.n == diff / DAY
    ensures r.MonthsAgo? ==> r.n == diff / (30 * DAY)
    ensures r.YearsAgo? ==> r.n == diff / (365 * DAY)
  {
    var seconds := diff / SECOND;
    var minutes := seconds / 60;
    var hours := minutes / 60;
    var days := hours / 24;
    var months := days / 30;
    var years := days / 365;
    if seconds < 60 then JustNow
    else if minutes < 60 then MinutesAgo(minutes)
    else if hours < 24 then HoursAgo(hours)
    else if days < 30 then DaysAgo(days)
    else if months < 12 then MonthsAgo(months)
    else YearsAgo(years)
  }

  /**
   * As written, an elapsed time of 360 to 364 days has 12 months and so falls to the
   * year bucket, where it shows "0 tahun yang lalu".
   */
  lemma ZeroYears()
    ensures RelativeAsWritten(360 * DAY) == YearsAgo(0)
    ensures RelativeText(RelativeAsWritten(360 * DAY)) == "0 tahun yang lalu"
  {
    assert NatToString(0) == "0";
  }

  /**
   * The buckets with the year bucket starting at a whole year (`days < 365` in place of
   * `months < 12`): 360 to 364 days show as 12 months.
   */
  function Bucket(diff: int): (r: Elapsed)
    ensures r == JustNow <==> diff < MINUTE
    ensures r.MinutesAgo? <==> MINUTE <= diff < HOUR
    ensures r.HoursAgo? <==> HOUR <= diff < DAY
    ensures r.DaysAgo? <==> DAY <= diff < 30 * DAY
    ensures r.MonthsAgo? <==> 30 * DAY <= diff < 365 * DAY
    ensures r.YearsAgo? <==> 365 * DAY <= diff
    ensures r.MinutesAgo? ==> r.n == diff / MINUTE
    ensures r.HoursAgo? ==> r.n == diff / HOUR
    ensures r.DaysAgo? ==> r.n == diff / DAY
    ensures r.MonthsAgo? ==> r.n == diff / (30 * DAY)
    ensures r.YearsAgo? ==> r.n == diff / (365 * DAY)
  {
    var seconds := diff / SECOND;
    var minutes := seconds / 60;
    var hours := minutes / 60;
    var days := hours / 24;
    var months := days / 30;
    var years := days / 365;
    if seconds < 60 then JustNow
    else if minutes < 60 then MinutesAgo(minutes)
    else if hours < 24 then HoursAgo(hours)
    else if days < 30 then DaysAgo(days)
    else if days < 365 then MonthsAgo(months)
    else YearsAgo(years)
  }

  /** Every count the corrected buckets show is at least 1, and below the next unit. */
  lemma CountsPositive(diff: int)
    ensures var r := Bucket(diff);
            && (r.MinutesAgo? ==> 1 <= r.n < 60)
            && (r.HoursAgo? ==> 1 <= r.n < 24)
            && (r.DaysAgo? ==> 1 <= r.n < 30)
            && (r.MonthsAgo? ==> 1 <= r.n <= 12)
            && (r.YearsAgo? ==> r.n >= 1)
  {
  }

  /** The corrected buckets agree with the code everywhere outside 360 to 364 days. */
  lemma AgreesOutsideGap(diff: int)
    requires diff < 360 * DAY || 365 * DAY <= diff
    ensures Bucket(diff) == RelativeAsWritten(diff)
  {
  }

  /**
   * `getRelativeTime(date)` at the time `now`, as written: "Baru saja" under a minute,
   * then whole minutes, hours, days and 30-day months, and from 360 days whole 365-day
   * years.
   */
  function GetRelativeTime(now: int, date: int): (text: string)
    ensures var diff := now - date;
            && (text == "Baru saja" <==> diff < MINUTE)
            && (MINUTE <= diff < HOUR ==> text == IntToString(diff / MINUTE) + " menit yang lalu")
            && (HOUR <= diff < DAY ==> text == IntToString(diff / HOUR) + " jam yang lalu")
            && (DAY <= diff < 30 * DAY ==> text == IntToString(diff / DAY) + " hari yang lalu")
            && (30 * DAY <= diff < 360 * DAY ==> text == IntToString(diff / (30 * DAY)) + " bulan yang lalu")
            && (360 * DAY <= diff ==> text == IntToString(diff / (365 * DAY)) + " tahun yang lalu")
  {
    var r := RelativeAsWritten(now - date);
    assert r != JustNow ==> RelativeText(r) != "Baru saja" by {
      if r != JustNow {
        NotJustNow(r);
      }
    }
    RelativeText(r)
  }

  /** `getRelativeTime(date)` at the time `now`, with the year bucket starting at 365 days. */
  function GetRelativeTimeCorrected(now: int, date: int): (text: string)
    ensures var diff := now - date;
            && (text == "Baru saja" <==> diff < MINUTE)
            && (MINUTE <= diff < HOUR ==> text == IntToString(diff / MINUTE) + " menit yang lalu")
            && (HOUR <= diff < DAY ==> text == IntToString(diff / HOUR) + " jam yang lalu")
            && (DAY <= diff < 30 * DAY ==> text == IntToString(diff / DAY) + " hari yang lalu")
            && (30 * DAY <= diff < 365 * DAY ==> text == IntToString(diff / (30 * DAY)) + " bulan yang lalu")
            && (365 * DAY <= diff ==> text == IntToString(diff / (365 * DAY)) + " tahun yang lalu")
  {
    var r := Bucket(now - date);
    assert r != JustNow ==> RelativeText(r) != "Baru saja" by {
      if r != JustNow {
        NotJustNow(r);
      }
    }
    RelativeText(r)
  }

  /** Only "Baru saja" reads "Baru saja": every other text starts with a digit. */
  lemma NotJustNow(r: Elapsed)
    requires r != JustNow && r.n >= 0
    ensures RelativeText(r) != "Baru saja"
  {
    var d := NatToString(r.n);
    assert RelativeText(r)[0] == d[0];
    assert IsDigit(d[0]);
  }
}
