/** `formatDistanceToNow` of src/lib/date-utils.ts: the Hebrew "time ago" label
    for a timestamp. Both instants are integer milliseconds; the clock reading
    `now` is a parameter. */
module DateUtils {
  import opened Common

  /** The bucket a distance falls into, with the number printed in the label. */
  datatype Ago =
    | JustNow
    | Minutes(n: nat)
    | Hours(n: nat)
    | Days(n: nat)
    | Weeks(n: nat)
    | Months(n: nat)
    | Years(n: nat)

  /** `Math.floor((now - past) / 1000)`: Dafny's `/` with a positive divisor
      rounds toward negative infinity, as `Math.floor` does. */
  function ElapsedSeconds(now: int, past: int): (s: int)
    ensures s * 1000 <= now - past < (s + 1) * 1000
  {
    (now - past) / 1000
  }

  /** Lines 4-36 as written: each unit is the floor of the previous one. */
  function AsWrittenBucket(now: int, past: int): Ago {
    var seconds := ElapsedSeconds(now, past);
    if seconds < 60 then JustNow
    else
      var minutes := seconds / 60;
      if minutes < 60 then Minutes(minutes)
      else
        var hours := minutes / 60;
        if hours < 24 then Hours(hours)
        else
          var days := hours / 24;
          if days < 7 then Days(days)
          else
            var weeks := days / 7;
            if weeks < 4 then Weeks(weeks)
            else
              var months := days / 30;
              if months < 12 then Months(months)
              else Years(days / 365)
  }

  /** The label text of each bucket (lines 7, 12, 17, 22, 27, 32, 36). */
  function Render(a: Ago): string {
    match a
    case JustNow => "לפני רגע"
    case Minutes(n) => "לפני " + NatToString(n) + " דקות"
    case Hours(n) => "לפני " + NatToString(n) + " שעות"
    case Days(n) => "לפני " + NatToString(n) + " ימים"
    case Weeks(n) => "לפני " + NatToString(n) + " שבועות"
    case Months(n) => "לפני " + NatToString(n) + " חודשים"
    case Years(n) => "לפני " + NatToString(n) + " שנים"
  }

  /** `formatDistanceToNow(past)` read at `now`, as written. */
  function AsWrittenFormatDistanceToNow(now: int, past: int): string {
    Render(AsWrittenBucket(now, past))
  }

  /** Flooring by minutes, hours and days in turn is flooring by their
      products. */
  lemma FloorChain(s: int)
    requires s >= 0
    ensures s / 60 / 60 == s / 3600
    ensures s / 60 / 60 / 24 == s / 86400
    ensures s / 86400 / 7 == s / 604800
  {
  }

  /** The number `n` printed with a unit of `unit` seconds is the floor of the
      elapsed seconds over that unit. */
  predicate Floors(n: int, unit: int, seconds: int) {
    n * unit <= seconds < (n + 1) * unit
  }

  /** Lines 4-28: under four weeks each label shows whole elapsed units, in the
      ranges 1-59 minutes, 1-23 hours, 1-6 days and 1-3 weeks; anything under a
      minute, a future date included, is "just now". */
  lemma BucketsUnderFourWeeks(now: int, past: int)
    ensures var s := ElapsedSeconds(now, past); var b := AsWrittenBucket(now, past);
      && (b == JustNow <==> s < 60)
      && (b.Minutes? ==> 1 <= b.n <= 59 && Floors(b.n, 60, s))
      && (b.Hours? ==> 1 <= b.n <= 23 && Floors(b.n, 3600, s))
      && (b.Days? ==> 1 <= b.n <= 6 && Floors(b.n, 86400, s))
      && (b.Weeks? ==> 1 <= b.n <= 3 && Floors(b.n, 604800, s))
  {
    var s := ElapsedSeconds(now, past);
    if s >= 60 {
      FloorChain(s);
    }
  }

  /** The number of whole days elapsed once past the hour ranges. */
  lemma DaysElapsed(now: int, past: int)
    requires ElapsedSeconds(now, past) >= 60
    ensures ElapsedSeconds(now, past) / 60 / 60 / 24 == ElapsedSeconds(now, past) / 86400
  {
    var s := ElapsedSeconds(now, past);
    FloorChain(s);
  }

  /** Lines 25-36: past four weeks of days the label is in months, 0 to 11 of
      them, from day 28 on, then in years from day 360 on. */
  lemma BucketsFromFourWeeks(now: int, past: int)
    ensures var days := ElapsedSeconds(now, past) / 86400; var b := AsWrittenBucket(now, past);
      && (b.Months? ==> 28 <= days < 360 && b.n == days / 30 <= 11)
      && (b.Years? ==> days >= 360 && b.n == days / 365)
  {
    if ElapsedSeconds(now, past) >= 60 {
      DaysElapsed(now, past);
    }
  }

  /** Line 32 for 28 and 29 days: the label says zero months. */
  lemma AsWrittenZeroMonths(now: int)
    ensures AsWrittenBucket(now, now - 28 * 86400000) == Months(0)
    ensures AsWrittenFormatDistanceToNow(now, now - 29 * 86400000) == "לפני 0 חודשים"
  {
    assert ElapsedSeconds(now, now - 28 * 86400000) == 28 * 86400;
    assert ElapsedSeconds(now, now - 29 * 86400000) == 29 * 86400;
    assert NatToString(0) == "0";
  }

  /** Line 36 for 360 to 364 days: the label says zero years. */
  lemma AsWrittenZeroYears(now: int)
    ensures AsWrittenBucket(now, now - 360 * 86400000) == Years(0)
    ensures AsWrittenFormatDistanceToNow(now, now - 364 * 86400000) == "לפני 0 שנים"
  {
    assert ElapsedSeconds(now, now - 360 * 86400000) == 360 * 86400;
    assert ElapsedSeconds(now, now - 364 * 86400000) == 364 * 86400;
    assert NatToString(0) == "0";
  }

  /** The evidently intended bucketing: weeks until the first full month (day
      30) and months until the first full year (day 365). */
  function Bucket(now: int, past: int): (b: Ago)
    ensures b != JustNow ==> b.n >= 1
  {
    var seconds := ElapsedSeconds(now, past);
    if seconds < 60 then JustNow
    else
      var minutes := seconds / 60;
      if minutes < 60 then Minutes(minutes)
      else
        var hours := minutes / 60;
        if hours < 24 then Hours(hours)
        else
          var days := hours / 24;
          if days < 7 then Days(days)
          else if days < 30 then Weeks(days / 7)
          else if days < 365 then Months(days / 30)
          else Years(days / 365)
  }

  /** The label the corrected bucketing prints. */
  function FormatDistanceToNow(now: int, past: int): string {
    Render(Bucket(now, past))
  }

  /** The corrected bucketing never prints zero of a unit, shows whole units
      elapsed, and differs from the code as written only on days 28-29 and
      360-364. */
  lemma BucketCorrected(now: int, past: int)
    ensures var days := ElapsedSeconds(now, past) / 86400; var b := Bucket(now, past);
      && (b.Weeks? ==> 1 <= b.n <= 4 && 7 <= days < 30)
      && (b.Months? ==> 1 <= b.n <= 12 && 30 <= days < 365 && b.n * 30 <= days < (b.n + 1) * 30)
      && (b.Years? ==> days >= 365 && b.n * 365 <= days < (b.n + 1) * 365)
      && (b != AsWrittenBucket(now, past) <==> 28 <= days < 30 || 360 <= days < 365)
  {
    if ElapsedSeconds(now, past) >= 60 {
      DaysElapsed(now, past);
    }
  }
}
