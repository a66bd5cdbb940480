/**
 * The fields `DelayModel.preprocess` derives from a flight's timestamps in training mode:
 * high season, period of day, minute gap and the delay label.
 */
module Derived {

  import opened Wrappers
  import opened DateTimes

  // ---------------------------------------------------------------- high season

  /** Midnight of a calendar day; `strptime('31-Dec', '%d-%b').replace(year=y)` is such a value. */
  function Midnight(y: int, m: int, d: int): DateTime
  {
    DateTime(y, m, d, 0, 0, 0)
  }

  /** `start <= t <= end`, both bounds midnight of a day in `t`'s own year. */
  predicate InWindow(t: DateTime, startMonth: int, startDay: int, endMonth: int, endDay: int)
  {
    AtOrBefore(Midnight(t.year, startMonth, startDay), t) &&
    AtOrBefore(t, Midnight(t.year, endMonth, endDay))
  }

  /** `_is_high_season`: 1 inside one of the four windows Dec 15–Dec 31, Jan 1–Mar 3, Jul 15–Jul 31, Sep 11–Sep 30. */
  function IsHighSeason(t: DateTime): (r: int)
    ensures r == 0 || r == 1
  {
    if InWindow(t, 12, 15, 12, 31) || InWindow(t, 1, 1, 3, 3) ||
       InWindow(t, 7, 15, 7, 31) || InWindow(t, 9, 11, 9, 30)
    then 1 else 0
  }

  predicate IsMidnight(t: DateTime)
  {
    t.hour == 0 && t.minute == 0 && t.second == 0
  }

  /**
   * High season by calendar fields: every instant from the first day of a window up to
   * midnight that opens its last day; the rest of that last day is outside.
   */
  lemma HighSeasonByCalendar(t: DateTime)
    requires Valid(t)
    ensures IsHighSeason(t) == 1 <==>
      (t.month == 12 && 15 <= t.day && (t.day < 31 || IsMidnight(t))) ||
      (t.month <= 2 || (t.month == 3 && (t.day < 3 || (t.day == 3 && IsMidnight(t))))) ||
      (t.month == 7 && 15 <= t.day && (t.day < 31 || IsMidnight(t))) ||
      (t.month == 9 && 11 <= t.day && (t.day < 30 || IsMidnight(t)))
  {
  }

  /** `t` lies, in elapsed time, between the two midnights of a window of its own year. */
  predicate InWindowBySeconds(t: DateTime, startMonth: int, startDay: int, endMonth: int, endDay: int)
    requires Valid(t) && Valid(Midnight(t.year, startMonth, startDay)) && Valid(Midnight(t.year, endMonth, endDay))
  {
    Seconds(Midnight(t.year, startMonth, startDay)) <= Seconds(t) <= Seconds(Midnight(t.year, endMonth, endDay))
  }

  lemma InWindowAsInterval(t: DateTime, startMonth: int, startDay: int, endMonth: int, endDay: int)
    requires Valid(t) && Valid(Midnight(t.year, startMonth, startDay)) && Valid(Midnight(t.year, endMonth, endDay))
    ensures InWindow(t, startMonth, startDay, endMonth, endDay) <==> InWindowBySeconds(t, startMonth, startDay, endMonth, endDay)
  {
    SecondsOrder(Midnight(t.year, startMonth, startDay), t);
    SecondsOrder(t, Midnight(t.year, endMonth, endDay));
  }

  /** The high-season flag is membership of a closed interval of elapsed time, for one of the four windows. */
  lemma HighSeasonAsInterval(t: DateTime)
    requires Valid(t)
    ensures IsHighSeason(t) == 1 <==>
      InWindowBySeconds(t, 12, 15, 12, 31) || InWindowBySeconds(t, 1, 1, 3, 3) ||
      InWindowBySeconds(t, 7, 15, 7, 31) || InWindowBySeconds(t, 9, 11, 9, 30)
  {
    InWindowAsInterval(t, 12, 15, 12, 31);
    InWindowAsInterval(t, 1, 1, 3, 3);
    InWindowAsInterval(t, 7, 15, 7, 31);
    InWindowAsInterval(t, 9, 11, 9, 30);
  }

  /** The boundary instants: a window's first midnight is in, the second before it and the second after its last midnight are out. */
  lemma HighSeasonBoundaries(y: int)
    requires MinYear <= y <= MaxYear
    ensures IsHighSeason(DateTime(y, 12, 15, 0, 0, 0)) == 1
    ensures IsHighSeason(DateTime(y, 12, 14, 23, 59, 59)) == 0
    ensures IsHighSeason(DateTime(y, 12, 31, 0, 0, 0)) == 1
    ensures IsHighSeason(DateTime(y, 12, 31, 0, 0, 1)) == 0
    ensures IsHighSeason(DateTime(y, 12, 31, 10, 0, 0)) == 0
    ensures IsHighSeason(DateTime(y, 3, 3, 0, 0, 0)) == 1
    ensures IsHighSeason(DateTime(y, 3, 4, 0, 0, 0)) == 0
  {
  }

  // ---------------------------------------------------------------- period of day

  /** 'mañana', 'tarde' and 'noche'. */
  datatype Period = Morning | Afternoon | Night

  /** The string `_get_period_day` returns for a bucket. */
  function PeriodName(p: Period): string
  {
    match p
    case Morning => "ma\U{00F1}ana"
    case Afternoon => "tarde"
    case Night => "noche"
  }

  /** The value stored in the `period_day` column: the bucket's name, or `None`. */
  function PeriodCell(p: Option<Period>): Option<string>
  {
    match p
    case Some(q) => Some(PeriodName(q))
    case None => None
  }

  /** `datetime.time` without microseconds. */
  datatype TimeOfDay = TimeOfDay(hour: int, minute: int, second: int)

  function TimeOf(t: DateTime): TimeOfDay
  {
    TimeOfDay(t.hour, t.minute, t.second)
  }

  /** `a < b` on times: fields compared most significant first. */
  predicate TimeBefore(a: TimeOfDay, b: TimeOfDay)
  {
    if a.hour != b.hour then a.hour < b.hour
    else if a.minute != b.minute then a.minute < b.minute
    else a.second < b.second
  }

  function TimeSeconds(x: TimeOfDay): int
  {
    x.hour * 3600 + x.minute * 60 + x.second
  }

  /** On times with in-range minutes and seconds, the field order is the order of seconds since midnight. */
  lemma TimeBeforeIsEarlier(a: TimeOfDay, b: TimeOfDay)
    ensures 0 <= a.minute < 60 && 0 <= a.second < 60 && 0 <= b.minute < 60 && 0 <= b.second < 60 ==>
      (TimeBefore(a, b) <==> TimeSeconds(a) < TimeSeconds(b))
  {
  }

  /** The buckets read off the second of the day. */
  function PeriodOfSecond(s: int): Option<Period>
  {
    if 18000 < s < 43140 then Some(Morning)
    else if 43200 < s < 68340 then Some(Afternoon)
    else if 68400 < s < 86340 || 0 < s < 17940 then Some(Night)
    else None
  }

  /**
   * `_get_period_day`: each bucket is an open interval between two "HH:MM" times; an instant
   * on a bound, or in the minute between two buckets, gets no period (Python's `None`).
   * On a valid timestamp this is the bucket of its second of the day.
   */
  function PeriodOfDay(t: DateTime): (r: Option<Period>)
    ensures Valid(t) ==> r == PeriodOfSecond(SecondOfDay(t))
  {
    var x := TimeOf(t);
    TimeBeforeIsEarlier(TimeOfDay(5, 0, 0), x);
    TimeBeforeIsEarlier(x, TimeOfDay(11, 59, 0));
    TimeBeforeIsEarlier(TimeOfDay(12, 0, 0), x);
    TimeBeforeIsEarlier(x, TimeOfDay(18, 59, 0));
    TimeBeforeIsEarlier(TimeOfDay(19, 0, 0), x);
    TimeBeforeIsEarlier(x, TimeOfDay(23, 59, 0));
    TimeBeforeIsEarlier(TimeOfDay(0, 0, 0), x);
    TimeBeforeIsEarlier(x, TimeOfDay(4, 59, 0));
    assert SecondOfDay(t) == TimeSeconds(x);
    if TimeBefore(TimeOfDay(5, 0, 0), x) && TimeBefore(x, TimeOfDay(11, 59, 0)) then Some(Morning)
    else if TimeBefore(TimeOfDay(12, 0, 0), x) && TimeBefore(x, TimeOfDay(18, 59, 0)) then Some(Afternoon)
    else if (TimeBefore(TimeOfDay(19, 0, 0), x) && TimeBefore(x, TimeOfDay(23, 59, 0))) ||
            (TimeBefore(TimeOfDay(0, 0, 0), x) && TimeBefore(x, TimeOfDay(4, 59, 0)))
    then Some(Night)
    else None
  }

  /**
   * The buckets as intervals of the second of the day `s`: morning (18000, 43140),
   * afternoon (43200, 68340), night (68400, 86340) or (0, 17940); every other second,
   * the bounds included, gets no period, and no second gets two.
   */
  lemma PeriodBySecondOfDay(t: DateTime)
    requires Valid(t)
    ensures PeriodOfDay(t) == Some(Morning) <==> 18000 < SecondOfDay(t) < 43140
    ensures PeriodOfDay(t) == Some(Afternoon) <==> 43200 < SecondOfDay(t) < 68340
    ensures PeriodOfDay(t) == Some(Night) <==> 68400 < SecondOfDay(t) < 86340 || 0 < SecondOfDay(t) < 17940
    ensures PeriodOfDay(t) == None <==>
      SecondOfDay(t) == 0 || 17940 <= SecondOfDay(t) <= 18000 || 43140 <= SecondOfDay(t) <= 43200 ||
      68340 <= SecondOfDay(t) <= 68400 || 86340 <= SecondOfDay(t)
  {
  }

  /** Instants on the bounds fall into no bucket. */
  lemma PeriodBoundaries(y: int, m: int, d: int)
    ensures PeriodOfDay(DateTime(y, m, d, 5, 0, 0)) == None
    ensures PeriodOfDay(DateTime(y, m, d, 5, 0, 1)) == Some(Morning)
    ensures PeriodOfDay(DateTime(y, m, d, 11, 59, 30)) == None
    ensures PeriodOfDay(DateTime(y, m, d, 12, 0, 0)) == None
    ensures PeriodOfDay(DateTime(y, m, d, 0, 0, 0)) == None
    ensures PeriodOfDay(DateTime(y, m, d, 23, 59, 0)) == None
  {
  }

  // ---------------------------------------------------------------- minute gap and label

  /**
   * `_get_min_diff`: (Fecha-O - Fecha-I).total_seconds() / 60, a signed number of minutes:
   * negative exactly when the flight left early, zero exactly when on time, positive when late.
   */
  function MinDiff(scheduled: DateTime, actual: DateTime): (r: real)
    requires Valid(scheduled) && Valid(actual)
    ensures r < 0.0 <==> Before(actual, scheduled)
    ensures r == 0.0 <==> actual == scheduled
    ensures r > 0.0 <==> Before(scheduled, actual)
  {
    SecondsOrder(actual, scheduled);
    SecondsOrder(scheduled, actual);
    (Seconds(actual) - Seconds(scheduled)) as real / 60.0
  }

  /** Swapping the two timestamps negates the gap. */
  lemma MinDiffAntisymmetric(a: DateTime, b: DateTime)
    requires Valid(a) && Valid(b)
    ensures MinDiff(b, a) == -MinDiff(a, b)
  {
  }

  /** The delay label: 1 when the gap strictly exceeds the threshold. */
  function DelayLabel(minDiff: real, threshold: real): (r: int)
    ensures r == 0 || r == 1
  {
    if minDiff > threshold then 1 else 0
  }

  /**
   * A flight is labelled delayed exactly when it left more than `threshold` minutes after
   * schedule; with a non-negative threshold an early or on-time flight is never delayed.
   */
  lemma DelayLabelMeaning(scheduled: DateTime, actual: DateTime, threshold: real)
    requires Valid(scheduled) && Valid(actual)
    ensures DelayLabel(MinDiff(scheduled, actual), threshold) == 1 <==>
      (Seconds(actual) - Seconds(scheduled)) as real > 60.0 * threshold
    ensures threshold >= 0.0 && AtOrBefore(actual, scheduled) ==> DelayLabel(MinDiff(scheduled, actual), threshold) == 0
  {
  }

  /** A gap exactly equal to the threshold is not a delay. */
  lemma DelayLabelAtThreshold(threshold: real)
    ensures DelayLabel(threshold, threshold) == 0
  {
  }
}
