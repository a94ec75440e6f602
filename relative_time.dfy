/**
 * `getTimeAgo`: how long ago a history entry was made, as a bucket of whole
 * minutes, hours or days, or "show the calendar date" after a week.
 */
module RelativeTime {

  const Minute: int := 60
  const Hour: int := 3600
  const Day: int := 86400
  const Week: int := 604800

  /** The bucket `getTimeAgo` renders; the text itself is the view's concern. */
  datatype Age = JustNow | MinutesAgo(count: int) | HoursAgo(count: int) | DaysAgo(count: int) | CalendarDate

  /**
   * `Math.floor((now - date) / 1000)`: whole seconds elapsed between two
   * instants given in milliseconds. The instant may lie in the future, so the
   * difference may be negative; the division rounds down either way.
   */
  function ElapsedSeconds(nowMs: int, dateMs: int): (s: int)
    ensures s * 1000 <= nowMs - dateMs < s * 1000 + 1000
  {
    (nowMs - dateMs) / 1000
  }

  /**
   * The bucket for `seconds` elapsed. Each count is the number of whole units
   * elapsed, so it is at least 1 and below the next unit.
   */
  function TimeAgo(seconds: int): (r: Age)
    ensures r.JustNow? <==> seconds < Minute
    ensures r.MinutesAgo? <==> Minute <= seconds < Hour
    ensures r.HoursAgo? <==> Hour <= seconds < Day
    ensures r.DaysAgo? <==> Day <= seconds < Week
    ensures r.CalendarDate? <==> Week <= seconds
    ensures r.MinutesAgo? ==> 1 <= r.count < 60 && r.count * Minute <= seconds < (r.count + 1) * Minute
    ensures r.HoursAgo? ==> 1 <= r.count < 24 && r.count * Hour <= seconds < (r.count + 1) * Hour
    ensures r.DaysAgo? ==> 1 <= r.count < 7 && r.count * Day <= seconds < (r.count + 1) * Day
  {
    if seconds < Minute then JustNow
    else if seconds < Hour then MinutesAgo(seconds / Minute)
    else if seconds < Day then HoursAgo(seconds / Hour)
    else if seconds < Week then DaysAgo(seconds / Day)
    else CalendarDate
  }

  /** `getTimeAgo(date)` evaluated at the instant `nowMs`. */
  function GetTimeAgo(nowMs: int, dateMs: int): (r: Age)
    ensures r.JustNow? <==> nowMs - dateMs < Minute * 1000
    ensures r.CalendarDate? <==> Week * 1000 <= nowMs - dateMs
  {
    TimeAgo(ElapsedSeconds(nowMs, dateMs))
  }

  /** The order of the buckets, from the most recent to the oldest. */
  function Rank(a: Age): nat {
    match a
    case JustNow => 0
    case MinutesAgo(_) => 1
    case HoursAgo(_) => 2
    case DaysAgo(_) => 3
    case CalendarDate => 4
  }

  /** An older entry never lands in a more recent bucket, nor shows a smaller count in the same bucket. */
  lemma TimeAgoMonotone(s1: int, s2: int)
    requires s1 <= s2
    ensures Rank(TimeAgo(s1)) <= Rank(TimeAgo(s2))
    ensures var a1, a2 := TimeAgo(s1), TimeAgo(s2);
            Rank(a1) == Rank(a2) && (a1.MinutesAgo? || a1.HoursAgo? || a1.DaysAgo?) ==> a1.count <= a2.count
  {
  }

  /** The bucket boundaries, on either side of each threshold. */
  lemma TimeAgoBoundaries()
    ensures TimeAgo(59) == JustNow && TimeAgo(60) == MinutesAgo(1)
    ensures TimeAgo(3599) == MinutesAgo(59) && TimeAgo(3600) == HoursAgo(1)
    ensures TimeAgo(86399) == HoursAgo(23) && TimeAgo(86400) == DaysAgo(1)
    ensures TimeAgo(604799) == DaysAgo(6) && TimeAgo(604800) == CalendarDate
  {
  }
}
