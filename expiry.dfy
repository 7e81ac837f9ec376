/**
 * The deadline classifier: a signed whole number of days until a scheme's
 * application deadline, rounded up, and the urgency tier of that count.
 *
 * The deadline is text that the platform's date parser turns into a
 * millisecond timestamp, or fails to ("Invalid Date"); the parser and the
 * clock are parameters here.
 */
module Expiry {
  import opened Wrappers

  const MillisecondsPerDay: int := 1000 * 60 * 60 * 24

  /** The last day count that is still urgent, and the last that is a warning. */
  const UrgentDays: int := 3
  const WarningDays: int := 7

  /** The engine's `number | null` day count: null, an integer, or NaN from an unparseable date. */
  datatype DayCount = Absent | Days(n: int) | NotANumber

  datatype ExpiryTier = Expired | Urgent | Warning | Safe | NoDeadline

  /** `Math.ceil(diffMs / MillisecondsPerDay)`: the least whole number of days covering `diffMs`. */
  function CeilDays(diffMs: int): (d: int)
    ensures (d - 1) * MillisecondsPerDay < diffMs <= d * MillisecondsPerDay
  {
    -((-diffMs) / MillisecondsPerDay)
  }

  /**
   * `getDaysUntilExpiry`: null for a missing or empty deadline, NaN for text
   * the parser rejects, otherwise the time left rounded up to whole days.
   */
  function DaysUntilExpiry(deadline: Option<string>, parse: string -> Option<int>, nowMs: int): (r: DayCount)
    ensures r.Absent? <==> deadline.None? || deadline.value == ""
    ensures r.NotANumber? <==> deadline.Some? && deadline.value != "" && parse(deadline.value).None?
    ensures r.Days? ==> deadline.Some? && parse(deadline.value).Some?
    ensures r.Days? ==> (r.n - 1) * MillisecondsPerDay < parse(deadline.value).value - nowMs <= r.n * MillisecondsPerDay
  {
    if deadline.None? || deadline.value == "" then Absent
    else match parse(deadline.value)
      case None => NotANumber
      case Some(deadlineMs) => Days(CeilDays(deadlineMs - nowMs))
  }

  /**
   * `getExpiryStatus`: exactly one tier per day count. A NaN count fails
   * every comparison and so falls through to `Safe`.
   */
  function ExpiryStatus(days: DayCount): (t: ExpiryTier)
    ensures t == NoDeadline <==> days.Absent?
    ensures t == Expired <==> days.Days? && days.n < 0
    ensures t == Urgent <==> days.Days? && 0 <= days.n <= UrgentDays
    ensures t == Warning <==> days.Days? && UrgentDays < days.n <= WarningDays
    ensures t == Safe <==> days.NotANumber? || (days.Days? && days.n > WarningDays)
  {
    match days
    case Absent => NoDeadline
    case NotANumber => Safe
    case Days(d) =>
      if d < 0 then Expired
      else if d <= UrgentDays then Urgent
      else if d <= WarningDays then Warning
      else Safe
  }

  /** Position of a dated tier along expired, urgent, warning, safe; a missing deadline has none. */
  function Rank(t: ExpiryTier): nat
    requires t != NoDeadline
  {
    match t
    case Expired => 0
    case Urgent => 1
    case Warning => 2
    case Safe => 3
  }

  /** The exact boundaries: day 3 is urgent, day 4 a warning, day 7 a warning, day 8 safe. */
  lemma TierBoundaries()
    ensures ExpiryStatus(Absent) == NoDeadline
    ensures ExpiryStatus(Days(-1)) == Expired
    ensures ExpiryStatus(Days(0)) == Urgent
    ensures ExpiryStatus(Days(3)) == Urgent
    ensures ExpiryStatus(Days(4)) == Warning
    ensures ExpiryStatus(Days(7)) == Warning
    ensures ExpiryStatus(Days(8)) == Safe
    ensures ExpiryStatus(NotANumber) == Safe
  {
  }

  /** More days left never moves the tier backwards along expired, urgent, warning, safe. */
  lemma TierMonotone(a: int, b: int)
    requires a <= b
    ensures Rank(ExpiryStatus(Days(a))) <= Rank(ExpiryStatus(Days(b)))
  {
  }

  /** A later deadline never has fewer days left. */
  lemma CeilDaysMonotone(x: int, y: int)
    requires x <= y
    ensures CeilDays(x) <= CeilDays(y)
  {
  }

  /**
   * Rounding up: a deadline that passed less than a day ago still counts as
   * 0 days (urgent, not expired); one up to a day ahead counts as 1.
   */
  lemma WithinADay(diffMs: int)
    ensures -MillisecondsPerDay < diffMs <= 0 ==> CeilDays(diffMs) == 0
    ensures 0 < diffMs <= MillisecondsPerDay ==> CeilDays(diffMs) == 1
  {
  }

  /**
   * The tier of a deadline, stated on the time left in milliseconds: expired
   * once a full day has passed, urgent up to three days ahead, a warning up
   * to seven, safe beyond, and safe as well for text the parser rejects.
   */
  lemma DeadlineTier(deadline: Option<string>, parse: string -> Option<int>, nowMs: int)
    requires deadline.Some? && deadline.value != ""
    ensures parse(deadline.value).None? ==> ExpiryStatus(DaysUntilExpiry(deadline, parse, nowMs)) == Safe
    ensures parse(deadline.value).Some? ==>
      var left := parse(deadline.value).value - nowMs;
      var t := ExpiryStatus(DaysUntilExpiry(deadline, parse, nowMs));
      && (t == Expired <==> left <= -MillisecondsPerDay)
      && (t == Urgent <==> -MillisecondsPerDay < left <= UrgentDays * MillisecondsPerDay)
      && (t == Warning <==> UrgentDays * MillisecondsPerDay < left <= WarningDays * MillisecondsPerDay)
      && (t == Safe <==> WarningDays * MillisecondsPerDay < left)
  {
  }
}
