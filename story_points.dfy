/** The records the dashboard works with, and the calendar it uses.
    Calendar dates are day numbers: day 0 is 1970-01-01, so the date
    strings of the dashboard become plain integers one apart per day. */
module StoryPoints {

  datatype Option<T> = None | Some(value: T)

  /** One day of the mock series: the running total, the running number of
      closed points and the points still in progress, each capped by the
      profile's target. */
  datatype StoryPoint = StoryPoint(date: int, total: int, closed: int, inProgress: int)

  /** A contributor's profile: the final target values of the series (the
      display-only name, designation and avatar are not modelled). */
  datatype Profile = Profile(
    totalStoryPoints: nat,
    closedStoryPoints: nat,
    inProgressStoryPoints: nat)

  /** 2024-01-01, the first day of the mock series. */
  const StartDay: int := 19723
  /** 2024-07-15, the fixed "current date" of the dashboard. */
  const CurrentDay: int := 19919

  const AssignedProfile: Profile := Profile(1247, 1089, 158)

  const ReporteeProfile: Profile := Profile(2847, 2456, 391)

  /** The smaller of two integers (Math.min). */
  function Min(a: int, b: int): (m: int)
    ensures m <= a && m <= b
    ensures m == a || m == b
  {
    if a <= b then a else b
  }

  /** The larger of two integers. */
  function Max(a: int, b: int): (m: int)
    ensures m >= a && m >= b
    ensures m == a || m == b
  {
    if a >= b then a else b
  }

  /** Dates one day apart from `startDay` on: entry i is dated startDay + i. */
  ghost predicate Consecutive(s: seq<StoryPoint>, startDay: int)
  {
    forall i :: 0 <= i < |s| ==> s[i].date == startDay + i
  }
}
