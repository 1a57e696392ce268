/** The mock series generator: one record per day, built from a running
    total and a running closed count that grow by a random amount each day.
    The random draws are an input here, one Draw per day. */
module ChartData {
  import opened StoryPoints

  /** One day's random draws: points added and points completed. */
  datatype Draw = Draw(increase: int, completed: int)

  /** The ranges of `floor(random * 5) + 2` and `floor(random * 4) + 1`. */
  predicate ValidDraw(d: Draw)
  {
    2 <= d.increase <= 6 && 1 <= d.completed <= 4
  }

  predicate ValidDraws(draws: seq<Draw>)
  {
    forall i :: 0 <= i < |draws| ==> ValidDraw(draws[i])
  }

  /** The generator's two running counters. */
  datatype Running = Running(total: int, closed: int)

  /** One day of the loop: add both draws, then clamp closed down to total. */
  function Step(r: Running, d: Draw): (s: Running)
    ensures s.total == r.total + d.increase
    ensures s.closed <= s.total && s.closed <= r.closed + d.completed
    ensures s.closed == s.total || s.closed == r.closed + d.completed
  {
    var total := r.total + d.increase;
    var closed := r.closed + d.completed;
    Running(total, if closed > total then total else closed)
  }

  /** The counters after the given days' draws, starting from zero. */
  function RunAfter(draws: seq<Draw>): (r: Running)
    ensures r.closed <= r.total
    decreases |draws|
  {
    if |draws| == 0 then Running(0, 0)
    else Step(RunAfter(draws[..|draws| - 1]), draws[|draws| - 1])
  }

  /** The record emitted for `day`, each field capped by the profile. */
  function Entry(profile: Profile, day: int, r: Running): (e: StoryPoint)
    ensures e.date == day
    ensures e.total <= profile.totalStoryPoints && (e.total == r.total || e.total == profile.totalStoryPoints)
    ensures e.closed <= profile.closedStoryPoints && (e.closed == r.closed || e.closed == profile.closedStoryPoints)
    ensures e.inProgress <= profile.inProgressStoryPoints
    ensures e.inProgress == r.total - r.closed || e.inProgress == profile.inProgressStoryPoints
    ensures e.total <= r.total && e.closed <= r.closed && e.inProgress <= r.total - r.closed
  {
    StoryPoint(day,
      Min(r.total, profile.totalStoryPoints),
      Min(r.closed, profile.closedStoryPoints),
      Min(r.total - r.closed, profile.inProgressStoryPoints))
  }

  /** Number of days from `startDay` to `endDay` inclusive. */
  function DayCount(startDay: int, endDay: int): (n: nat)
    ensures startDay <= endDay ==> startDay + n == endDay + 1
    ensures endDay < startDay ==> n == 0
  {
    if startDay <= endDay then endDay - startDay + 1 else 0
  }

  /** Day d is one of the loop's days exactly when its offset from the
      start day is below DayCount. */
  lemma DayCountCounts(startDay: int, endDay: int, d: int)
    ensures startDay <= d <= endDay <==> 0 <= d - startDay < DayCount(startDay, endDay)
  {
  }

  /** The series the generator produces, one entry per draw. */
  function Series(profile: Profile, startDay: int, draws: seq<Draw>): (s: seq<StoryPoint>)
    ensures |s| == |draws|
    decreases |draws|
  {
    if |draws| == 0 then []
    else Series(profile, startDay, draws[..|draws| - 1])
         + [Entry(profile, startDay + |draws| - 1, RunAfter(draws))]
  }

  /** What every generated series satisfies: one entry per day in date
      order, every field within the profile's caps, closed not above total
      when the profile's own targets are consistent, and the running total
      and closed count never going down. */
  ghost predicate WellFormedSeries(s: seq<StoryPoint>, profile: Profile, startDay: int)
  {
    && Consecutive(s, startDay)
    && (forall i :: 0 <= i < |s| ==>
          && 0 <= s[i].total <= profile.totalStoryPoints
          && 0 <= s[i].closed <= profile.closedStoryPoints
          && 0 <= s[i].inProgress <= profile.inProgressStoryPoints
          && (profile.closedStoryPoints <= profile.totalStoryPoints ==> s[i].closed <= s[i].total))
    && (forall i :: 0 < i < |s| ==>
          s[i - 1].total <= s[i].total && s[i - 1].closed <= s[i].closed)
  }

  /** The generator loop. The counters start at zero; each day adds that
      day's draws, clamps closed to total and appends the capped record. */
  method GenerateChartData(profile: Profile, startDay: int, endDay: int, draws: seq<Draw>)
    returns (data: seq<StoryPoint>)
    requires |draws| == DayCount(startDay, endDay)
    requires ValidDraws(draws)
    ensures |data| == DayCount(startDay, endDay)
    ensures |data| > 0 ==> data[0].date == startDay && data[|data| - 1].date == endDay
    ensures data == Series(profile, startDay, draws)
    ensures WellFormedSeries(data, profile, startDay)
  {
    data := [];
    var iterDate := startDay;
    var cumulativeTotal := 0;
    var cumulativeClosed := 0;
    while iterDate <= endDay
      invariant startDay <= iterDate <= startDay + |draws|
      invariant 0 <= cumulativeClosed <= cumulativeTotal
      invariant Running(cumulativeTotal, cumulativeClosed) == RunAfter(draws[..iterDate - startDay])
      invariant data == Series(profile, startDay, draws[..iterDate - startDay])
    {
      var day := iterDate - startDay;
      var dailyIncrease := draws[day].increase;
      var dailyCompleted := draws[day].completed;
      cumulativeTotal := cumulativeTotal + dailyIncrease;
      cumulativeClosed := cumulativeClosed + dailyCompleted;
      if cumulativeClosed > cumulativeTotal {
        cumulativeClosed := cumulativeTotal;
      }
      data := data + [StoryPoint(iterDate,
        Min(cumulativeTotal, profile.totalStoryPoints),
        Min(cumulativeClosed, profile.closedStoryPoints),
        Min(cumulativeTotal - cumulativeClosed, profile.inProgressStoryPoints))];
      assert draws[..day + 1][..day] == draws[..day];
      iterDate := iterDate + 1;
    }
    assert draws[..iterDate - startDay] == draws;
    SeriesIsWellFormed(profile, startDay, draws);
    if |data| > 0 {
      assert data[|data| - 1].date == startDay + (|data| - 1);
    }
  }

  /** After any number of days, 0 <= closed <= total and the total has grown
      by at least two points a day. */
  lemma {:induction false} RunningClamped(draws: seq<Draw>)
    requires ValidDraws(draws)
    ensures 0 <= RunAfter(draws).closed <= RunAfter(draws).total
    ensures 2 * |draws| <= RunAfter(draws).total
    decreases |draws|
  {
    if |draws| > 0 {
      RunningClamped(draws[..|draws| - 1]);
    }
  }

  /** From one day to the next the running total strictly increases and the
      running closed count does not decrease. */
  lemma RunningMonotone(draws: seq<Draw>, i: nat)
    requires ValidDraws(draws)
    requires 0 < i <= |draws|
    ensures RunAfter(draws[..i - 1]).total < RunAfter(draws[..i]).total
    ensures RunAfter(draws[..i - 1]).closed <= RunAfter(draws[..i]).closed
  {
    assert draws[..i][..i - 1] == draws[..i - 1];
    RunningClamped(draws[..i - 1]);
  }

  /** Entry i of the series is the record for day startDay + i built from the
      counters after i + 1 days. */
  lemma {:induction false} SeriesAt(profile: Profile, startDay: int, draws: seq<Draw>, i: nat)
    requires i < |draws|
    ensures Series(profile, startDay, draws)[i] == Entry(profile, startDay + i, RunAfter(draws[..i + 1]))
    decreases |draws|
  {
    if i < |draws| - 1 {
      var prefix := draws[..|draws| - 1];
      SeriesAt(profile, startDay, prefix, i);
      assert prefix[..i + 1] == draws[..i + 1];
    } else {
      assert draws[..i + 1] == draws;
    }
  }

  /** One generated record: its date, its caps, and closed <= total when the
      profile's closed target does not exceed its total target. */
  lemma EntryBounds(profile: Profile, startDay: int, draws: seq<Draw>, i: nat)
    requires ValidDraws(draws)
    requires i < |draws|
    ensures var e := Series(profile, startDay, draws)[i];
      && e.date == startDay + i
      && 0 <= e.total <= profile.totalStoryPoints
      && 0 <= e.closed <= profile.closedStoryPoints
      && 0 <= e.inProgress <= profile.inProgressStoryPoints
      && (profile.closedStoryPoints <= profile.totalStoryPoints ==> e.closed <= e.total)
  {
    SeriesAt(profile, startDay, draws, i);
    assert ValidDraws(draws[..i + 1]);
    RunningClamped(draws[..i + 1]);
  }

  /** The emitted total and closed values never decrease from one day to the
      next. */
  lemma EntriesMonotone(profile: Profile, startDay: int, draws: seq<Draw>, i: nat)
    requires ValidDraws(draws)
    requires 0 < i < |draws|
    ensures var s := Series(profile, startDay, draws);
      s[i - 1].total <= s[i].total && s[i - 1].closed <= s[i].closed
  {
    SeriesAt(profile, startDay, draws, i - 1);
    SeriesAt(profile, startDay, draws, i);
    RunningMonotone(draws, i + 1);
    assert draws[..i + 1][..i] == draws[..i];
  }

  /** When no cap is reached, in progress is exactly total minus closed. */
  lemma InProgressWhenUncapped(profile: Profile, startDay: int, draws: seq<Draw>, i: nat)
    requires i < |draws|
    requires RunAfter(draws[..i + 1]).total <= profile.totalStoryPoints
    requires RunAfter(draws[..i + 1]).closed <= profile.closedStoryPoints
    requires RunAfter(draws[..i + 1]).total - RunAfter(draws[..i + 1]).closed <= profile.inProgressStoryPoints
    ensures var e := Series(profile, startDay, draws)[i];
      e.inProgress == e.total - e.closed
  {
    SeriesAt(profile, startDay, draws, i);
  }

  /** The whole series is well formed. */
  lemma SeriesIsWellFormed(profile: Profile, startDay: int, draws: seq<Draw>)
    requires ValidDraws(draws)
    ensures WellFormedSeries(Series(profile, startDay, draws), profile, startDay)
  {
    var s := Series(profile, startDay, draws);
    forall i | 0 <= i < |s|
      ensures s[i].date == startDay + i
      ensures 0 <= s[i].total <= profile.totalStoryPoints
      ensures 0 <= s[i].closed <= profile.closedStoryPoints
      ensures 0 <= s[i].inProgress <= profile.inProgressStoryPoints
      ensures profile.closedStoryPoints <= profile.totalStoryPoints ==> s[i].closed <= s[i].total
    {
      EntryBounds(profile, startDay, draws, i);
    }
    forall i | 0 < i < |s|
      ensures s[i - 1].total <= s[i].total && s[i - 1].closed <= s[i].closed
    {
      EntriesMonotone(profile, startDay, draws, i);
    }
  }

  /** For both of the dashboard's profiles, the series from 2024-01-01 to
      2024-07-15 has 197 entries and never shows more closed than total. */
  lemma DashboardSeries(draws: seq<Draw>, i: nat)
    requires |draws| == DayCount(StartDay, CurrentDay)
    requires ValidDraws(draws)
    requires i < |draws|
    ensures |draws| == 197
    ensures Series(AssignedProfile, StartDay, draws)[i].closed <= Series(AssignedProfile, StartDay, draws)[i].total
    ensures Series(ReporteeProfile, StartDay, draws)[i].closed <= Series(ReporteeProfile, StartDay, draws)[i].total
  {
    EntryBounds(AssignedProfile, StartDay, draws, i);
    EntryBounds(ReporteeProfile, StartDay, draws, i);
  }
}
