/** The current-week highlight: the Sunday-to-Saturday week that contains
    the dashboard's "current date", and the chart indices dated inside it. */
module CurrentWeek {
  import opened StoryPoints

  /** Day of the week, Sunday = 0 (Date.getDay); 1970-01-01 was a Thursday. */
  function Weekday(day: int): (w: int)
    ensures 0 <= w < 7
  {
    (day + 4) % 7
  }

  /** The next day is the next day of the week. */
  lemma WeekdayNext(day: int)
    ensures Weekday(day + 1) == (Weekday(day) + 1) % 7
  {
  }

  /** Calendar anchors: day 0 was a Thursday, and the series' first day and
      the dashboard's current date were Mondays. */
  lemma WeekdayAnchors()
    ensures Weekday(0) == 4
    ensures Weekday(StartDay) == 1 && Weekday(CurrentDay) == 1
  {
  }

  datatype WeekRange = WeekRange(start: int, end: int)

  /** The week from the Sunday on or before `now` to six days later. */
  function CurrentWeekRange(now: int): (r: WeekRange)
    ensures Weekday(r.start) == 0
    ensures r.start <= now <= r.end
    ensures r.end == r.start + 6
  {
    var start := now - Weekday(now);
    WeekRange(start, start + 6)
  }

  /** It is the only Sunday-start week that contains `now`. */
  lemma WeekRangeUnique(now: int, sunday: int)
    requires Weekday(sunday) == 0
    requires sunday <= now <= sunday + 6
    ensures sunday == CurrentWeekRange(now).start
  {
    var start := CurrentWeekRange(now).start;
    var q1 := (sunday + 4) / 7;
    var q2 := (start + 4) / 7;
    assert sunday + 4 == 7 * q1;
    assert start + 4 == 7 * q2;
    assert -6 <= 7 * (q1 - q2) <= 6;
  }

  /** The indices i >= from whose entry is dated within [lo, hi], ascending. */
  function IndicesFrom(data: seq<StoryPoint>, lo: int, hi: int, from: nat): (r: seq<int>)
    requires from <= |data|
    ensures forall k :: 0 <= k < |r| ==> from <= r[k] < |data| && lo <= data[r[k]].date <= hi
    ensures forall k, l :: 0 <= k < l < |r| ==> r[k] < r[l]
    ensures forall j :: from <= j < |data| && lo <= data[j].date <= hi ==> j in r
    decreases |data| - from
  {
    if from == |data| then []
    else
      var rest := IndicesFrom(data, lo, hi, from + 1);
      if lo <= data[from].date <= hi then [from] + rest else rest
  }

  /** The indices of the entries dated within the week. */
  function WeekIndices(data: seq<StoryPoint>, week: WeekRange): (r: seq<int>)
    ensures forall k :: 0 <= k < |r| ==> 0 <= r[k] < |data| && week.start <= data[r[k]].date <= week.end
    ensures forall k, l :: 0 <= k < l < |r| ==> r[k] < r[l]
    ensures forall j :: 0 <= j < |data| && week.start <= data[j].date <= week.end ==> j in r
  {
    IndicesFrom(data, week.start, week.end, 0)
  }

  /** The integers lo, lo + 1, ..., hi - 1. */
  function Range(lo: int, hi: int): (r: seq<int>)
    ensures |r| == if lo < hi then hi - lo else 0
    ensures forall k :: 0 <= k < |r| ==> r[k] == lo + k
    decreases hi - lo
  {
    if lo >= hi then [] else [lo] + Range(lo + 1, hi)
  }

  /** On a series with one entry per day, the entries in [lo, hi] are one
      contiguous run of indices. */
  lemma {:induction false} IndicesOnConsecutive(data: seq<StoryPoint>, startDay: int, lo: int, hi: int, from: nat)
    requires Consecutive(data, startDay)
    requires from <= |data|
    ensures IndicesFrom(data, lo, hi, from) == Range(Max(from, lo - startDay), Min(|data|, hi - startDay + 1))
    decreases |data| - from
  {
    if from < |data| {
      IndicesOnConsecutive(data, startDay, lo, hi, from + 1);
      var rest := IndicesFrom(data, lo, hi, from + 1);
      var m := Min(|data|, hi - startDay + 1);
      assert data[from].date == startDay + from;
      if lo - startDay <= from <= hi - startDay {
        assert rest == Range(from + 1, m);
        assert Range(from, m) == [from] + Range(from + 1, m);
      } else if from < lo - startDay {
        assert Max(from, lo - startDay) == Max(from + 1, lo - startDay);
      } else {
        assert m <= from;
      }
    }
  }

  /** On the dashboard's series from 2024-01-01 to 2024-07-15, the current
      week (Sunday 2024-07-14 to Saturday 2024-07-20) covers its last two
      entries. */
  lemma DashboardWeek(data: seq<StoryPoint>)
    requires Consecutive(data, StartDay)
    requires |data| == CurrentDay - StartDay + 1
    ensures CurrentWeekRange(CurrentDay) == WeekRange(CurrentDay - 1, CurrentDay + 5)
    ensures WeekIndices(data, CurrentWeekRange(CurrentDay)) == [195, 196]
  {
    var week := CurrentWeekRange(CurrentDay);
    IndicesOnConsecutive(data, StartDay, week.start, week.end, 0);
    assert Range(195, 197) == [195] + Range(196, 197);
  }
}
