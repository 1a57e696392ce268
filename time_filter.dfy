/** The time-range filter: a preset token picks a fixed cutoff date and the
    chart keeps the entries dated on or after it. */
module TimeFilter {
  import opened StoryPoints

  /** The four presets '1D', '1W', '1M' and '1Y'. */
  datatype Filter = OneDay | OneWeek | OneMonth | OneYear

  /** The fixed cutoff of each preset, relative to 2024-07-15: 2024-07-14,
      2024-07-08, 2024-06-15 and 2023-07-15. */
  function Cutoff(f: Filter): (day: int)
    ensures day < CurrentDay
  {
    match f
    case OneDay => CurrentDay - 1
    case OneWeek => CurrentDay - 7
    case OneMonth => CurrentDay - 30
    case OneYear => CurrentDay - 366
  }

  /** `a` can be obtained from `b` by deleting entries, order kept. */
  ghost predicate IsSubsequence<T>(a: seq<T>, b: seq<T>)
    decreases |a| + |b|
  {
    |a| == 0 ||
    (|b| > 0 &&
     ((a[0] == b[0] && IsSubsequence(a[1..], b[1..])) || IsSubsequence(a, b[1..])))
  }

  /** The entries dated on or after `cutoff`, in their original order. */
  function KeepOnOrAfter(data: seq<StoryPoint>, cutoff: int): (r: seq<StoryPoint>)
    ensures forall x :: multiset(r)[x] == if x.date >= cutoff then multiset(data)[x] else 0
    ensures IsSubsequence(r, data)
    decreases |data|
  {
    if |data| == 0 then []
    else
      assert data == [data[0]] + data[1..];
      var rest := KeepOnOrAfter(data[1..], cutoff);
      if data[0].date >= cutoff then
        assert ([data[0]] + rest)[1..] == rest;
        [data[0]] + rest
      else rest
  }

  /** The chart's data: the series unchanged when no preset is selected,
      otherwise exactly its entries on or after the preset's cutoff. */
  function FilteredData(data: seq<StoryPoint>, selected: Option<Filter>): (r: seq<StoryPoint>)
    ensures selected == None ==> r == data
    ensures selected.Some? ==>
      forall x :: multiset(r)[x] == if x.date >= Cutoff(selected.value) then multiset(data)[x] else 0
    ensures IsSubsequence(r, data)
  {
    match selected
    case None => IsSubsequenceOfItself(data); data
    case Some(f) => KeepOnOrAfter(data, Cutoff(f))
  }

  lemma {:induction false} IsSubsequenceOfItself<T>(s: seq<T>)
    ensures IsSubsequence(s, s)
    decreases |s|
  {
    if |s| > 0 {
      IsSubsequenceOfItself(s[1..]);
    }
  }

  function Clamp(k: int, lo: int, hi: int): (c: int)
    requires lo <= hi
    ensures lo <= c <= hi
    ensures lo <= k <= hi ==> c == k
  {
    if k < lo then lo else if k > hi then hi else k
  }

  /** On a series with one entry per day, the filter keeps a suffix: the
      entries from the cutoff's day onwards. */
  lemma {:induction false} KeepOnConsecutiveIsSuffix(data: seq<StoryPoint>, startDay: int, cutoff: int)
    requires Consecutive(data, startDay)
    ensures KeepOnOrAfter(data, cutoff) == data[Clamp(cutoff - startDay, 0, |data|)..]
    decreases |data|
  {
    if |data| > 0 {
      assert Consecutive(data[1..], startDay + 1);
      KeepOnConsecutiveIsSuffix(data[1..], startDay + 1, cutoff);
    }
  }

  /** On the dashboard's series from 2024-01-01 to 2024-07-15, '1D' keeps
      the last 2 days, '1W' the last 8, '1M' the last 31 and '1Y' all 197. */
  lemma DashboardWindows(data: seq<StoryPoint>)
    requires Consecutive(data, StartDay)
    requires |data| == CurrentDay - StartDay + 1
    ensures FilteredData(data, Some(OneDay)) == data[195..]
    ensures FilteredData(data, Some(OneWeek)) == data[189..]
    ensures FilteredData(data, Some(OneMonth)) == data[166..]
    ensures FilteredData(data, Some(OneYear)) == data
  {
    KeepOnConsecutiveIsSuffix(data, StartDay, Cutoff(OneDay));
    KeepOnConsecutiveIsSuffix(data, StartDay, Cutoff(OneWeek));
    KeepOnConsecutiveIsSuffix(data, StartDay, Cutoff(OneMonth));
    KeepOnConsecutiveIsSuffix(data, StartDay, Cutoff(OneYear));
  }

  /** A longer window keeps everything a shorter one keeps. */
  lemma WindowsNested(data: seq<StoryPoint>, x: StoryPoint)
    ensures multiset(FilteredData(data, Some(OneDay)))[x] <= multiset(FilteredData(data, Some(OneWeek)))[x]
    ensures multiset(FilteredData(data, Some(OneWeek)))[x] <= multiset(FilteredData(data, Some(OneMonth)))[x]
    ensures multiset(FilteredData(data, Some(OneMonth)))[x] <= multiset(FilteredData(data, Some(OneYear)))[x]
    ensures multiset(FilteredData(data, Some(OneYear)))[x] <= multiset(FilteredData(data, None))[x]
  {
  }
}
