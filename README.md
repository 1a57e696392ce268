# Jira performance dashboard: a verified model of its chart logic

The `JiraPerformanceDashboard` React component shows mock "story point"
progress for one contributor. The view can be the points assigned to them or
the points they delegated. The component draws an SVG area chart with a time
filter, a highlighted current week and a hover tooltip. This project models
the component's computational core in Dafny:

- **Mock series generator** (`ChartData`). A day-by-day loop keeps a running
  total and a running closed count. It clamps closed down to the total and
  appends one record per day, with each field capped by the profile's target.
  The random draws are an input: one `Draw` per day, with increases 2..6 and
  completions 1..4. `GenerateChartData` is the loop, proved equal to the
  recursive specification `Series`. The properties of the series are proved
  as lemmas about `Series`.
- **Time-range filter** (`TimeFilter`). A preset ('1D', '1W', '1M', '1Y')
  picks a fixed cutoff date. The chart keeps the entries dated on or after
  the cutoff, in order. With no preset, the series is unchanged.
- **Current week** (`CurrentWeek`). This is the Sunday-to-Saturday week that
  holds the fixed current date (2024-07-15), together with the indices of the
  series entries dated inside it.
- **Chart geometry** (`ChartGeometry`). This covers the linear index-to-x and
  value-to-y maps on the 800 × 300 view box with 40 px padding, and the
  inverse x-to-index rounding used for hovering. It also covers the tooltip
  placement, which avoids the screen edges.
- **Interactive state** (`Dashboard.DashboardState`). The selected filter and
  the hovered point are fields of a class. The button clicks and pointer
  events are methods that replace those fields.

Dates are day numbers counted from 1970-01-01, which was a Thursday. So
2024-01-01 is day 19723 and 2024-07-15 is day 19919. The pointer position,
the chart's left edge and the screen width are parameters. Coordinates are
exact reals (`real`) in place of JavaScript doubles.

Points of the code that a reader might not expect:

- The '1W' cutoff is 2024-07-08, seven days before the current date
  (2024-07-15). `TimeFilter.DashboardWindows` shows that it keeps the last 8
  days of the series.
- The code caps inProgress on its own
  (src/components/JiraPerformanceDashboard.tsx:73). So inProgress == total −
  closed holds only while no cap is reached
  (`ChartData.InProgressWhenUncapped`).
- The vertical tooltip rule tests `tooltipY - 100 < 0`. But the tooltip is
  drawn downwards from `tooltipY`. The rule therefore keeps the tooltip's top
  on screen and does not guard the bottom edge. The screen height is read but
  never used.
- `handleMouseMove` takes the pointer's offset in CSS pixels
  (`event.clientX - rect.left`, src/components/JiraPerformanceDashboard.tsx:161)
  as a view-box x (padding 40, width 800; :164). The SVG fills its box
  (`width="100%" height="100%"`, :203-206), so the view box is scaled and
  centred. Unless it is drawn at its view-box size, flush with its box's left
  edge, the tooltip shows a different entry from the one under the pointer.
  The model does the same as the code. Its hit-test lemmas hold in view-box
  units, taking the pointer's CSS offset as a view-box x.

## Model

| member | source | states |
|---|---|---|
| `ChartData.GenerateChartData` | src/components/JiraPerformanceDashboard.tsx:46-80 | The loop returns exactly one record per day from the start day to the end day inclusive: the first is dated the start day and the last the end day. The result equals `Series` of the draws and is well formed: dates are consecutive, fields stay within the caps, and total and closed never decrease. Its invariant keeps 0 <= closed <= total after every step. |
| `ChartData.DayCountCounts` | src/components/JiraPerformanceDashboard.tsx:48-56 | A day d is visited by the loop (start <= d <= end) exactly when its offset d − start is a valid index below the iteration count `DayCount`. |
| `ChartData.Step` | src/components/JiraPerformanceDashboard.tsx:61-67 | One day adds the day's increase to the total. Closed becomes the old closed plus the day's completions, unless that passes the new total, in which case it equals the total. |
| `ChartData.RunAfter` | src/components/JiraPerformanceDashboard.tsx:53-67 | The counters start at zero, and after any number of days the running closed count is at most the running total. |
| `ChartData.Entry` | src/components/JiraPerformanceDashboard.tsx:69-74 | The record carries the day's date. Each of total, closed and inProgress is at most both its profile cap and its running counter, and equals one of the two. |
| `ChartData.Series` | src/components/JiraPerformanceDashboard.tsx:56-77 | The specification series has one entry per day's draw. |
| `ChartData.RunningClamped` | src/components/JiraPerformanceDashboard.tsx:56-67 | After any number of days, 0 <= running closed <= running total. The total is at least 2 points per day. |
| `ChartData.RunningMonotone` | src/components/JiraPerformanceDashboard.tsx:58-67 | From one day to the next, the running total strictly increases and the running closed count does not decrease. |
| `ChartData.SeriesAt` | src/components/JiraPerformanceDashboard.tsx:69-76 | Entry i is dated start + i. It holds the capped counters after i + 1 days. |
| `ChartData.EntryBounds` | src/components/JiraPerformanceDashboard.tsx:65-74 | Every record has 0 <= total <= the profile's total, 0 <= closed <= the profile's closed, and 0 <= inProgress <= the profile's in-progress target. Closed <= total whenever the profile's closed target <= its total target. |
| `ChartData.EntriesMonotone` | src/components/JiraPerformanceDashboard.tsx:61-72 | The emitted total and closed values never decrease from one day to the next. |
| `ChartData.InProgressWhenUncapped` | src/components/JiraPerformanceDashboard.tsx:71-73 | While no cap is reached, the emitted inProgress equals total − closed. |
| `ChartData.SeriesIsWellFormed` | src/components/JiraPerformanceDashboard.tsx:46-80 | Every generated series has consecutive dates, bounded fields and monotone total and closed values. |
| `ChartData.DashboardSeries` | src/components/JiraPerformanceDashboard.tsx:26-50 | Both source profiles have series of 197 days (2024-01-01 to 2024-07-15), and no record in them shows more closed than total points. |
| `TimeFilter.Cutoff` | src/components/JiraPerformanceDashboard.tsx:95-108 | Every preset's cutoff lies before the current date, 2024-07-15. |
| `TimeFilter.KeepOnOrAfter` | src/components/JiraPerformanceDashboard.tsx:110 | The filter keeps exactly the entries dated on or after the cutoff, with their multiplicities. The result is an order-preserving subsequence of the input. |
| `TimeFilter.FilteredData` | src/components/JiraPerformanceDashboard.tsx:89-111 | With no preset, the series is unchanged. Otherwise the result holds exactly the entries on or after the preset's cutoff, in their original order. |
| `TimeFilter.KeepOnConsecutiveIsSuffix` | src/components/JiraPerformanceDashboard.tsx:110 | On a series with one entry per day, the filter keeps a suffix: the entries from the cutoff's day on. |
| `TimeFilter.DashboardWindows` | src/components/JiraPerformanceDashboard.tsx:92-110 | On the 197-day series, '1D' keeps the last 2 entries, '1W' the last 8, '1M' the last 31, and '1Y' all of them. |
| `TimeFilter.WindowsNested` | src/components/JiraPerformanceDashboard.tsx:95-110 | A longer preset keeps every entry a shorter one keeps. With no preset selected, every entry is kept. |
| `CurrentWeek.Weekday` | src/components/JiraPerformanceDashboard.tsx:117 | The day of the week lies in 0..6. |
| `CurrentWeek.WeekdayNext` | src/components/JiraPerformanceDashboard.tsx:117 | The day of the week advances by one, modulo 7, from each day to the next. |
| `CurrentWeek.WeekdayAnchors` | src/components/JiraPerformanceDashboard.tsx:117 | Sunday = 0: 1970-01-01 is a Thursday (4), and 2024-01-01 and 2024-07-15 are Mondays (1). |
| `CurrentWeek.CurrentWeekRange` | src/components/JiraPerformanceDashboard.tsx:114-121 | The week starts on a Sunday, contains the current date and ends six days after it starts. |
| `CurrentWeek.WeekRangeUnique` | src/components/JiraPerformanceDashboard.tsx:114-121 | The range is the only Sunday-start week that contains the current date. |
| `CurrentWeek.IndicesFrom` | src/components/JiraPerformanceDashboard.tsx:144-151 | The selected indices are valid and strictly ascending. Each one's date lies in the range, and every index whose date lies in the range is selected. |
| `CurrentWeek.WeekIndices` | src/components/JiraPerformanceDashboard.tsx:144-151 | The week indices are exactly the valid indices whose dates fall in the week, in ascending order. |
| `CurrentWeek.IndicesOnConsecutive` | src/components/JiraPerformanceDashboard.tsx:144-151 | On a series with one entry per day, the week's indices form one contiguous run. |
| `CurrentWeek.DashboardWeek` | src/components/JiraPerformanceDashboard.tsx:114-151 | The current week is Sunday 2024-07-14 to Saturday 2024-07-20. On the 197-day series its indices are 195 and 196. |
| `ChartGeometry.MaxTotal` | src/components/JiraPerformanceDashboard.tsx:135 | The chart's maximum is at least every entry's total and equal to one of them. |
| `ChartGeometry.GetX` | src/components/JiraPerformanceDashboard.tsx:140 | With n >= 2: index 0 maps to the left padding, index n − 1 to width − padding, and every index in between lies between them. |
| `ChartGeometry.GetY` | src/components/JiraPerformanceDashboard.tsx:141 | With maxValue > 0: 0 maps to height − padding, the maximum to the padding, and values in between lie between them. |
| `ChartGeometry.GetXIncreasing` | src/components/JiraPerformanceDashboard.tsx:140 | Later entries are drawn further right. |
| `ChartGeometry.GetYDecreasing` | src/components/JiraPerformanceDashboard.tsx:141 | Larger values are drawn higher up. |
| `ChartGeometry.PointsInsideCanvas` | src/components/JiraPerformanceDashboard.tsx:135-141 | Every plotted total lies inside the padded canvas. |
| `ChartGeometry.Round` | src/components/JiraPerformanceDashboard.tsx:164 | Math.round returns the nearest integer, rounding halves up. |
| `ChartGeometry.Position` | src/components/JiraPerformanceDashboard.tsx:164 | The pointer's fractional index is 0 at the left padding edge and n − 1 at the right one, and lies in 0..n − 1 between them. |
| `ChartGeometry.HitIndex` | src/components/JiraPerformanceDashboard.tsx:164 | Between the paddings of a non-empty chart the rounded index is a valid one. The left edge selects 0 and the right edge n − 1. |
| `ChartGeometry.InChartBounds` | src/components/JiraPerformanceDashboard.tsx:164-167 | For a non-empty chart, the tooltip condition holds exactly when padding <= x <= width − padding. |
| `ChartGeometry.HitIndexInvertsGetX` | src/components/JiraPerformanceDashboard.tsx:140-164 | In view-box units, taking the pointer's CSS offset as a view-box x: a pointer at entry i's x selects entry i, so the hit test inverts the x map. |
| `ChartGeometry.OffsetFromPointer` | src/components/JiraPerformanceDashboard.tsx:140-164 | In view-box units, taking the pointer's CSS offset as a view-box x: the distance from the pointer to entry i is the distance between i and the pointer's fractional index, times the fixed step width − 2·padding over n − 1. |
| `ChartGeometry.HitIndexNearest` | src/components/JiraPerformanceDashboard.tsx:164 | No entry index lies closer to the pointer's fractional index than the rounded one. |
| `ChartGeometry.NearestInViewBox` | src/components/JiraPerformanceDashboard.tsx:140-164 | In view-box units, taking the pointer's CSS offset as a view-box x: no entry's x lies closer to the pointer than the selected entry's. |
| `ChartGeometry.CloserInViewBox` | src/components/JiraPerformanceDashboard.tsx:140-164 | In view-box units, taking the pointer's CSS offset as a view-box x: an entry closer to the pointer's fractional index also has its x closer to the pointer. |
| `ChartGeometry.PlaceTooltip` | src/components/JiraPerformanceDashboard.tsx:169-185 | tooltipX is clientX − 200 exactly when clientX + 200 > screen width, and clientX otherwise. tooltipY is clientY + 20 exactly when clientY − 10 − 100 < 0, and clientY − 10 otherwise. For a pointer on screen, a tooltip of the assumed 200 px width never passes the right edge, and the tooltip never starts above the top. |
| `Dashboard.Toggle` | src/components/JiraPerformanceDashboard.tsx:513 | A click clears the filter exactly when the clicked preset was the active one. Otherwise it selects the clicked preset. |
| `Dashboard.ToggleTwice` | src/components/JiraPerformanceDashboard.tsx:513 | Two clicks on the same preset, starting from no filter or from that preset, return to the start. |
| `Dashboard.DashboardState.constructor` | src/components/JiraPerformanceDashboard.tsx:22-23 | The component starts with no filter and no tooltip. |
| `Dashboard.DashboardState.ChartInput` | src/components/JiraPerformanceDashboard.tsx:89-111 | The chart is given the series unchanged when no filter is selected. Otherwise it is given exactly the entries on or after the selected preset's cutoff, in their original order. |
| `Dashboard.DashboardState.ClickFilter` | src/components/JiraPerformanceDashboard.tsx:510-513 | A preset click replaces the filter by its toggle and leaves the tooltip alone. |
| `Dashboard.DashboardState.ClearFilter` | src/components/JiraPerformanceDashboard.tsx:523-525 | "Clear" always sets the filter to none and leaves the tooltip alone. |
| `Dashboard.DashboardState.MouseMove` | src/components/JiraPerformanceDashboard.tsx:159-195 | A tooltip is set exactly when the rounded index is valid and the pointer lies between the paddings. It shows that index's record at the edge-avoiding position. Otherwise the tooltip is cleared. The filter does not change. |
| `Dashboard.DashboardState.MouseLeave` | src/components/JiraPerformanceDashboard.tsx:197-199 | Leaving the chart always clears the tooltip and leaves the filter alone. |

## Left out

- Markup, CSS classes, SVG decorations, gradients and animations, the metric cards and the tab buttons. They are presentation only.
- The SVG path strings, the axis labels and `toLocaleDateString` formatting. They render floats and dates as locale-dependent text.
- `Math.random`. Each day's two draws are an input sequence with the source's ranges.
- JavaScript `Date` parsing, time zones and calendar arithmetic. Dates are day numbers and the presets' cutoffs are the source's fixed dates.
- The React hooks (`useState`, `useMemo`), `window.innerWidth`/`innerHeight` and `getBoundingClientRect`. The state is a class and the browser values are parameters.
- DashboardState: the source regenerates both series with fresh `Math.random` draws on every re-render (src/components/JiraPerformanceDashboard.tsx:82-83). So each `setHoveredPoint` (:187), filter click (:513, :525) and tab click (:402) redraws the data, the `filteredData` memo (:89-111) recomputes, and a stored tooltip record (:190) belongs to the previous render's series. The model instead hands each call the series it works on.
- The profiles' name, designation and avatar. They are only displayed.
- The active tab and the choice between the two profiles' series. They only pick which series is shown.
- `ChartGeometry.GetX`: requires n >= 2. With one entry the source divides by zero, which yields NaN, and the model does not represent NaN or IEEE rounding.
- `ChartGeometry.GetY`: requires maxValue > 0. The source divides by the maximum total, and exact reals stand in for doubles.
- The empty-series placeholder message. The chart's coordinate code runs only on non-empty data, and the model's hit test needs no such guard.
