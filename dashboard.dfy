/** The dashboard's interactive state: the selected time filter and the
    hovered point, with the handlers that replace them. The pointer and
    screen values the browser supplies are parameters. */
module Dashboard {
  import opened StoryPoints
  import opened TimeFilter
  import opened ChartGeometry

  /** The tooltip's screen position and the record it shows. */
  datatype HoveredPoint = HoveredPoint(x: int, y: int, data: StoryPoint)

  /** A click on preset `clicked`: clicking the active preset clears the
      filter, clicking any other preset selects it. */
  function Toggle(current: Option<Filter>, clicked: Filter): (next: Option<Filter>)
    ensures next == None <==> current == Some(clicked)
    ensures next != None ==> next == Some(clicked)
  {
    if current == Some(clicked) then None else Some(clicked)
  }

  /** Two clicks on the same preset from no filter, or from that preset,
      come back to where they started. */
  lemma ToggleTwice(current: Option<Filter>, clicked: Filter)
    requires current == None || current == Some(clicked)
    ensures Toggle(Toggle(current, clicked), clicked) == current
  {
  }

  class DashboardState {
    var selectedFilter: Option<Filter>
    var hoveredPoint: Option<HoveredPoint>

    /** No filter and no tooltip at first. */
    constructor ()
      ensures selectedFilter == None && hoveredPoint == None
    {
      selectedFilter := None;
      hoveredPoint := None;
    }

    /** The data the chart shows under the current filter. */
    function ChartInput(series: seq<StoryPoint>): (r: seq<StoryPoint>)
      reads this
      ensures selectedFilter == None ==> r == series
      ensures selectedFilter.Some? ==>
        forall x :: multiset(r)[x] == if x.date >= Cutoff(selectedFilter.value) then multiset(series)[x] else 0
      ensures IsSubsequence(r, series)
    {
      FilteredData(series, selectedFilter)
    }

    /** A click on one of the preset buttons. */
    method ClickFilter(clicked: Filter)
      modifies this
      ensures selectedFilter == Toggle(old(selectedFilter), clicked)
      ensures hoveredPoint == old(hoveredPoint)
    {
      selectedFilter := Toggle(selectedFilter, clicked);
    }

    /** A click on "Clear". */
    method ClearFilter()
      modifies this
      ensures selectedFilter == None
      ensures hoveredPoint == old(hoveredPoint)
    {
      selectedFilter := None;
    }

    /** The pointer moved over the chart showing `data`: show the tooltip for
      the nearest entry when the pointer is between the paddings, hide it
      otherwise. */
    method MouseMove(data: seq<StoryPoint>, clientX: int, clientY: int, rectLeft: real, screenWidth: int)
      modifies this
      ensures selectedFilter == old(selectedFilter)
      ensures var x := clientX as real - rectLeft;
        hoveredPoint.Some? <==> InChartBounds(x, |data|)
      ensures var x := clientX as real - rectLeft;
        hoveredPoint.Some? ==>
          && 0 <= HitIndex(x, |data|) < |data|
          && hoveredPoint.value.data == data[HitIndex(x, |data|)]
          && hoveredPoint.value.x == (if clientX + TooltipWidth > screenWidth then clientX - TooltipWidth else clientX)
          && hoveredPoint.value.y == (if clientY - 10 - TooltipHeight < 0 then clientY + 20 else clientY - 10)
    {
      var x := clientX as real - rectLeft;
      var dataIndex := HitIndex(x, |data|);
      if dataIndex >= 0 && dataIndex < |data| && x >= Padding && x <= Width - Padding {
        var tooltipX, tooltipY := PlaceTooltip(clientX, clientY, screenWidth);
        hoveredPoint := Some(HoveredPoint(tooltipX, tooltipY, data[dataIndex]));
      } else {
        hoveredPoint := None;
      }
    }

    /** The pointer left the chart. */
    method MouseLeave()
      modifies this
      ensures hoveredPoint == None
      ensures selectedFilter == old(selectedFilter)
    {
      hoveredPoint := None;
    }
  }
}
