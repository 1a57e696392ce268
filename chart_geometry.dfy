/** The area chart's coordinate maps: index to x, value to y, the inverse
    x-to-index rounding used for hovering, and the tooltip's placement.
    Coordinates are exact reals standing in for the browser's doubles. */
module ChartGeometry {
  import opened StoryPoints

  /** The logical canvas (the SVG view box) and its uniform padding. */
  const Width: real := 800.0
  const Height: real := 300.0
  const Padding: real := 40.0

  /** The approximate tooltip size used for edge avoidance. */
  const TooltipWidth: int := 200
  const TooltipHeight: int := 100

  /** The largest total in a non-empty series (Math.max over the totals). */
  function MaxTotal(data: seq<StoryPoint>): (m: int)
    requires |data| > 0
    ensures forall i :: 0 <= i < |data| ==> data[i].total <= m
    ensures exists i :: 0 <= i < |data| && data[i].total == m
    decreases |data|
  {
    if |data| == 1 then data[0].total
    else
      var m := MaxTotal(data[1..]);
      assert forall i :: 1 <= i < |data| ==> data[i] == data[1..][i - 1];
      if data[0].total >= m then data[0].total else m
  }

  /** The x position of entry `index` among `n` entries, spread linearly
      from the left padding to the right padding. */
  function GetX(index: int, n: int): (x: real)
    requires n >= 2
    ensures 0 <= index <= n - 1 ==> Padding <= x <= Width - Padding
    ensures index == 0 ==> x == Padding
    ensures index == n - 1 ==> x == Width - Padding
  {
    var t := index as real / (n - 1) as real;
    assert index == n - 1 ==> t == 1.0;
    assert 0 <= index <= n - 1 ==> 0.0 <= t <= 1.0;
    t * (Width - 2.0 * Padding) + Padding
  }

  /** The y position of `value`: zero on the bottom padding line, the
      maximum on the top padding line, larger values higher up. */
  function GetY(value: real, maxValue: int): (y: real)
    requires maxValue > 0
    ensures 0.0 <= value <= maxValue as real ==> Padding <= y <= Height - Padding
    ensures value == 0.0 ==> y == Height - Padding
    ensures value == maxValue as real ==> y == Padding
  {
    assert 0.0 <= value <= maxValue as real ==> value / maxValue as real <= 1.0;
    Height - Padding - ((value / maxValue as real) * (Height - 2.0 * Padding))
  }

  /** Later entries lie further right. */
  lemma GetXIncreasing(i: int, j: int, n: int)
    requires n >= 2
    requires i < j
    ensures GetX(i, n) < GetX(j, n)
  {
    var d := (n - 1) as real;
    assert i as real / d < j as real / d;
  }

  /** Larger values lie higher up (smaller y). */
  lemma GetYDecreasing(v: real, w: real, maxValue: int)
    requires maxValue > 0
    requires v < w
    ensures GetY(w, maxValue) < GetY(v, maxValue)
  {
    var d := maxValue as real;
    assert v / d < w / d;
  }

  /** Every plotted point of a series with non-negative totals, scaled by
      its own maximum, lies inside the padded canvas. */
  lemma PointsInsideCanvas(data: seq<StoryPoint>, i: int)
    requires |data| >= 2
    requires forall k :: 0 <= k < |data| ==> data[k].total >= 0
    requires MaxTotal(data) > 0
    requires 0 <= i < |data|
    ensures Padding <= GetX(i, |data|) <= Width - Padding
    ensures Padding <= GetY(data[i].total as real, MaxTotal(data)) <= Height - Padding
  {
  }

  /** Math.round: the nearest integer, halves rounded up. */
  function Round(v: real): (k: int)
    ensures k as real - 0.5 <= v < k as real + 0.5
  {
    (v + 0.5).Floor
  }

  /** The fractional entry index under pointer offset x among n entries. */
  function Position(x: real, n: int): (p: real)
    ensures x == Padding ==> p == 0.0
    ensures x == Width - Padding ==> p == (n - 1) as real
    ensures n >= 1 && Padding <= x <= Width - Padding ==> 0.0 <= p <= (n - 1) as real
  {
    var t := (x - Padding) / (Width - 2.0 * Padding);
    ScaleWithin(t, (n - 1) as real);
    t * (n - 1) as real
  }

  /** The entry index nearest to pointer offset x among n entries. */
  function HitIndex(x: real, n: int): (index: int)
    ensures n >= 1 && Padding <= x <= Width - Padding ==> 0 <= index < n
    ensures x == Padding ==> index == 0
    ensures n >= 1 && x == Width - Padding ==> index == n - 1
  {
    Round(Position(x, n))
  }

  /** The hover condition: a valid index and x between the paddings. For a
      non-empty chart the rounded index is always valid between the
      paddings, so the condition is the bounds test alone. */
  predicate InChartBounds(x: real, n: int): (shown: bool)
    ensures n >= 1 ==> (shown <==> Padding <= x <= Width - Padding)
  {
    var index := HitIndex(x, n);
    0 <= index < n && Padding <= x <= Width - Padding
  }

  /** Hovering exactly over entry i selects entry i. */
  lemma HitIndexInvertsGetX(i: int, n: int)
    requires n >= 2
    requires 0 <= i < n
    ensures HitIndex(GetX(i, n), n) == i
  {
    var d := (n - 1) as real;
    var span := Width - 2.0 * Padding;
    assert GetX(i, n) - Padding == (i as real / d) * span;
    assert (i as real / d) * span / span == i as real / d;
    assert (i as real / d) * d == i as real;
  }

  lemma ScaleWithin(t: real, d: real)
    ensures 0.0 <= t <= 1.0 && 0.0 <= d ==> 0.0 <= t * d <= d
  {
    if 0.0 <= t <= 1.0 && 0.0 <= d {
      assert t * d <= 1.0 * d;
    }
  }

  function Abs(v: real): real { if v < 0.0 then -v else v }

  /** The horizontal distance between entries. */
  function Spacing(n: int): (step: real)
    requires n >= 2
    ensures step > 0.0
  {
    (Width - 2.0 * Padding) / (n - 1) as real
  }

  /** In view-box units, the distance from pointer offset x to entry i is
      its distance in entry indices times the step between entries. */
  lemma OffsetFromPointer(x: real, n: int, i: int)
    requires n >= 2
    ensures Abs(GetX(i, n) - x) == Abs(i as real - Position(x, n)) * Spacing(n)
  {
    var v := i as real - Position(x, n);
    SignedOffset(x, n, i);
    AbsScale(v, Spacing(n));
    assert Abs(GetX(i, n) - x) == Abs(v * Spacing(n));
  }

  /** The signed form: entry i lies (i - position) steps right of the pointer. */
  lemma SignedOffset(x: real, n: int, i: int)
    requires n >= 2
    ensures GetX(i, n) - x == (i as real - Position(x, n)) * Spacing(n)
  {
    var d := (n - 1) as real;
    var span := Width - 2.0 * Padding;
    assert GetX(i, n) == i as real * Spacing(n) + Padding;
    assert Position(x, n) * Spacing(n) == x - Padding by {
      assert Position(x, n) * Spacing(n) == (x - Padding) / span * d * (span / d);
    }
  }

  /** The selected entry is a nearest one: no entry index lies closer to
      the fractional position under the pointer, and by OffsetFromPointer
      view-box distances are these index distances times the same step. */
  lemma HitIndexNearest(x: real, n: int, j: int)
    ensures Abs(HitIndex(x, n) as real - Position(x, n)) <= Abs(j as real - Position(x, n))
  {
    var k := HitIndex(x, n);
    if j > k {
      assert j as real >= k as real + 1.0;
    } else if j < k {
      assert j as real <= k as real - 1.0;
    }
  }

  /** In view-box units too, no entry's x lies closer to pointer offset x
      than the selected entry's. */
  lemma NearestInViewBox(x: real, n: int, j: int)
    requires n >= 2
    ensures Abs(GetX(HitIndex(x, n), n) - x) <= Abs(GetX(j, n) - x)
  {
    HitIndexNearest(x, n, j);
    CloserInViewBox(x, n, HitIndex(x, n), j);
  }

  /** An entry closer to the pointer's fractional position is also closer
      to the pointer in view-box units. */
  lemma CloserInViewBox(x: real, n: int, k: int, j: int)
    requires n >= 2
    requires Abs(k as real - Position(x, n)) <= Abs(j as real - Position(x, n))
    ensures Abs(GetX(k, n) - x) <= Abs(GetX(j, n) - x)
  {
    SignedOffset(x, n, k);
    SignedOffset(x, n, j);
    ScaledOrder(GetX(k, n) - x, GetX(j, n) - x,
      k as real - Position(x, n), j as real - Position(x, n), Spacing(n));
  }

  /** Offsets that are index offsets times one positive step keep the order
      of the index offsets' sizes. */
  lemma ScaledOrder(dk: real, dj: real, a: real, b: real, step: real)
    requires dk == a * step && dj == b * step
    requires Abs(a) <= Abs(b) && step > 0.0
    ensures Abs(dk) <= Abs(dj)
  {
    AbsScale(a, step);
    AbsScale(b, step);
    MulMono(Abs(a), Abs(b), step);
    assert Abs(dk) == Abs(a) * step && Abs(dj) == Abs(b) * step;
  }

  lemma MulMono(a: real, b: real, c: real)
    requires a <= b && c > 0.0
    ensures a * c <= b * c
  {
  }

  lemma AbsScale(v: real, c: real)
    requires c > 0.0
    ensures Abs(v * c) == Abs(v) * c
  {
    if v < 0.0 {
      assert v * c < 0.0;
    } else {
      assert v * c >= 0.0;
    }
  }

  /** The tooltip's position next to the pointer: 10 px above it, moved to
      the pointer's left when it would pass the right screen edge, and to
      20 px below the pointer when there is no room above. */
  method PlaceTooltip(clientX: int, clientY: int, screenWidth: int) returns (tooltipX: int, tooltipY: int)
    ensures tooltipX == clientX - TooltipWidth <==> clientX + TooltipWidth > screenWidth
    ensures tooltipX == clientX <==> clientX + TooltipWidth <= screenWidth
    ensures tooltipY == clientY + 20 <==> clientY - 10 - TooltipHeight < 0
    ensures tooltipY == clientY - 10 <==> clientY - 10 - TooltipHeight >= 0
    ensures 0 <= clientX <= screenWidth ==> tooltipX + TooltipWidth <= screenWidth
    ensures clientY >= 0 ==> tooltipY >= 0
  {
    tooltipX := clientX;
    tooltipY := clientY - 10;
    if tooltipX + TooltipWidth > screenWidth {
      tooltipX := clientX - TooltipWidth;
    }
    if tooltipY - TooltipHeight < 0 {
      tooltipY := clientY + 20;
    }
  }
}
