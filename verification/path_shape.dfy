/** Which path each derived row is drawn with. Every row gets a flat "stop"
    stroke (a horizontal segment that hides the blend where the curve
    starts) and a full line: the same horizontal segment followed by a cubic
    bezier. Branch rows rise to the top of the trunk; leaf rows run to the
    right-hand edge at their leaf category's position.

    Coordinates are not computed: each point is described by what the chart
    would hand to its scales, so the descriptors say which scale argument or
    fixed coordinate each endpoint uses. */
module PathShape {
  import opened Series
  import opened DataPass

  /** Branch spacing: how many index steps a branch curve travels to its tip. */
  const BranchSize: int := 1

  /** A horizontal coordinate. */
  datatype X =
    | Origin            // x = 0, the chart's left edge
    | ScaleX(at: int)   // the branch index scale applied to `at`
    | LeafMid           // halfway across the leaf area: trunk width plus half the leaf width
    | ChartWidth        // the chart's full width, where the leaf axis stands

  /** A vertical coordinate. */
  datatype Y =
    | Baseline                           // y = 0, the top edge where branch tips end
    | TrunkMid(runSum: int, value: int)  // the trunk scale at the middle of the slice [runSum, runSum + value], below the trunk top
    | LeafY(name: string)                // the leaf point scale applied to a leaf label

  datatype Point = Point(x: X, y: Y)

  /** The stop stroke: move to `start`, then a horizontal segment to `horizontalTo`. */
  datatype Stop = Stop(start: Point, horizontalTo: X)

  /** The full line: move to `start`, a horizontal segment to `horizontalTo`,
      then a cubic bezier through two control points to `end`. */
  datatype Curve = Curve(start: Point, horizontalTo: X, control1: Point, control2: Point, end: Point)

  /** The stop stroke of row `d` at index `i`, given the chart's branch count. */
  function Horizontal(d: Row, i: int, branches: int): (h: Stop)
  {
    var xScalePosition := if d.end then branches else i;
    Stop(Point(Origin, TrunkMid(d.runSum, d.value)), ScaleX(xScalePosition))
  }

  /** The full line of row `d` at index `i`. It starts like the stop stroke
      and its horizontal segment ends where the stop stroke's does; a branch
      row's curve ends on the baseline and nowhere else, a leaf row's curve
      ends at the chart width and nowhere else, at its own label's position. */
  function Line(d: Row, i: int, branches: int): (c: Curve)
    ensures c.start == Horizontal(d, i, branches).start
    ensures c.horizontalTo == Horizontal(d, i, branches).horizontalTo
    ensures c.end.y == Baseline <==> !d.end
    ensures c.end.x == ChartWidth <==> d.end
    ensures d.end ==> c.end.y == LeafY(d.name)
  {
    var trunkPos := TrunkMid(d.runSum, d.value);
    if !d.end then
      var tip := ScaleX(i + BranchSize);
      Curve(Point(Origin, trunkPos), ScaleX(i), Point(tip, trunkPos), Point(tip, trunkPos), Point(tip, Baseline))
    else
      Curve(Point(Origin, trunkPos), ScaleX(branches), Point(LeafMid, trunkPos),
            Point(LeafMid, LeafY(d.name)), Point(ChartWidth, LeafY(d.name)))
  }

  /** For row `i` of the pass over `source`: both paths start at the middle
      of the row's own trunk slice; the horizontal segment ends at scale index
      `min(i, branches)`; a branch row's curve ends on the baseline at index
      `i + BranchSize`, which lies within the branch range `1..branches`; a
      leaf row's curve ends at the chart width, at the leaf label the pass
      filed for it. */
  lemma RowEndpoints(source: seq<Item>, leaves: nat, i: nat)
    requires i < |source|
    ensures var st, n := Pass(source, leaves), |source|;
      var b, k := Branches(n, leaves), FirstLeaf(n, leaves);
      var c := Line(st.data[i], i, b);
      && Horizontal(st.data[i], i, b).horizontalTo == ScaleX(if i < b then i else b)
      && c.start == Point(Origin, TrunkMid(Sum(source[..i]), source[i].value))
      && (i < b ==> c.end == Point(ScaleX(i + BranchSize), Baseline) && 1 <= i + BranchSize <= b)
      && (i >= b ==> k <= i && c.end == Point(ChartWidth, LeafY(st.leafCategoryValues[i - k])))
  {
    CategoriesPartitionNames(source, leaves);
  }

  /** Along the series the horizontal segments end at non-decreasing scale
      indices, none of them past the trunk's right edge at `branches`. */
  lemma HorizontalEndsOrdered(source: seq<Item>, leaves: nat, i: nat, j: nat)
    requires i <= j < |source|
    ensures var st, b := Pass(source, leaves), Branches(|source|, leaves);
      var hi, hj := Horizontal(st.data[i], i, b).horizontalTo, Horizontal(st.data[j], j, b).horizontalTo;
      hi.ScaleX? && hj.ScaleX? && hi.at <= hj.at <= b
  {
    RowEndpoints(source, leaves, i);
    RowEndpoints(source, leaves, j);
  }

  /** When the leaf labels are distinct, the label a leaf row's curve ends at
      occurs in the leaf axis domain exactly once, at the row's position among
      the leaves, so it is the row's own ordinal slot on the leaf axis. */
  lemma LeafOrdinal(source: seq<Item>, leaves: nat, i: nat)
    requires i < |source|
    requires forall p, q :: FirstLeaf(|source|, leaves) <= p < q < |source| ==> source[p].name != source[q].name
    requires i >= Branches(|source|, leaves)
    ensures var st, k := Pass(source, leaves), FirstLeaf(|source|, leaves);
      && Line(st.data[i], i, Branches(|source|, leaves)).end.y == LeafY(st.leafCategoryValues[i - k])
      && forall j :: 0 <= j < |st.leafCategoryValues| && st.leafCategoryValues[j] == st.data[i].name ==> j == i - k
  {
    var st, k := Pass(source, leaves), FirstLeaf(|source|, leaves);
    RowEndpoints(source, leaves, i);
    forall j | 0 <= j < |st.leafCategoryValues| && st.leafCategoryValues[j] == st.data[i].name
      ensures j == i - k
    {
      assert st.leafCategoryValues[j] == source[k + j].name;
      assert st.data[i].name == source[i].name;
    }
  }
}
