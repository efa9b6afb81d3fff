// The third stage, `DesignerAgent`: a closed dispatch on the strategy's visual
// type to one of four drawing routines, each of which draws the leading key
// points onto a fresh figure. Only the discrete part of the layout is modelled.

module Designer {
  import opened Analyzer
  import opened Strategist
  import opened Canvas

  /** `point[:n] + '...' if len(point) > n else point`. */
  function Truncate(s: string, n: nat): (r: string)
    ensures |r| <= n + 3
    ensures |s| <= n ==> r == s
    ensures |s| > n ==> |r| == n + 3 && r[..n] == s[..n] && r[n..] == "..."
  {
    if |s| > n then s[..n] + "..." else s
  }

  /** The three routines that lay key points out one by one. */
  datatype Layout = Flow | Time | Grid

  /** How many key points each routine uses at most. */
  function Cap(layout: Layout): nat
  {
    match layout
    case Flow => 4
    case Time => 5
    case Grid => 6
  }

  /** The label length each routine truncates at. */
  function Limit(layout: Layout): nat
  {
    match layout
    case Flow => 30
    case Time => 25
    case Grid => 40
  }

  const GridColumns := 3

  /** What one pass of a routine's loop draws for point `i` of the used points. */
  function StepItems(layout: Layout, points: seq<string>, i: nat): seq<Item>
    requires i < |points|
  {
    match layout
    case Flow =>
      [FlowBox(i)] + ([Badge(i + 1)] + ([Label(Truncate(points[i], Limit(Flow)))] +
      (if i < |points| - 1 then [Arrow(i)] else [])))
    case Time =>
      [Marker(i)] + [Caption(Truncate(points[i], Limit(Time)), i % 2 == 0)]
    case Grid =>
      [Cell(i)] + ([Badge(i + 1)] + [Label(Truncate(points[i], Limit(Grid)))])
  }

  /** What the first `n` passes of the loop draw. */
  function Steps(layout: Layout, points: seq<string>, n: nat): seq<Item>
    requires n <= |points|
  {
    if n == 0 then [] else Steps(layout, points, n - 1) + StepItems(layout, points, n - 1)
  }

  lemma StepsNext(layout: Layout, points: seq<string>, n: nat)
    requires n < |points|
    ensures Steps(layout, points, n + 1) == Steps(layout, points, n) + StepItems(layout, points, n)
  {
  }

  /** What a routine draws before its loop. */
  function Header(layout: Layout, titleSize: nat): seq<Item>
  {
    match layout
    case Flow => [Title("Process Flow", titleSize)]
    case Time => [Title("Timeline", 24)] + [Axis]
    case Grid => [Title("Key Information", 24)]
  }

  /** Everything a routine draws for the given key points. */
  function Drawing(layout: Layout, keyPoints: seq<string>, titleSize: nat): seq<Item>
  {
    var points := Take(keyPoints, Cap(layout));
    Header(layout, titleSize) + Steps(layout, points, |points|)
  }

  /** `_create_comparison` ignores the key points and draws fixed placeholders. */
  const ComparisonItems: seq<Item> :=
    [Title("Comparison", 24), Text("VS"), Region(Left), Text("Option A"), Region(Right), Text("Option B")]

  /** The routine `create_infographic` dispatches to: flowchart, comparison and
      timeline have their own, every other visual type gets the grid. */
  function Render(analysis: Analysis, strategy: Strategy): seq<Item>
  {
    match strategy.visual
    case Flowchart => Drawing(Flow, analysis.keyPoints, strategy.fontSizes.title)
    case Comparison => ComparisonItems
    case Timeline => Drawing(Time, analysis.keyPoints, strategy.fontSizes.title)
    case _ => Drawing(Grid, analysis.keyPoints, strategy.fontSizes.title)
  }

  /** The `figsize` each routine asks for. */
  function FigureSize(visual: VisualType): (nat, nat)
  {
    match visual
    case Flowchart => (12, 6)
    case Timeline => (12, 6)
    case _ => (10, 8)
  }

  // ---------------------------------------------------------------------------
  // The drawing routines
  // ---------------------------------------------------------------------------

  method CreateFlowchart(analysis: Analysis, strategy: Strategy) returns (fig: Figure)
    ensures fresh(fig) && (fig.width, fig.height) == FigureSize(Flowchart)
    ensures fig.items == Drawing(Flow, analysis.keyPoints, strategy.fontSizes.title)
    ensures fig.dpi == InitialDpi
  {
    fig := new Figure(12, 6);
    var keyPoints := Take(analysis.keyPoints, 4);
    fig.Add(Title("Process Flow", strategy.fontSizes.title));
    ghost var header := fig.items;
    assert header == Header(Flow, strategy.fontSizes.title);
    var i := 0;
    while i < |keyPoints|
      invariant 0 <= i <= |keyPoints|
      invariant fig.items == header + Steps(Flow, keyPoints, i)
      invariant fig.dpi == InitialDpi
    {
      ghost var before := Steps(Flow, keyPoints, i);
      DrawFlowStep(fig, keyPoints, i);
      StepsNext(Flow, keyPoints, i);
      assert fig.items == header + (before + StepItems(Flow, keyPoints, i));
      i := i + 1;
    }
  }

  /** One pass of the flowchart loop: box, step number, truncated label, and an arrow
      to the next box unless this is the last one. */
  method DrawFlowStep(fig: Figure, keyPoints: seq<string>, i: nat)
    requires i < |keyPoints|
    modifies fig
    ensures fig.items == old(fig.items) + StepItems(Flow, keyPoints, i)
    ensures fig.dpi == old(fig.dpi)
  {
    var point := keyPoints[i];
    fig.Add(FlowBox(i));
    fig.Add(Badge(i + 1));
    var text := if |point| > 30 then point[..30] + "..." else point;
    fig.Add(Label(text));
    if i < |keyPoints| - 1 {
      fig.Add(Arrow(i));
    }
  }

  method CreateComparison(analysis: Analysis, strategy: Strategy) returns (fig: Figure)
    ensures fresh(fig) && (fig.width, fig.height) == FigureSize(Comparison)
    ensures fig.items == ComparisonItems
    ensures fig.dpi == InitialDpi
  {
    fig := new Figure(10, 8);
    fig.Add(Title("Comparison", 24));
    fig.Add(Text("VS"));
    fig.Add(Region(Left));
    fig.Add(Text("Option A"));
    fig.Add(Region(Right));
    fig.Add(Text("Option B"));
  }

  method CreateTimeline(analysis: Analysis, strategy: Strategy) returns (fig: Figure)
    ensures fresh(fig) && (fig.width, fig.height) == FigureSize(Timeline)
    ensures fig.items == Drawing(Time, analysis.keyPoints, strategy.fontSizes.title)
    ensures fig.dpi == InitialDpi
  {
    fig := new Figure(12, 6);
    fig.Add(Title("Timeline", 24));
    fig.Add(Axis);
    ghost var header := fig.items;
    assert header == Header(Time, strategy.fontSizes.title);
    var milestones := Take(analysis.keyPoints, 5);
    var i := 0;
    while i < |milestones|
      invariant 0 <= i <= |milestones|
      invariant fig.items == header + Steps(Time, milestones, i)
      invariant fig.dpi == InitialDpi
    {
      ghost var before := Steps(Time, milestones, i);
      DrawMilestone(fig, milestones, i);
      StepsNext(Time, milestones, i);
      assert fig.items == header + (before + StepItems(Time, milestones, i));
      i := i + 1;
    }
  }

  /** One pass of the timeline loop: a marker, and the truncated caption above the line
      for even positions and below it for odd ones. */
  method DrawMilestone(fig: Figure, milestones: seq<string>, i: nat)
    requires i < |milestones|
    modifies fig
    ensures fig.items == old(fig.items) + StepItems(Time, milestones, i)
    ensures fig.dpi == old(fig.dpi)
  {
    var milestone := milestones[i];
    fig.Add(Marker(i));
    var above := i % 2 == 0;
    var text := if |milestone| > 25 then milestone[..25] + "..." else milestone;
    fig.Add(Caption(text, above));
  }

  method CreateGeneral(analysis: Analysis, strategy: Strategy) returns (fig: Figure)
    ensures fresh(fig) && (fig.width, fig.height) == FigureSize(Mixed)
    ensures fig.items == Drawing(Grid, analysis.keyPoints, strategy.fontSizes.title)
    ensures fig.dpi == InitialDpi
  {
    fig := new Figure(10, 8);
    fig.Add(Title("Key Information", 24));
    ghost var header := fig.items;
    assert header == Header(Grid, strategy.fontSizes.title);
    var keyPoints := Take(analysis.keyPoints, 6);
    var i := 0;
    while i < |keyPoints|
      invariant 0 <= i <= |keyPoints|
      invariant fig.items == header + Steps(Grid, keyPoints, i)
      invariant fig.dpi == InitialDpi
    {
      ghost var before := Steps(Grid, keyPoints, i);
      DrawGridCell(fig, keyPoints, i);
      StepsNext(Grid, keyPoints, i);
      assert fig.items == header + (before + StepItems(Grid, keyPoints, i));
      i := i + 1;
    }
  }

  /** One pass of the grid loop: the box in row i / 3 and column i % 3, its number and
      its truncated label. */
  method DrawGridCell(fig: Figure, keyPoints: seq<string>, i: nat)
    requires i < |keyPoints|
    modifies fig
    ensures fig.items == old(fig.items) + StepItems(Grid, keyPoints, i)
    ensures fig.dpi == old(fig.dpi)
  {
    var point := keyPoints[i];
    var row := i / GridColumns;
    var col := i % GridColumns;
    var x := 1 + col * 3;
    var y := 7 - row * 3;
    fig.Add(GridBox(row, col, x, y));
    fig.Add(Badge(i + 1));
    var text := if |point| > 40 then point[..40] + "..." else point;
    fig.Add(Label(text));
  }

  /** `DesignerAgent.create_infographic`. */
  method CreateInfographic(analysis: Analysis, strategy: Strategy) returns (fig: Figure)
    ensures fresh(fig) && (fig.width, fig.height) == FigureSize(strategy.visual)
    ensures fig.items == Render(analysis, strategy)
    ensures fig.dpi == InitialDpi
  {
    match strategy.visual
    case Flowchart => fig := CreateFlowchart(analysis, strategy);
    case Comparison => fig := CreateComparison(analysis, strategy);
    case Timeline => fig := CreateTimeline(analysis, strategy);
    case _ => fig := CreateGeneral(analysis, strategy);
  }

  // ---------------------------------------------------------------------------
  // What the layouts contain
  // ---------------------------------------------------------------------------

  function Min(a: nat, b: nat): nat { if a <= b then a else b }


  /** What each of the first `n` passes of the loop draws, pass by pass. */
  function Passes(layout: Layout, points: seq<string>, n: nat): (r: seq<seq<Item>>)
    requires n <= |points|
    ensures |r| == n
    ensures forall i :: 0 <= i < n ==> r[i] == StepItems(layout, points, i)
  {
    if n == 0 then [] else Passes(layout, points, n - 1) + [StepItems(layout, points, n - 1)]
  }

  lemma {:induction false} StepsConcat(layout: Layout, points: seq<string>, n: nat)
    requires n <= |points|
    ensures Steps(layout, points, n) == Concat(Passes(layout, points, n))
  {
    if n > 0 {
      StepsConcat(layout, points, n - 1);
      var parts, init, last := Passes(layout, points, n), Passes(layout, points, n - 1), StepItems(layout, points, n - 1);
      assert parts == init + [last];
      assert parts[..n - 1] == init && parts[n - 1] == last;
      assert Concat(parts) == Concat(init) + last;
      assert Steps(layout, points, n) == Steps(layout, points, n - 1) + last;
    }
  }

  /** No routine's header holds anything but the title and, on the timeline, the axis. */
  lemma HeaderHolds(layout: Layout, titleSize: nat, kind: Kind)
    requires kind != TitleKind && kind != AxisKind
    ensures Select(Header(layout, titleSize), kind) == []
  {
    match layout
    case Flow =>
      SelectCons(Title("Process Flow", titleSize), [], kind);
    case Time =>
      SelectCons(Title("Timeline", 24), [Axis], kind);
      SelectCons(Axis, [], kind);
    case Grid =>
      SelectCons(Title("Key Information", 24), [], kind);
  }

  /** When pass i draws exactly the item `expected[i]` of a kind and the header none,
      the items of that kind in the drawing are `expected`. */
  lemma DrawingPicks(layout: Layout, keyPoints: seq<string>, titleSize: nat, kind: Kind, expected: seq<Item>)
    requires kind != TitleKind && kind != AxisKind
    requires |expected| == Min(|keyPoints|, Cap(layout))
    requires forall i :: 0 <= i < |expected| ==>
      Select(StepItems(layout, Take(keyPoints, Cap(layout)), i), kind) == [expected[i]]
    ensures Select(Drawing(layout, keyPoints, titleSize), kind) == expected
  {
    var points := Take(keyPoints, Cap(layout));
    var header, parts := Header(layout, titleSize), Passes(layout, points, |points|);
    HeaderHolds(layout, titleSize, kind);
    StepsConcat(layout, points, |points|);
    assert Drawing(layout, keyPoints, titleSize) == header + Concat(parts);
    HeadedSelect(header, parts, kind);
  }

  /** What one flowchart pass draws, kind by kind. */
  lemma FlowStep(points: seq<string>, i: nat)
    requires i < |points|
    ensures var step := StepItems(Flow, points, i);
      && Select(step, FlowBoxKind) == [FlowBox(i)]
      && Select(step, BadgeKind) == [Badge(i + 1)]
      && Select(step, LabelKind) == [Label(Truncate(points[i], 30))]
      && Select(step, ArrowKind) == if i < |points| - 1 then [Arrow(i)] else []
  {
    var named := Label(Truncate(points[i], 30));
    var tail: seq<Item> := if i < |points| - 1 then [Arrow(i)] else [];
    assert StepItems(Flow, points, i) == FlowPass(i, named, tail);
    FlowPassSelect(i, named, tail);
  }

  function FlowPass(i: nat, named: Item, tail: seq<Item>): seq<Item>
  {
    [FlowBox(i)] + ([Badge(i + 1)] + ([named] + tail))
  }

  lemma FlowPassSelect(i: nat, named: Item, tail: seq<Item>)
    requires named.Label?
    requires tail == [] || (|tail| == 1 && tail[0].Arrow?)
    ensures Select(FlowPass(i, named, tail), FlowBoxKind) == [FlowBox(i)]
    ensures Select(FlowPass(i, named, tail), BadgeKind) == [Badge(i + 1)]
    ensures Select(FlowPass(i, named, tail), LabelKind) == [named]
    ensures Select(FlowPass(i, named, tail), ArrowKind) == tail
  {
    SelectThree(FlowBox(i), Badge(i + 1), named, tail, FlowBoxKind);
    SelectThree(FlowBox(i), Badge(i + 1), named, tail, BadgeKind);
    SelectThree(FlowBox(i), Badge(i + 1), named, tail, LabelKind);
    SelectThree(FlowBox(i), Badge(i + 1), named, tail, ArrowKind);
    ArrowTail(tail, FlowBoxKind);
    ArrowTail(tail, BadgeKind);
    ArrowTail(tail, LabelKind);
    ArrowTail(tail, ArrowKind);
  }

  /** The optional arrow at the end of a flowchart pass holds nothing but an arrow. */
  lemma ArrowTail(tail: seq<Item>, kind: Kind)
    requires tail == [] || (|tail| == 1 && tail[0].Arrow?)
    ensures Select(tail, kind) == if kind == ArrowKind then tail else []
  {
    if tail != [] {
      assert tail == [tail[0]] + [];
      SelectCons(tail[0], [], kind);
    }
  }

  /** What one timeline pass draws, kind by kind. */
  lemma TimeStep(points: seq<string>, i: nat)
    requires i < |points|
    ensures var step := StepItems(Time, points, i);
      && Select(step, MarkerKind) == [Marker(i)]
      && Select(step, CaptionKind) == [Caption(Truncate(points[i], 25), i % 2 == 0)]
  {
    var caption := Caption(Truncate(points[i], 25), i % 2 == 0);
    assert StepItems(Time, points, i) == [Marker(i)] + [caption];
    SelectCons(Marker(i), [caption], MarkerKind);
    SelectCons(caption, [], MarkerKind);
    SelectCons(Marker(i), [caption], CaptionKind);
    SelectCons(caption, [], CaptionKind);
  }

  /** What one grid pass draws, kind by kind. */
  lemma GridStep(points: seq<string>, i: nat)
    requires i < |points|
    ensures var step := StepItems(Grid, points, i);
      && Select(step, GridBoxKind) == [Cell(i)]
      && Select(step, BadgeKind) == [Badge(i + 1)]
      && Select(step, LabelKind) == [Label(Truncate(points[i], 40))]
  {
    var box, badge, named := Cell(i), Badge(i + 1), Label(Truncate(points[i], 40));
    assert StepItems(Grid, points, i) == [box] + ([badge] + ([named] + []));
    SelectThree(box, badge, named, [], GridBoxKind);
    SelectThree(box, badge, named, [], BadgeKind);
    SelectThree(box, badge, named, [], LabelKind);
  }

  // What each layout should show of one kind, written out position by position.

  /** `FlowBox(0)`, ..., `FlowBox(n - 1)`. */
  function FlowBoxes(n: nat): (r: seq<Item>)
    ensures |r| == n && forall i :: 0 <= i < n ==> r[i] == FlowBox(i)
  {
    if n == 0 then [] else FlowBoxes(n - 1) + [FlowBox(n - 1)]
  }

  /** The step numbers `Badge(1)`, ..., `Badge(n)`. */
  function Badges(n: nat): (r: seq<Item>)
    ensures |r| == n && forall i :: 0 <= i < n ==> r[i] == Badge(i + 1)
  {
    if n == 0 then [] else Badges(n - 1) + [Badge(n)]
  }

  /** The points as labels, each truncated at `limit` characters. */
  function Labels(points: seq<string>, limit: nat): (r: seq<Item>)
    ensures |r| == |points| && forall i :: 0 <= i < |points| ==> r[i] == Label(Truncate(points[i], limit))
  {
    if points == [] then [] else Labels(points[..|points| - 1], limit) + [Label(Truncate(points[|points| - 1], limit))]
  }

  /** The arrows `Arrow(0)`, ..., `Arrow(m - 1)`, in order. */
  function Arrows(m: nat): (r: seq<Item>)
    ensures |r| == m && forall i :: 0 <= i < m ==> r[i] == Arrow(i)
  {
    if m == 0 then [] else Arrows(m - 1) + [Arrow(m - 1)]
  }

  /** `Marker(0)`, ..., `Marker(n - 1)`. */
  function Markers(n: nat): (r: seq<Item>)
    ensures |r| == n && forall i :: 0 <= i < n ==> r[i] == Marker(i)
  {
    if n == 0 then [] else Markers(n - 1) + [Marker(n - 1)]
  }

  /** The milestones as captions truncated at 25 characters, alternately above and below
      the line, starting above. */
  function Captions(points: seq<string>): (r: seq<Item>)
    ensures |r| == |points|
    ensures forall i :: 0 <= i < |points| ==> r[i] == Caption(Truncate(points[i], 25), i % 2 == 0)
  {
    if points == [] then []
    else
      var i := |points| - 1;
      Captions(points[..i]) + [Caption(Truncate(points[i], 25), i % 2 == 0)]
  }

  /** The box of grid position i: row i / 3, column i % 3, anchored at (1 + 3 * column, 7 - 3 * row). */
  function Cell(i: nat): (r: Item)
    ensures r.GridBox? && r.row == i / 3 && r.col == i % 3
    ensures r.x == 1 + 3 * r.col && r.y == 7 - 3 * r.row
  {
    GridBox(i / GridColumns, i % GridColumns, 1 + (i % GridColumns) * 3, 7 - (i / GridColumns) * 3)
  }

  /** `Cell(0)`, ..., `Cell(n - 1)`. */
  function Cells(n: nat): (r: seq<Item>)
    ensures |r| == n && forall i :: 0 <= i < n ==> r[i] == Cell(i)
  {
    if n == 0 then [] else Cells(n - 1) + [Cell(n - 1)]
  }

  // ---------------------------------------------------------------------------
  // What the layouts contain
  // ---------------------------------------------------------------------------

  /** The flowchart's loop draws one arrow after every box but the last. */
  lemma {:induction false} StepsArrows(points: seq<string>, n: nat)
    requires n <= |points|
    ensures Select(Steps(Flow, points, n), ArrowKind) == Arrows(if n == |points| && n > 0 then n - 1 else n)
  {
    if n > 0 {
      StepsArrows(points, n - 1);
      SelectAppend(Steps(Flow, points, n - 1), StepItems(Flow, points, n - 1), ArrowKind);
      FlowStep(points, n - 1);
      if n == |points| {
        assert Select(StepItems(Flow, points, n - 1), ArrowKind) == [];
      }
    }
  }

  /** The flowchart draws k = min(4, |key points|) boxes, in order. */
  lemma FlowBoxesDrawn(keyPoints: seq<string>, titleSize: nat)
    ensures Select(Drawing(Flow, keyPoints, titleSize), FlowBoxKind) == FlowBoxes(Min(|keyPoints|, 4))
  {
    var points := Take(keyPoints, 4);
    forall i | 0 <= i < |points| {
      FlowStep(points, i);
    }
    DrawingPicks(Flow, keyPoints, titleSize, FlowBoxKind, FlowBoxes(|points|));
  }

  /** The flowchart's boxes are numbered 1..k. */
  lemma FlowBadgesDrawn(keyPoints: seq<string>, titleSize: nat)
    ensures Select(Drawing(Flow, keyPoints, titleSize), BadgeKind) == Badges(Min(|keyPoints|, 4))
  {
    var points := Take(keyPoints, 4);
    forall i | 0 <= i < |points| {
      FlowStep(points, i);
    }
    DrawingPicks(Flow, keyPoints, titleSize, BadgeKind, Badges(|points|));
  }

  /** The flowchart's boxes are labelled with the first four points truncated at 30. */
  lemma FlowLabelsDrawn(keyPoints: seq<string>, titleSize: nat)
    ensures Select(Drawing(Flow, keyPoints, titleSize), LabelKind) == Labels(Take(keyPoints, 4), 30)
  {
    var points := Take(keyPoints, 4);
    forall i | 0 <= i < |points| {
      FlowStep(points, i);
    }
    DrawingPicks(Flow, keyPoints, titleSize, LabelKind, Labels(points, 30));
  }

  /** The flowchart draws k - 1 arrows, one leaving every box except the last, and none
      when there is at most one box. */
  lemma FlowchartArrows(keyPoints: seq<string>, titleSize: nat)
    ensures var k := Min(|keyPoints|, 4);
      Select(Drawing(Flow, keyPoints, titleSize), ArrowKind) == Arrows(if k == 0 then 0 else k - 1)
  {
    var points := Take(keyPoints, 4);
    StepsArrows(points, |points|);
    HeaderHolds(Flow, titleSize, ArrowKind);
    SelectAppend(Header(Flow, titleSize), Steps(Flow, points, |points|), ArrowKind);
  }

  /** The timeline draws k = min(5, |key points|) markers, in order. */
  lemma TimelineMarkersDrawn(keyPoints: seq<string>, titleSize: nat)
    ensures Select(Drawing(Time, keyPoints, titleSize), MarkerKind) == Markers(Min(|keyPoints|, 5))
  {
    var points := Take(keyPoints, 5);
    forall i | 0 <= i < |points| {
      TimeStep(points, i);
    }
    DrawingPicks(Time, keyPoints, titleSize, MarkerKind, Markers(|points|));
  }

  /** The timeline's captions are the first five points truncated at 25, alternately above
      and below the line. */
  lemma TimelineCaptionsDrawn(keyPoints: seq<string>, titleSize: nat)
    ensures Select(Drawing(Time, keyPoints, titleSize), CaptionKind) == Captions(Take(keyPoints, 5))
  {
    var points := Take(keyPoints, 5);
    forall i | 0 <= i < |points| {
      TimeStep(points, i);
    }
    DrawingPicks(Time, keyPoints, titleSize, CaptionKind, Captions(points));
  }

  /** Consecutive captions sit on opposite sides of the line. */
  lemma CaptionsAlternate(points: seq<string>, i: nat)
    requires i + 1 < |points|
    ensures Captions(points)[i].above != Captions(points)[i + 1].above
  {
    Parity(i);
  }

  lemma Parity(i: nat)
    ensures (i % 2 == 0) != ((i + 1) % 2 == 0)
  {
  }

  /** The grid draws k = min(6, |key points|) boxes, box i in cell `Cell(i)`. */
  lemma GridBoxesDrawn(keyPoints: seq<string>, titleSize: nat)
    ensures Select(Drawing(Grid, keyPoints, titleSize), GridBoxKind) == Cells(Min(|keyPoints|, 6))
  {
    var points := Take(keyPoints, 6);
    forall i | 0 <= i < |points| {
      GridStep(points, i);
    }
    DrawingPicks(Grid, keyPoints, titleSize, GridBoxKind, Cells(|points|));
  }

  /** The grid's boxes are numbered 1..k. */
  lemma GridBadgesDrawn(keyPoints: seq<string>, titleSize: nat)
    ensures Select(Drawing(Grid, keyPoints, titleSize), BadgeKind) == Badges(Min(|keyPoints|, 6))
  {
    var points := Take(keyPoints, 6);
    forall i | 0 <= i < |points| {
      GridStep(points, i);
    }
    DrawingPicks(Grid, keyPoints, titleSize, BadgeKind, Badges(|points|));
  }

  /** The grid's boxes are labelled with the first six points truncated at 40. */
  lemma GridLabelsDrawn(keyPoints: seq<string>, titleSize: nat)
    ensures Select(Drawing(Grid, keyPoints, titleSize), LabelKind) == Labels(Take(keyPoints, 6), 40)
  {
    var points := Take(keyPoints, 6);
    forall i | 0 <= i < |points| {
      GridStep(points, i);
    }
    DrawingPicks(Grid, keyPoints, titleSize, LabelKind, Labels(points, 40));
  }

  /** The first six positions fill the 2-by-3 grid: row below 2, column below 3, and
      row * 3 + column gives the position back. */
  lemma CellInGrid(i: nat)
    requires i < 6
    ensures Cell(i).row < 2 && Cell(i).col < 3 && Cell(i).row * 3 + Cell(i).col == i
  {
  }

  /** No two positions share a cell. */
  lemma CellsDistinct(i: nat, j: nat)
    requires i != j
    ensures (Cell(i).row, Cell(i).col) != (Cell(j).row, Cell(j).col)
  {
  }
}
