// The drawing surface that the designer fills and the optimizer finishes: an
// abstract record of what was drawn, in drawing order, plus the figure's
// resolution. Coordinates that the drawing library computes in floating point
// are not kept; the discrete facts (which item, which step, which grid cell,
// which side of the timeline) are.

module Canvas {

  datatype Side = Left | Right

  datatype Item =
    | Title(text: string, size: nat)                  // heading text at the top
    | Text(text: string)                              // free-standing text ('VS', 'Option A')
    | FlowBox(step: nat)                              // rounded box of flowchart step `step`
    | GridBox(row: nat, col: nat, x: int, y: int)     // rounded box in a grid cell, anchored at (x, y)
    | Region(side: Side)                              // one half of the comparison layout
    | Badge(number: nat)                              // circled step number
    | Label(text: string)                             // text inside a box
    | Arrow(after: nat)                               // arrow leaving flowchart step `after`
    | Axis                                            // the horizontal timeline line
    | Marker(slot: nat)                               // timeline milestone marker
    | Caption(text: string, above: bool)              // milestone text above or below the line
    | Watermark(text: string)                         // low-opacity footer text

  /** What sort of mark an item is, regardless of its text, number or position. */
  datatype Kind =
    | TitleKind | TextKind | FlowBoxKind | GridBoxKind | RegionKind | BadgeKind
    | LabelKind | ArrowKind | AxisKind | MarkerKind | CaptionKind | WatermarkKind

  function KindOf(it: Item): Kind
  {
    match it
    case Title(_, _) => TitleKind
    case Text(_) => TextKind
    case FlowBox(_) => FlowBoxKind
    case GridBox(_, _, _, _) => GridBoxKind
    case Region(_) => RegionKind
    case Badge(_) => BadgeKind
    case Label(_) => LabelKind
    case Arrow(_) => ArrowKind
    case Axis => AxisKind
    case Marker(_) => MarkerKind
    case Caption(_, _) => CaptionKind
    case Watermark(_) => WatermarkKind
  }

  /** The drawing library's default resolution for a new figure. */
  const InitialDpi := 100

  /** A figure: what has been drawn on its one set of axes, and its resolution. */
  class Figure {
    const width: nat
    const height: nat
    var items: seq<Item>
    var dpi: int

    constructor (width: nat, height: nat)
      ensures this.width == width && this.height == height
      ensures items == [] && dpi == InitialDpi
    {
      this.width := width;
      this.height := height;
      items := [];
      dpi := InitialDpi;
    }

    /** Draw one more item on top of what is there. */
    method Add(item: Item)
      modifies this
      ensures items == old(items) + [item]
      ensures dpi == old(dpi)
    {
      items := items + [item];
    }

    /** `fig.set_dpi(d)`. */
    method SetDpi(d: int)
      modifies this
      ensures dpi == d
      ensures items == old(items)
    {
      dpi := d;
    }
  }

  /** `[item]` when the item is of the given kind, and nothing otherwise. */
  function Keep(item: Item, kind: Kind): seq<Item>
  {
    if KindOf(item) == kind then [item] else []
  }

  /** The items of `items` of the given kind, in order. */
  function Select(items: seq<Item>, kind: Kind): (r: seq<Item>)
    ensures |r| <= |items|
  {
    if items == [] then []
    else Keep(items[0], kind) + Select(items[1..], kind)
  }

  lemma SelectCons(item: Item, rest: seq<Item>, kind: Kind)
    ensures Select([item] + rest, kind) == Keep(item, kind) + Select(rest, kind)
  {
    assert ([item] + rest)[1..] == rest;
  }

  lemma SelectThree(a: Item, b: Item, c: Item, tail: seq<Item>, kind: Kind)
    ensures Select([a] + ([b] + ([c] + tail)), kind) == Keep(a, kind) + (Keep(b, kind) + (Keep(c, kind) + Select(tail, kind)))
  {
    SelectCons(a, [b] + ([c] + tail), kind);
    SelectCons(b, [c] + tail, kind);
    SelectCons(c, tail, kind);
  }

  lemma {:induction false} SelectAppend(a: seq<Item>, b: seq<Item>, kind: Kind)
    ensures Select(a + b, kind) == Select(a, kind) + Select(b, kind)
  {
    if a != [] {
      assert (a + b)[1..] == a[1..] + b;
      SelectAppend(a[1..], b, kind);
    } else {
      assert a + b == b;
    }
  }

  /** The runs of items in `parts`, one after the other. */
  function Concat(parts: seq<seq<Item>>): seq<Item>
  {
    if parts == [] then [] else Concat(parts[..|parts| - 1]) + parts[|parts| - 1]
  }

  /** Each run of `parts` filtered by kind, run by run. */
  function SelectEach(parts: seq<seq<Item>>, kind: Kind): (r: seq<seq<Item>>)
    ensures |r| == |parts|
    ensures forall i :: 0 <= i < |parts| ==> r[i] == Select(parts[i], kind)
  {
    if parts == [] then [] else SelectEach(parts[..|parts| - 1], kind) + [Select(parts[|parts| - 1], kind)]
  }

  /** Filtering the whole is filtering each run. */
  lemma {:induction false} SelectConcat(parts: seq<seq<Item>>, kind: Kind)
    ensures Select(Concat(parts), kind) == Concat(SelectEach(parts, kind))
  {
    if parts != [] {
      var init := parts[..|parts| - 1];
      SelectConcat(init, kind);
      SelectAppend(Concat(init), parts[|parts| - 1], kind);
      assert SelectEach(parts, kind)[..|parts| - 1] == SelectEach(init, kind);
    }
  }

  /** Runs of exactly one item each join to the sequence of those items. */
  lemma {:induction false} ConcatSingles(runs: seq<seq<Item>>)
    requires forall i :: 0 <= i < |runs| ==> |runs[i]| == 1
    ensures |Concat(runs)| == |runs|
    ensures forall i :: 0 <= i < |runs| ==> Concat(runs)[i] == runs[i][0]
  {
    if runs != [] {
      ConcatSingles(runs[..|runs| - 1]);
    }
  }

  /** When every run holds exactly one item of a kind, the whole holds those items,
      one per run, in run order. */
  lemma ConcatSelect(parts: seq<seq<Item>>, kind: Kind)
    requires forall i :: 0 <= i < |parts| ==> |Select(parts[i], kind)| == 1
    ensures |Select(Concat(parts), kind)| == |parts|
    ensures forall i :: 0 <= i < |parts| ==> Select(Concat(parts), kind)[i] == Select(parts[i], kind)[0]
  {
    SelectConcat(parts, kind);
    ConcatSingles(SelectEach(parts, kind));
  }

  /** The same, behind a header that holds no item of the kind. */
  lemma HeadedSelect(header: seq<Item>, parts: seq<seq<Item>>, kind: Kind)
    requires Select(header, kind) == []
    requires forall i :: 0 <= i < |parts| ==> |Select(parts[i], kind)| == 1
    ensures |Select(header + Concat(parts), kind)| == |parts|
    ensures forall i :: 0 <= i < |parts| ==> Select(header + Concat(parts), kind)[i] == Select(parts[i], kind)[0]
  {
    var body := Concat(parts);
    SelectAppend(header, body, kind);
    assert Select(header + body, kind) == Select(body, kind);
    ConcatSelect(parts, kind);
  }
}
