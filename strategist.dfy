// The second stage, `StrategistAgent.determine_strategy`: a fixed table from the
// structure category to a visual type, a layout and a list of elements, plus the
// palette and font sizes that every strategy carries.

module Strategist {
  import opened Analyzer

  datatype VisualType = Flowchart | Comparison | Pyramid | Timeline | Mixed

  /** One row of the visualisation table. */
  datatype Entry = Entry(visual: VisualType, layout: string, elements: seq<string>)

  datatype FontSizes = FontSizes(title: nat, heading: nat, body: nat)

  datatype Strategy = Strategy(
    visual: VisualType,
    layout: string,
    elements: seq<string>,
    colorScheme: seq<string>,
    fontSizes: FontSizes)

  /** The visualisation table, keyed by category name. */
  const VizMapping: map<string, Entry> := map[
    "sequential" := Entry(Flowchart, "horizontal", ["arrows", "numbered_boxes", "icons"]),
    "comparative" := Entry(Comparison, "side_by_side", ["split_view", "vs_symbol", "checkmarks"]),
    "hierarchical" := Entry(Pyramid, "vertical", ["levels", "hierarchy_lines", "labels"]),
    "temporal" := Entry(Timeline, "horizontal", ["timeline_line", "date_markers", "milestones"]),
    "general" := Entry(Mixed, "grid", ["sections", "icons", "text_blocks"])
  ]

  /** The named palettes; only `professional` is ever chosen. */
  const ColorSchemes: map<string, seq<string>> := map[
    "professional" := ["#2C3E50", "#3498DB", "#ECF0F1"],
    "energetic" := ["#E74C3C", "#F39C12", "#ECF0F1"],
    "natural" := ["#27AE60", "#16A085", "#ECF0F1"],
    "tech" := ["#9B59B6", "#3498DB", "#ECF0F1"]
  ]

  const StandardFontSizes := FontSizes(24, 18, 12)

  /** `viz_mapping.get(structure, viz_mapping['general'])`. */
  function LookupEntry(structure: string): (e: Entry)
    ensures structure in VizMapping ==> e == VizMapping[structure]
    ensures structure !in VizMapping ==> e.visual == Mixed && e.layout == "grid"
  {
    if structure in VizMapping then VizMapping[structure] else VizMapping["general"]
  }

  /** Any key outside the five category names gets the `general` row. */
  lemma UnknownCategoryFallsBack(structure: string)
    requires structure !in {"sequential", "comparative", "hierarchical", "temporal", "general"}
    ensures LookupEntry(structure) == LookupEntry("general")
  {
    assert structure !in VizMapping;
  }

  /** `determine_strategy`: the table row for the category, with the `professional`
      palette and the standard font sizes attached. */
  function DetermineStrategy(analysis: Analysis): (s: Strategy)
    ensures |s.colorScheme| == 3 && s.colorScheme == ColorSchemes["professional"]
    ensures s.fontSizes.title == 24 && s.fontSizes.heading == 18 && s.fontSizes.body == 12
  {
    var entry := LookupEntry(CategoryName(analysis.structure));
    Strategy(entry.visual, entry.layout, entry.elements, ColorSchemes["professional"], StandardFontSizes)
  }

  /** `determine_strategy` as the source runs it: look the row up, then attach the
      palette and the font sizes to it. */
  method ChooseStrategy(analysis: Analysis) returns (strategy: Strategy)
    ensures strategy == DetermineStrategy(analysis)
    ensures strategy.visual == VisualFor(analysis.structure)
  {
    var entry := LookupEntry(CategoryName(analysis.structure));
    strategy := Strategy(entry.visual, entry.layout, entry.elements, [], FontSizes(0, 0, 0));
    strategy := strategy.(colorScheme := ColorSchemes["professional"]);
    strategy := strategy.(fontSizes := StandardFontSizes);
    StrategyTable(analysis);
  }

  /** The visual type of each category, as a reference written independently of the table. */
  function VisualFor(c: Category): VisualType
  {
    match c
    case Sequential => Flowchart
    case Comparative => Comparison
    case Hierarchical => Pyramid
    case Temporal => Timeline
    case General => Mixed
  }

  /** The table sends every category to its visual type, and its layout is the one the
      visual type is drawn with. */
  lemma StrategyTable(analysis: Analysis)
    ensures DetermineStrategy(analysis).visual == VisualFor(analysis.structure)
    ensures DetermineStrategy(analysis).layout ==
      match analysis.structure
      case Sequential => "horizontal"
      case Comparative => "side_by_side"
      case Hierarchical => "vertical"
      case Temporal => "horizontal"
      case General => "grid"
  {
    var name := CategoryName(analysis.structure);
    assert name in VizMapping;
  }
}
