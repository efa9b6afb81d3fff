// `InfographicAgentSystem.create_infographic`: analyse, choose a strategy,
// draw, finish, in that order, and the end-to-end facts that follow.

module Pipeline {
  import opened AsciiText
  import opened Analyzer
  import opened Strategist
  import opened Canvas
  import Designer
  import opened Optimizer

  /** A missing preferences dictionary (`None`) is replaced by the empty one. */
  function EffectivePreferences(preferences: Option<Preferences>): Preferences
  {
    Get(preferences, NoPreferences)
  }

  /** What the finished figure shows for `text`. */
  function PipelineItems(text: string, preferences: Option<Preferences>): seq<Item>
  {
    var analysis := Analyze(text);
    Finish(Designer.Render(analysis, DetermineStrategy(analysis)), EffectivePreferences(preferences))
  }

  method CreateInfographic(text: string, preferences: Option<Preferences>) returns (fig: Figure)
    ensures fresh(fig)
    ensures (fig.width, fig.height) == Designer.FigureSize(VisualFor(Classify(text)))
    ensures fig.items == PipelineItems(text, preferences)
    ensures fig.dpi == TargetDpi(EffectivePreferences(preferences))
  {
    var prefs := if preferences.None? then NoPreferences else preferences.value;
    var analysis := AnalyzeText(text);
    var strategy := ChooseStrategy(analysis);
    var drawn := Designer.CreateInfographic(analysis, strategy);
    fig := Optimize(drawn, prefs);
  }

  /** The opening marks of the routine a category is routed to: sequential text becomes a
      flowchart, comparative text the comparison, temporal text a timeline, and
      hierarchical or uncategorised text the grid. */
  predicate OpensWith(c: Category, items: seq<Item>)
  {
    match c
    case Sequential => |items| > 0 && items[0] == Title("Process Flow", 24)
    case Comparative => |items| >= 6 && items[..6] == Designer.ComparisonItems
    case Temporal => |items| > 0 && items[0] == Title("Timeline", 24)
    case _ => |items| > 0 && items[0] == Title("Key Information", 24)
  }

  /** The finished drawing of an analysis begins with the heading of the routine its
      category is routed to. */
  lemma FinishedHead(analysis: Analysis, prefs: Preferences)
    ensures OpensWith(analysis.structure, Finish(Designer.Render(analysis, DetermineStrategy(analysis)), prefs))
  {
    var strategy := DetermineStrategy(analysis);
    StrategyTable(analysis);
    var drawn := Designer.Render(analysis, strategy);
    FinishKeepsDrawing(drawn, prefs);
    match analysis.structure
    case Sequential =>
      assert drawn[0] == Title("Process Flow", 24);
    case Comparative =>
      assert drawn == Designer.ComparisonItems;
    case Temporal =>
      assert drawn[0] == Title("Timeline", 24);
    case Hierarchical =>
      assert drawn[0] == Title("Key Information", 24);
    case General =>
      assert drawn[0] == Title("Key Information", 24);
  }

  /** Whatever the text and the preferences, the figure opens with the marks of the
      routine the text's category is routed to. */
  lemma LayoutFollowsCategory(text: string, preferences: Option<Preferences>)
    ensures OpensWith(Classify(text), PipelineItems(text, preferences))
  {
    AnalysisFacts(text);
    FinishedHead(Analyze(text), EffectivePreferences(preferences));
  }

  /** Without preferences nothing is added to the drawing and the resolution is 150 dpi. */
  lemma NoPreferencesDrawing(text: string)
    ensures PipelineItems(text, None) == Designer.Render(Analyze(text), DetermineStrategy(Analyze(text)))
    ensures TargetDpi(EffectivePreferences(None)) == 150
  {
    EmptyPreferences(Designer.Render(Analyze(text), DetermineStrategy(Analyze(text))));
  }

  /** The empty text: no key points, no data points, category `general`, zero words, simple. */
  lemma EmptyTextAnalysis()
    ensures Analyze("") == Analysis([], [], General, 0, Simple)
  {
    EmptyTextIsGeneral();
    NumbersEmptyIffNoDigit("");
    assert Split("", '.') == [""];
    assert Strip("") == "";
    assert Sentences("") == [];
    assert Words("") == [];
  }

  /** The empty text is drawn as the grid with no boxes, and with no preferences it gets
      150 dpi. */
  lemma EmptyTextScenario()
    ensures PipelineItems("", None) == [Title("Key Information", 24)]
    ensures |Select(PipelineItems("", None), GridBoxKind)| == 0
    ensures TargetDpi(EffectivePreferences(None)) == 150
  {
    EmptyTextAnalysis();
    var analysis := Analyze("");
    StrategyTable(analysis);
    var drawn := Designer.Render(analysis, DetermineStrategy(analysis));
    assert drawn == Designer.Drawing(Designer.Grid, [], 24);
    assert drawn == [Title("Key Information", 24)];
    EmptyPreferences(drawn);
    Designer.GridBoxesDrawn([], 24);
  }

  const ProcessText := "First, do A. Then, do B. Finally, do C."

  lemma LowerAt(s: string, k: nat, c: char)
    requires k < |s| && s[k] == c
    ensures Lower(s)[k] == LowerChar(c)
  {
  }

  /** A text that opens with "First" is sequential, whatever follows. */
  lemma FirstOpensSequence(s: string)
    requires |s| >= 5 && s[..5] == "First"
    ensures Classify(s) == Sequential
  {
    assert s[0] == 'F' && s[1] == 'i' && s[2] == 'r' && s[3] == 's' && s[4] == 't';
    LowerAt(s, 0, 'F');
    LowerAt(s, 1, 'i');
    LowerAt(s, 2, 'r');
    LowerAt(s, 3, 's');
    LowerAt(s, 4, 't');
    var lowered := Lower(s);
    assert lowered[..5] == "first";
    assert OccursAt(SequentialKeywords[0], lowered, 0);
    SequentialKeywordWins(s, 0);
  }

  /** One leading blank in front of stripped text is all that `strip` removes. */
  lemma StripOneBlank(s: string)
    requires |s| >= 2 && s[0] == ' ' && !IsSpace(s[1]) && !IsSpace(s[|s| - 1])
    ensures Strip(s) == s[1..]
  {
    SkipSpacesAt(s, 0, 1);
    assert TrimEnd(s, 1) == |s|;
  }

  const ProcessPieces := ["First, do A", " Then, do B", " Finally, do C", ""]

  lemma ProcessPiecesJoin()
    ensures Join(ProcessPieces, '.') == ProcessText
  {
    var pieces := ProcessPieces;
    assert pieces[2..][1..] == [""];
    assert Join(pieces[2..], '.') == " Finally, do C" + ['.'] + "";
    assert " Finally, do C" + ['.'] + "" == " Finally, do C.";
    assert pieces[1..][1..] == pieces[2..];
    assert Join(pieces[1..], '.') == " Then, do B" + ['.'] + " Finally, do C.";
    assert " Then, do B" + ['.'] + " Finally, do C." == " Then, do B. Finally, do C.";
    assert Join(pieces, '.') == "First, do A" + ['.'] + " Then, do B. Finally, do C.";
  }

  lemma ProcessPiecesKept()
    ensures KeepStripped(ProcessPieces) == ["First, do A", "Then, do B", "Finally, do C"]
  {
    var pieces := ProcessPieces;
    StripOfStripped(pieces[0]);
    StripOneBlank(pieces[1]);
    StripOneBlank(pieces[2]);
    assert Strip(pieces[3]) == "";
    assert pieces[3..] == [""] && pieces[3..][1..] == [];
    assert KeepStripped(pieces[3..]) == [];
    assert pieces[2..][1..] == pieces[3..];
    assert KeepStripped(pieces[2..]) == ["Finally, do C"];
    assert pieces[1..][1..] == pieces[2..];
    assert KeepStripped(pieces[1..]) == ["Then, do B", "Finally, do C"];
  }

  /** The process text's key points are its three sentences, without their periods. */
  lemma ProcessSentences()
    ensures Sentences(ProcessText) == ["First, do A", "Then, do B", "Finally, do C"]
  {
    ProcessPiecesJoin();
    SplitJoin(ProcessPieces, '.');
    ProcessPiecesKept();
  }

  lemma ProcessSentenceCount()
    ensures |Sentences(ProcessText)| == 3
  {
    ProcessSentences();
  }

  lemma ProcessIsSequential()
    ensures Classify(ProcessText) == Sequential
  {
    var t := ProcessText;
    assert t[0] == 'F' && t[1] == 'i' && t[2] == 'r' && t[3] == 's' && t[4] == 't';
    assert t[..5] == "First";
    FirstOpensSequence(t);
  }

  lemma ProcessHasNoDigit()
    ensures forall k :: 0 <= k < |ProcessText| ==> !IsDigit(ProcessText[k])
  {
  }

  lemma ProcessHasNoNumbers()
    ensures Numbers(ProcessText) == []
  {
    ProcessHasNoDigit();
    NumbersEmptyIffNoDigit(ProcessText);
  }

  /** A sequential text with three sentences is drawn as a flowchart
      with three boxes and two arrows. */
  lemma ThreeStepFlowchart(text: string)
    requires Classify(text) == Sequential
    requires |Sentences(text)| == 3
    ensures var items := PipelineItems(text, None);
      && |items| > 0 && items[0] == Title("Process Flow", 24)
      && |Select(items, FlowBoxKind)| == 3
      && |Select(items, ArrowKind)| == 2
  {
    var analysis := Analyze(text);
    assert |analysis.keyPoints| == 3;
    var strategy := DetermineStrategy(analysis);
    StrategyTable(analysis);
    var drawn := Designer.Render(analysis, strategy);
    assert drawn == Designer.Drawing(Designer.Flow, analysis.keyPoints, 24);
    EmptyPreferences(drawn);
    Designer.FlowBoxesDrawn(analysis.keyPoints, 24);
    Designer.FlowchartArrows(analysis.keyPoints, 24);
  }

  /** What `analyze_text` makes of a text, given the three facts it is computed from. */
  lemma AnalysisOf(text: string, c: Category, sentences: seq<string>, numbers: seq<string>)
    requires Classify(text) == c && Sentences(text) == sentences && Numbers(text) == numbers
    requires |sentences| < 5
    ensures Analyze(text).structure == c
    ensures Analyze(text).keyPoints == sentences
    ensures Analyze(text).dataPoints == numbers
    ensures Analyze(text).complexity == Simple
  {
  }

  /** The three-step process text is sequential, has no numbers, and keeps its three
      sentences as key points, so it counts as simple. */
  lemma ProcessAnalysis()
    ensures Analyze(ProcessText).structure == Sequential
    ensures Analyze(ProcessText).keyPoints == ["First, do A", "Then, do B", "Finally, do C"]
    ensures Analyze(ProcessText).dataPoints == []
    ensures Analyze(ProcessText).complexity == Simple
  {
    ProcessIsSequential();
    ProcessHasNoNumbers();
    ProcessSentences();
    AnalysisOf(ProcessText, Sequential, ["First, do A", "Then, do B", "Finally, do C"], []);
  }

  /** The three-step process text is drawn as a flowchart with three boxes and two arrows. */
  lemma ProcessDrawing()
    ensures var items := PipelineItems(ProcessText, None);
      && |Select(items, FlowBoxKind)| == 3
      && |Select(items, ArrowKind)| == 2
  {
    ProcessIsSequential();
    ProcessSentenceCount();
    ThreeStepFlowchart(ProcessText);
  }
}
