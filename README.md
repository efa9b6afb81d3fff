# Agentic infographic system — a Dafny model of its core

The system turns a piece of text into an infographic using four agents, run in sequence
by `InfographicAgentSystem.create_infographic`:

1. **Analyzer** (`analyze_text`) finds the numbers in the text, its structure category
   (sequential, comparative, hierarchical, temporal or general), its sentences, its word
   count and its complexity.
2. **Strategist** (`determine_strategy`) maps the category to a visual type, a layout and
   a list of elements through a fixed table. It falls back to the `general` row and
   always adds the `professional` palette and the font sizes 24/18/12.
3. **Designer** (`create_infographic`) dispatches on the visual type to one of four
   drawing routines: flowchart, comparison, timeline, or the general grid.
4. **Optimizer** (`optimize`) adds a watermark to the figure in place when asked, and
   sets its resolution.

The model has one module per stage, plus two support modules:

- `AsciiText` (`text.dfy`): the Python string operations the analyzer relies on —
  `lower()`, `isspace()`, `in`, `strip()`, `split('.')` and `split()`. It also defines
  `join`, which `analyze_text` never calls; it is there only to state the round-trip
  lemmas about the two splits.
- `Canvas` (`canvas.dfy`): the figure. A `Figure` class holds a size, a resolution and
  the sequence of marks drawn on it (`Item`). Marks are added in place.
  `Select(items, kind)` picks the marks of one kind, in drawing order.
- `Analyzer` (`analyzer.dfy`), `Strategist` (`strategist.dfy`), `Designer`
  (`designer.dfy`), `Optimizer` (`optimizer.dfy`) and `Pipeline` (`pipeline.dfy`).

The drawing routines loop over the key points and add marks to the figure. They are
modelled as methods with `while` loops over a `Figure` object. Each is proved to
produce `Drawing(layout, keyPoints, titleSize)`, a function that gives the marks pass
by pass. Lemmas about `Drawing` then state what each layout shows of each kind of mark.

A figure's geometry is reduced to the discrete facts the routines decide:

- which step or slot a mark belongs to;
- a grid cell's row, column and anchor;
- whether a timeline caption sits above or below the line;
- the truncated text.

## Model

| member | source | states |
|---|---|---|
| Analyzer.MatchEnd | 15-agentic-infographic-system.py:48 | the match of `\d+(?:\.\d+)?%?` starting at a digit is non-empty and stays inside the text |
| Analyzer.MatchEndIsToken | 15-agentic-infographic-system.py:48 | the match starting at a digit lies in the token language |
| Analyzer.MatchEndLongest | 15-agentic-infographic-system.py:48 | greedy: no longer slice from the same start is in the token language |
| Analyzer.IntegerMatch | 15-agentic-infographic-system.py:48 | a digit run, with an optional `%` right after it, is a number token |
| Analyzer.DecimalMatch | 15-agentic-infographic-system.py:48 | two digit runs joined by one `.`, with an optional `%`, are a number token |
| Analyzer.IntegerLongest | 15-agentic-infographic-system.py:48 | a digit run that is not followed by `.digit` cannot be extended into a longer token |
| Analyzer.DecimalLongest | 15-agentic-infographic-system.py:48 | a decimal that ends at a non-digit cannot be extended into a longer token |
| Analyzer.Scan | 15-agentic-infographic-system.py:48 | `findall`'s matches: each starts at a digit, is a token and is the greedy match from that digit, and they come left to right without overlapping |
| Analyzer.ScanCovers | 15-agentic-infographic-system.py:48 | no digit is skipped: every digit lies inside some match |
| Analyzer.ScanNoDigits | 15-agentic-infographic-system.py:48 | a stretch of text without digits has no matches |
| Analyzer.NumbersAreMatches | 15-agentic-infographic-system.py:48 | the data points are the texts of matches that start at digits, come in order without overlapping, cover every digit, and cannot be extended into a longer token |
| Analyzer.NumbersEmptyIffNoDigit | 15-agentic-infographic-system.py:48 | there are no data points if and only if the text has no digit |
| Analyzer.AnyKeyword | 15-agentic-infographic-system.py:60 | `any(keyword in text.lower() ...)` holds iff some keyword occurs as a substring |
| Analyzer.FirstMatchSpec | 15-agentic-infographic-system.py:58-62 | the first table row with a matching keyword wins; `general` iff no row matches |
| Analyzer.ClassifyPriority | 15-agentic-infographic-system.py:51-62 | categories in the order sequential, comparative, hierarchical, temporal, each iff no earlier one matched; general iff none matched |
| Analyzer.SequentialKeywordWins | 15-agentic-infographic-system.py:52 | any sequential keyword makes the text sequential, whatever else it contains |
| Analyzer.EmptyTextIsGeneral | 15-agentic-infographic-system.py:58 | the empty text is `general` |
| Analyzer.DetectStructure | 15-agentic-infographic-system.py:58-62 | the loop with its early `break` returns the category `Classify` specifies |
| Analyzer.KeepStripped | 15-agentic-infographic-system.py:65 | the kept pieces are non-empty and stripped, and there are no more of them than pieces |
| Analyzer.KeptFromSpec | 15-agentic-infographic-system.py:65 | the kept positions are increasing, and they are exactly the positions whose piece is not all whitespace |
| Analyzer.KeepStrippedByIndex | 15-agentic-infographic-system.py:65 | the comprehension yields, in order, the stripped form of the piece at each kept position |
| Analyzer.SentencesByIndex | 15-agentic-infographic-system.py:65 | for every text, the sentences are the stripped non-blank `.`-pieces, in text order |
| Analyzer.SentencesShape | 15-agentic-infographic-system.py:65 | every sentence is non-empty, stripped and free of `.` |
| Analyzer.SentencesJoin | 15-agentic-infographic-system.py:65 | joining sentences with `.` and splitting them again gives the same sentences back |
| Analyzer.Take | 15-agentic-infographic-system.py:68 | `xs[:n]` has length `min(len(xs), n)` and is a prefix of `xs` |
| Analyzer.AnalysisFacts | 15-agentic-infographic-system.py:67-73 | key points are the first `min(n, 5)` of the `n` sentences; simple iff fewer than 5 sentences; word count is the number of `split()` words; structure is the detected category |
| Analyzer.AnalyzeText | 15-agentic-infographic-system.py:37-78 | `analyze_text` returns the analysis `Analyze` specifies |
| Strategist.LookupEntry | 15-agentic-infographic-system.py:100-128 | a known category gets its own table row; any other key gets the `general` row (mixed, grid) |
| Strategist.UnknownCategoryFallsBack | 15-agentic-infographic-system.py:128 | an unknown structure name is looked up as `general` |
| Strategist.DetermineStrategy | 15-agentic-infographic-system.py:131-143 | every strategy carries the professional palette and the font sizes 24/18/12 |
| Strategist.StrategyTable | 15-agentic-infographic-system.py:100-128 | the visual type and layout of each category, row by row |
| Strategist.ChooseStrategy | 15-agentic-infographic-system.py:87-147 | the strategy built in place equals `DetermineStrategy` and its visual type follows the category |
| Designer.Truncate | 15-agentic-infographic-system.py:218 | text of at most `n` characters is kept; longer text becomes its first `n` characters followed by `...` |
| Designer.CreateInfographic | 15-agentic-infographic-system.py:163-172 | dispatch: flowchart, comparison and timeline have their own routines; every other visual type gets the grid |
| Designer.CreateFlowchart | 15-agentic-infographic-system.py:174-233 | a 12×6 figure whose marks are the flowchart `Drawing` of the key points |
| Designer.DrawFlowStep | 15-agentic-infographic-system.py:197-230 | one pass adds a box, a number badge, the label truncated at 30, and an arrow unless it is the last step |
| Designer.CreateComparison | 15-agentic-infographic-system.py:235-273 | a 10×8 figure with the title, `VS`, two regions and the labels `Option A` and `Option B`, whatever the input |
| Designer.CreateTimeline | 15-agentic-infographic-system.py:275-311 | a 12×6 figure whose marks are the title at 24, the axis, and the timeline `Drawing` of the key points |
| Designer.DrawMilestone | 15-agentic-infographic-system.py:295-308 | one pass adds a marker and a caption truncated at 25, placed above the line on even passes |
| Designer.CreateGeneral | 15-agentic-infographic-system.py:313-360 | a 10×8 figure whose marks are the grid `Drawing` of the key points |
| Designer.DrawGridCell | 15-agentic-infographic-system.py:331-357 | one pass adds the cell's box, a number badge and the label truncated at 40 |
| Designer.StepsNext | 15-agentic-infographic-system.py:197 | the loop's append step, used by the drawing proofs: the marks of `n + 1` passes are those of `n` passes followed by pass `n`'s marks |
| Designer.FlowBoxesDrawn | 15-agentic-infographic-system.py:182-209 | the flowchart draws `min(n, 4)` boxes, numbered 0, 1, ... in order |
| Designer.FlowBadgesDrawn | 15-agentic-infographic-system.py:212-215 | the flowchart's number badges read 1, ..., `min(n, 4)` |
| Designer.FlowLabelsDrawn | 15-agentic-infographic-system.py:217-222 | the flowchart's labels are the first 4 key points, each truncated at 30 |
| Designer.FlowchartArrows | 15-agentic-infographic-system.py:224-230 | with `k = min(n, 4)` boxes the flowchart draws `k - 1` arrows (none when `k` is 0), leaving steps 0..k-2 |
| Designer.StepsArrows | 15-agentic-infographic-system.py:225 | an arrow leaves every pass except the last one over the whole list |
| Designer.TimelineMarkersDrawn | 15-agentic-infographic-system.py:292-299 | the timeline draws `min(n, 5)` markers in slot order |
| Designer.TimelineCaptionsDrawn | 15-agentic-infographic-system.py:301-308 | the captions are the first 5 key points truncated at 25, above the line iff the index is even |
| Designer.CaptionsAlternate | 15-agentic-infographic-system.py:302 | neighbouring captions are on opposite sides of the line |
| Designer.Cell | 15-agentic-infographic-system.py:332-336 | cell `i` is at row `i / 3`, column `i % 3`, anchored at `x = 1 + 3·col`, `y = 7 − 3·row` |
| Designer.CellInGrid | 15-agentic-infographic-system.py:328-333 | each of the 6 cells lies in the 2×3 grid, and row and column give back its index |
| Designer.CellsDistinct | 15-agentic-infographic-system.py:332-333 | two different indices never share a cell |
| Designer.GridBoxesDrawn | 15-agentic-infographic-system.py:328-345 | the grid draws `min(n, 6)` boxes, box `i` in cell `i` |
| Designer.GridBadgesDrawn | 15-agentic-infographic-system.py:347-351 | the grid's number badges read 1, ..., `min(n, 6)` |
| Designer.GridLabelsDrawn | 15-agentic-infographic-system.py:353-357 | the grid's labels are the first 6 key points, each truncated at 40 |
| Optimizer.Optimize | 15-agentic-infographic-system.py:369-391 | changes the figure it is given and returns that same figure; adds the watermark only when asked; sets the dpi to the requested value, 150 by default |
| Optimizer.FinishKeepsDrawing | 15-agentic-infographic-system.py:379-384 | optimizing keeps the drawing; exactly one watermark is added, on top, iff `add_watermark` is set |
| Optimizer.DefaultWatermark | 15-agentic-infographic-system.py:381 | without `watermark_text` the watermark reads `Created with AI` |
| Optimizer.EmptyPreferences | 15-agentic-infographic-system.py:379-387 | empty preferences add nothing and give 150 dpi |
| Pipeline.CreateInfographic | 15-agentic-infographic-system.py:403-439 | analysis, strategy, design and optimization, in that order; `None` preferences act as `{}` |
| Pipeline.FinishedHead | 15-agentic-infographic-system.py:163-172 | the finished drawing of an analysis starts with the heading of the routine its category is routed to |
| Pipeline.LayoutFollowsCategory | 15-agentic-infographic-system.py:403-439 | sequential text becomes a flowchart, comparative text the comparison, temporal text a timeline, hierarchical or general text the grid |
| Pipeline.NoPreferencesDrawing | 15-agentic-infographic-system.py:408-409 | with `None` preferences the figure shows exactly the designer's drawing at 150 dpi |
| Pipeline.EmptyTextAnalysis | 15-agentic-infographic-system.py:37-78 | the empty text has no key points and no data points, and is general, zero words and simple |
| Pipeline.EmptyTextScenario | 15-agentic-infographic-system.py:403-439 | the empty text is drawn as the grid title alone, with no boxes, at 150 dpi |
| Pipeline.ThreeStepFlowchart | 15-agentic-infographic-system.py:174-233 | a sequential text with three sentences gives a flowchart with 3 boxes and 2 arrows |
| Pipeline.ProcessAnalysis | 15-agentic-infographic-system.py:37-78 | "First, do A. Then, do B. Finally, do C." is sequential and simple, has no numbers, and has three key points |
| Pipeline.ProcessDrawing | 15-agentic-infographic-system.py:403-439 | that text is drawn with 3 boxes and 2 arrows |
| AsciiText.Lower | 15-agentic-infographic-system.py:60 | `lower()` maps each ASCII capital to its small letter and keeps every other character |
| AsciiText.LowerIdempotent | 15-agentic-infographic-system.py:60 | lowering twice is lowering once |
| AsciiText.Occurs | 15-agentic-infographic-system.py:60 | `keyword in text` holds iff the keyword occurs at some position |
| AsciiText.Strip | 15-agentic-infographic-system.py:65 | `strip()` is empty iff the text is all whitespace; otherwise it is the slice that starts and ends at a non-space with only whitespace around it |
| AsciiText.StripIdempotent | 15-agentic-infographic-system.py:65 | stripping twice is stripping once |
| AsciiText.Split | 15-agentic-infographic-system.py:65 | `split('.')` gives at least one piece, and no piece contains `.` |
| AsciiText.JoinSplit | 15-agentic-infographic-system.py:65 | joining the pieces of `split('.')` with `.` gives the text back |
| AsciiText.SplitJoin | 15-agentic-infographic-system.py:65 | splitting pieces that were joined with `.` gives the pieces back |
| AsciiText.Words | 15-agentic-infographic-system.py:71 | `split()` gives non-empty pieces without whitespace |
| AsciiText.WordsOfBlank | 15-agentic-infographic-system.py:71 | a text has no words iff it is all whitespace |
| AsciiText.WordsJoin | 15-agentic-infographic-system.py:71 | `split()` of words joined by single spaces gives the words back |
| AsciiText.WordsAfterSpace | 15-agentic-infographic-system.py:71 | one leading whitespace character does not change the words |
| AsciiText.WordsAfterBlank | 15-agentic-infographic-system.py:71 | leading whitespace of any kind and length does not change the words |
| AsciiText.WordsCons | 15-agentic-infographic-system.py:71 | a whitespace-free word followed by nothing or by whitespace is the first word, and the rest are the words of what follows |
| Canvas.Figure.Add | 15-agentic-infographic-system.py:209 | adding a mark appends it to the figure and changes nothing else |
| Canvas.Figure.SetDpi | 15-agentic-infographic-system.py:387 | `set_dpi` changes the resolution and keeps the marks |
| Canvas.SelectAppend | 15-agentic-infographic-system.py:197 | the marks of one kind in a drawing made of two parts are those of the first part, then those of the second |

## Left out

- Coordinates in floating point, sizes of boxes, colours, alpha, font weights and the
  `np.linspace` milestone positions are not modelled. Each mark keeps only its step, slot,
  grid cell, text, or side of the line.
- Font sizes are kept for titles only. The other marks' sizes are dropped: the number
  badges (16 in the flowchart, 14 in the grid), the box labels (10 in the flowchart, 9 in
  the grid), `VS` (36), the option labels (18), the timeline captions (9) and the
  watermark (8).
- Each agent's `print` logging and its `name` field are left out: they do not affect the
  result.
- The example-usage block and its `plt.savefig` calls are I/O and are not part of this
  model. So are the imports and the `InfographicConcept` dataclass, which the core never
  uses.
- matplotlib itself is not modelled. A new figure starts at 100 dpi, matplotlib's default;
  `tight_layout`, `axis('off')` and axis limits change no mark and are left out.
- `\d`, `lower()` and `isspace()` are modelled on ASCII only. Python also treats non-ASCII
  digits, letters and whitespace this way; a non-ASCII character is taken here as neither
  a digit, a capital, nor whitespace.
- Optimizer.WantsWatermark: the watermark is added for `add_watermark` equal to `True`
  only. Python adds it for any truthy value, such as `1` or `"yes"`; the model's
  preferences hold an optional boolean.
- Optimizer.TargetDpi: a `dpi` key whose value is `None` is treated like a missing key.
  In Python it would pass `None` to `set_dpi`.
- Optimizer.WatermarkText: a `watermark_text` key whose value is `None` is treated like a
  missing key, so the watermark reads `Created with AI`. In Python it would pass `None`
  to `ax.text`.
- Designer.CreateComparison ignores the analysis, as the source does. Its colours come
  from the palette, which the model does not keep (see the first line of this list). It
  is modelled as its constant list of marks.
- Strategist.DetermineStrategy carries only the `professional` palette, as the source
  does. The four named palettes are the module constant `Strategist.ColorSchemes`; the
  other three are kept as data but never chosen.
- The strategy's `elements` list is kept as data. No drawing routine reads it.
- Hierarchical text is routed to `pyramid`, which has no routine of its own, so it is
  drawn as the grid. The model follows the code.
