// The fourth stage, `OptimizerAgent.optimize`: an optional watermark and the
// figure's resolution, applied to the figure in place.

module Optimizer {
  import opened Canvas

  datatype Option<T> = None | Some(value: T)

  /** `dict.get(key, default)` on one key: `None` stands for a missing key. */
  function Get<T>(o: Option<T>, default: T): T
  {
    match o
    case Some(v) => v
    case None => default
  }

  /** The keys `optimize` reads from the caller's preferences dictionary. */
  datatype Preferences = Preferences(
    addWatermark: Option<bool>,
    watermarkText: Option<string>,
    dpi: Option<int>)

  /** The empty dictionary `{}`. */
  const NoPreferences := Preferences(None, None, None)

  const DefaultWatermarkText := "Created with AI"
  const DefaultDpi := 150

  /** `preferences.get('add_watermark')` is truthy. */
  predicate WantsWatermark(preferences: Preferences) {
    preferences.addWatermark == Some(true)
  }

  function WatermarkText(preferences: Preferences): string {
    Get(preferences.watermarkText, DefaultWatermarkText)
  }

  function TargetDpi(preferences: Preferences): int {
    Get(preferences.dpi, DefaultDpi)
  }

  /** The drawing after `optimize`: the watermark goes on top when it is asked for. */
  function Finish(items: seq<Item>, preferences: Preferences): seq<Item>
  {
    if WantsWatermark(preferences) then items + [Watermark(WatermarkText(preferences))] else items
  }

  /** `OptimizerAgent.optimize`: changes the figure it is given and returns that same figure. */
  method Optimize(fig: Figure, preferences: Preferences) returns (result: Figure)
    modifies fig
    ensures result == fig
    ensures fig.items == Finish(old(fig.items), preferences)
    ensures fig.dpi == TargetDpi(preferences)
  {
    if preferences.addWatermark == Some(true) {
      fig.Add(Watermark(Get(preferences.watermarkText, DefaultWatermarkText)));
    }
    fig.SetDpi(Get(preferences.dpi, DefaultDpi));
    result := fig;
  }


  /** Finishing keeps everything already drawn, in place, and adds exactly one watermark,
      last, when one is asked for, and nothing otherwise. */
  lemma FinishKeepsDrawing(items: seq<Item>, preferences: Preferences)
    ensures var done := Finish(items, preferences);
      && |done| == |items| + (if WantsWatermark(preferences) then 1 else 0)
      && done[..|items|] == items
      && |Select(done, WatermarkKind)| == |Select(items, WatermarkKind)| + (if WantsWatermark(preferences) then 1 else 0)
      && (WantsWatermark(preferences) ==> done[|items|] == Watermark(WatermarkText(preferences)))
  {
    if WantsWatermark(preferences) {
      var w := Watermark(WatermarkText(preferences));
      SelectAppend(items, [w], WatermarkKind);
      SelectCons(w, [], WatermarkKind);
    }
  }

  /** With the empty dictionary the drawing is unchanged and the resolution is 150 dpi. */
  lemma EmptyPreferences(items: seq<Item>)
    ensures Finish(items, NoPreferences) == items
    ensures TargetDpi(NoPreferences) == 150
  {
  }

  /** A watermark without a text of its own reads "Created with AI". */
  lemma DefaultWatermark(items: seq<Item>, dpi: Option<int>)
    ensures Finish(items, Preferences(Some(true), None, dpi)) == items + [Watermark("Created with AI")]
  {
  }
}
