/**
 * The plant card (components/PlantCard.tsx): the cycle progress turned into
 * a whole percent, shown both as the width of the progress bar and in the
 * label under it, and the card's colours.
 */
module PlantCard {
  import opened Options
  import JsMath
  import JsText
  import DateUtils
  import PlantRepository
  import ThemeColor

  /** `Math.round(progress * 100)`: the nearest whole percent, halves rounded up. */
  function Percent(progress: real): (percent: int)
    ensures progress * 100.0 - 0.5 < percent as real <= progress * 100.0 + 0.5
    ensures 0.0 <= progress <= 1.0 ==> 0 <= percent <= 100
  {
    JsMath.Round(progress * 100.0)
  }

  /** An empty cycle shows 0% and a full one 100%. */
  lemma PercentEnds()
    ensures Percent(0.0) == 0 && Percent(1.0) == 100
  {
    JsMath.RoundOfInteger(0);
    JsMath.RoundOfInteger(100);
  }

  /** More progress never shows a smaller percent. */
  lemma PercentMonotone(p: real, q: real)
    requires p <= q
    ensures Percent(p) <= Percent(q)
  {
    JsMath.RoundMonotone(p * 100.0, q * 100.0);
  }

  /** What the card shows of the cycle. */
  datatype ProgressView = ProgressView(percent: int, barWidth: string, caption: string)

  const LabelSuffix: string := " del ciclo de riego"

  /** The bar's `width: `${percent}%`` and the text `{percent}% del ciclo de riego`. */
  function ShowPercent(percent: int): (view: ProgressView)
    ensures view.percent == percent
    ensures view.barWidth == JsText.NumberText(percent) + "%"
    ensures view.caption == view.barWidth + LabelSuffix
  {
    var width := JsText.NumberText(percent) + "%";
    ProgressView(percent, width, JsText.NumberText(percent) + "%" + LabelSuffix)
  }

  /** The card's progress for `plant` at instant `now`. */
  function CardProgress(plant: PlantRepository.Plant, now: int): (view: ProgressView)
    requires plant.waterEveryDays != 0.0
    ensures view.percent == Percent(DateUtils.WaterProgress(plant.lastWateredAt, plant.waterEveryDays, now))
    ensures 0 <= view.percent <= 100
    ensures view == ShowPercent(view.percent)
  {
    var progress := DateUtils.WaterProgress(plant.lastWateredAt, plant.waterEveryDays, now);
    ShowPercent(Percent(progress))
  }

  /**
   * The bar and the label always show the same number: each determines the
   * percent, so two cards whose bars match also have matching labels.
   */
  lemma {:induction false} BarDeterminesLabel(a: ProgressView, b: ProgressView)
    requires a == ShowPercent(a.percent) && b == ShowPercent(b.percent)
    ensures a.barWidth == b.barWidth <==> a.percent == b.percent
    ensures a.caption == b.caption <==> a.percent == b.percent
  {
    if a.barWidth == b.barWidth {
      assert JsText.NumberText(a.percent) == a.barWidth[..|a.barWidth| - 1];
      assert JsText.NumberText(b.percent) == b.barWidth[..|b.barWidth| - 1];
      JsText.NumberTextInjective(a.percent, b.percent);
    }
    if a.caption == b.caption {
      assert |a.barWidth| == |b.barWidth| by {
        assert |a.caption| == |a.barWidth| + |LabelSuffix|;
        assert |b.caption| == |b.barWidth| + |LabelSuffix|;
      }
      assert a.barWidth == a.caption[..|a.barWidth|];
      assert b.barWidth == b.caption[..|b.barWidth|];
      assert JsText.NumberText(a.percent) == a.barWidth[..|a.barWidth| - 1];
      assert JsText.NumberText(b.percent) == b.barWidth[..|b.barWidth| - 1];
      JsText.NumberTextInjective(a.percent, b.percent);
    }
  }

  /** The colour names the card asks `useThemeColor` for, each passed as its own prop. */
  const CardColorNames: seq<string> := ["card", "text", "subtleText", "progressBg", "progressFill"]

  /** None of the card's props is a '#' literal, so every card colour comes from the palette. */
  lemma CardColorsFromPalette(colorName: string, scheme: Option<ThemeColor.ColorScheme>,
                              colors: ThemeColor.Palette)
    requires colorName in CardColorNames && ThemeColor.IsColorName(colors, colorName)
    ensures ThemeColor.UseThemeColor(ThemeColor.ThemeProps(Some(colorName), Some(colorName)),
                                     colorName, scheme, colors)
            == ThemeColor.TableFor(colors, ThemeColor.ThemeInUse(scheme))[colorName]
  {
  }
}
