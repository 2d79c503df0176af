/** The per-meal card: three macro bars sharing one total, and the list of
    key micronutrients, cut to the first six. */
module NutritionCard {
  import opened Types
  import opened Percent
  import Js

  /** At most this many micronutrients are displayed. */
  const MaxMicronutrients: nat := 6

  /** The combined macro mass that every bar is measured against. */
  function TotalMacros(m: Macronutrients): real
  {
    m.proteinG + m.carbohydratesG + m.fatG
  }

  /** The widths of the protein, carbs and fat bars. Each is zero when the
      combined mass is not positive; otherwise they are proportional to the
      macros and sum to 100, and with no negative macro each lies in [0, 100]. */
  function BarPercentages(info: NutritionInfo): (s: MacroSplit)
    ensures var m := info.macronutrients; var total := TotalMacros(m);
      && (!(total > 0.0) ==> s == NoSplit)
      && (total > 0.0 ==> s.protein + s.carbs + s.fat == 100.0)
      && (total > 0.0 ==>
            && s.protein * total == m.proteinG * 100.0
            && s.carbs * total == m.carbohydratesG * 100.0
            && s.fat * total == m.fatG * 100.0)
      && (0.0 <= m.proteinG && 0.0 <= m.carbohydratesG && 0.0 <= m.fatG ==>
            && 0.0 <= s.protein <= 100.0
            && 0.0 <= s.carbs <= 100.0
            && 0.0 <= s.fat <= 100.0)
  {
    var m := info.macronutrients;
    Split(m.proteinG, m.carbohydratesG, m.fatG)
  }

  /** Whether the "Key Micronutrients" section is rendered: exactly when it
      would list something. */
  predicate ShowsMicronutrients(info: NutritionInfo)
    ensures ShowsMicronutrients(info) <==> DisplayedMicronutrients(info) != []
  {
    |info.micronutrients| > 0
  }

  /** `micronutrients.slice(0, 6)`: exactly the first min(6, n) items, in
      their original order. */
  function DisplayedMicronutrients(info: NutritionInfo): (shown: seq<Micronutrient>)
    ensures |shown| == Js.Min(MaxMicronutrients, |info.micronutrients|)
    ensures shown <= info.micronutrients
  {
    Js.Slice(info.micronutrients, 0, MaxMicronutrients)
  }

  /** A list of at most six is displayed whole. */
  lemma ShortListDisplayedWhole(info: NutritionInfo)
    requires |info.micronutrients| <= MaxMicronutrients
    ensures DisplayedMicronutrients(info) == info.micronutrients
  {
  }
}
