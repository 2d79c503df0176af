/** The guarded share formula used for macronutrient percentages, both in the
    daily summary and in the per-meal macro bars: a value's share of a total,
    times 100, and 0 whenever the total is not positive. */
module Percent {

  /** Protein, carbohydrate and fat percentages, in that order. */
  datatype MacroSplit = MacroSplit(protein: real, carbs: real, fat: real)

  const NoSplit := MacroSplit(0.0, 0.0, 0.0)

  /** `total > 0 ? (value / total) * 100 : 0` */
  function Share(value: real, total: real): (pct: real)
    ensures !(total > 0.0) ==> pct == 0.0
    ensures total > 0.0 ==> pct * total == value * 100.0
    ensures total > 0.0 && 0.0 <= value <= total ==> 0.0 <= pct <= 100.0
  {
    if total > 0.0 then value / total * 100.0 else 0.0
  }

  /** Three shares of the same total that sum to 100 when the total is the sum
      of the three parts. */
  lemma SharesSumTo100(p: real, c: real, f: real)
    requires p + c + f > 0.0
    ensures Share(p, p + c + f) + Share(c, p + c + f) + Share(f, p + c + f) == 100.0
  {
    var t := p + c + f;
    PartsOfHundred(Share(p, t), Share(c, t), Share(f, t), p, c, f);
  }

  /** Percentages whose products with the total are the parts times 100 add up
      to 100. */
  lemma PartsOfHundred(sp: real, sc: real, sf: real, p: real, c: real, f: real)
    requires p + c + f > 0.0
    requires sp * (p + c + f) == p * 100.0
    requires sc * (p + c + f) == c * 100.0
    requires sf * (p + c + f) == f * 100.0
    ensures sp + sc + sf == 100.0
  {
    var t := p + c + f;
    var a, b, d := sp * t, sc * t, sf * t;
    assert (sp + sc + sf) * t == a + b + d;
    assert a + b + d == t * 100.0;
    assert (sp + sc + sf - 100.0) * t == 0.0;
  }

  /** Each macro's share of their combined mass: all zero when the mass is not
      positive, otherwise proportional to the macros and summing to 100. */
  function Split(protein: real, carbs: real, fat: real): (s: MacroSplit)
    ensures !(protein + carbs + fat > 0.0) ==> s == NoSplit
    ensures protein + carbs + fat > 0.0 ==> s.protein + s.carbs + s.fat == 100.0
    ensures protein + carbs + fat > 0.0 ==>
      && s.protein * (protein + carbs + fat) == protein * 100.0
      && s.carbs * (protein + carbs + fat) == carbs * 100.0
      && s.fat * (protein + carbs + fat) == fat * 100.0
    ensures 0.0 <= protein && 0.0 <= carbs && 0.0 <= fat ==>
      && 0.0 <= s.protein <= 100.0
      && 0.0 <= s.carbs <= 100.0
      && 0.0 <= s.fat <= 100.0
  {
    var total := protein + carbs + fat;
    assert total > 0.0 ==> Share(protein, total) + Share(carbs, total) + Share(fat, total) == 100.0 by {
      if total > 0.0 { SharesSumTo100(protein, carbs, fat); }
    }
    MacroSplit(Share(protein, total), Share(carbs, total), Share(fat, total))
  }
}
