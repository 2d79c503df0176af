/** The daily summary: running totals over the diary, progress against the
    calorie goal, and the macronutrient distribution of the day. */
module DailySummary {
  import opened Types
  import opened Percent

  /** The fixed daily calorie goal, in kcal. */
  const DailyGoal: real := 2000.0

  datatype Totals = Totals(calories: real, protein: real, carbs: real, fat: real)

  const NoTotals := Totals(0.0, 0.0, 0.0, 0.0)

  /** The four quantities that are summed. */
  datatype Field = Calories | Protein | Carbs | Fat

  function Get(t: Totals, f: Field): real
  {
    match f
    case Calories => t.calories
    case Protein => t.protein
    case Carbs => t.carbs
    case Fat => t.fat
  }

  function FieldOf(e: DiaryEntry, f: Field): real
  {
    match f
    case Calories => e.info.totalCalories
    case Protein => e.info.macronutrients.proteinG
    case Carbs => e.info.macronutrients.carbohydratesG
    case Fat => e.info.macronutrients.fatG
  }

  /** The `reduce` callback: adds one entry's calories and macros to the accumulator. */
  function AddEntry(acc: Totals, e: DiaryEntry): (r: Totals)
    ensures forall f :: Get(r, f) == Get(acc, f) + FieldOf(e, f)
  {
    Totals(
      acc.calories + e.info.totalCalories,
      acc.protein + e.info.macronutrients.proteinG,
      acc.carbs + e.info.macronutrients.carbohydratesG,
      acc.fat + e.info.macronutrients.fatG)
  }

  /** Left fold of `AddEntry` over the entries, first entry first, as
      `Array.prototype.reduce` does. */
  function Reduce(acc: Totals, entries: seq<DiaryEntry>): (r: Totals)
    ensures entries == [] ==> r == acc
    ensures entries != [] ==>
      r == AddEntry(Reduce(acc, entries[..|entries| - 1]), entries[|entries| - 1])
    decreases |entries|
  {
    if entries == [] then acc
    else
      var rest := entries[1..];
      assert rest != [] ==> entries[..|entries| - 1][1..] == rest[..|rest| - 1];
      Reduce(AddEntry(acc, entries[0]), rest)
  }

  /** Reference definition: the sum of one field over the entries. */
  function SumOf(entries: seq<DiaryEntry>, f: Field): real
  {
    if entries == [] then 0.0 else FieldOf(entries[0], f) + SumOf(entries[1..], f)
  }

  /** Folding from an accumulator adds the field sums to it. */
  lemma {:induction false} ReduceAddsSums(acc: Totals, entries: seq<DiaryEntry>, f: Field)
    ensures Get(Reduce(acc, entries), f) == Get(acc, f) + SumOf(entries, f)
    decreases |entries|
  {
    if entries != [] {
      var next := AddEntry(acc, entries[0]);
      ReduceAddsSums(next, entries[1..], f);
      assert Get(next, f) == Get(acc, f) + FieldOf(entries[0], f) by {
        match f
        case Calories =>
        case Protein =>
        case Carbs =>
        case Fat =>
      }
    }
  }

  /** The day's totals: each one is the sum of its field over all entries, so
      an empty diary gives all zeros. */
  function DailyTotals(entries: seq<DiaryEntry>): (t: Totals)
    ensures t.calories == SumOf(entries, Calories)
    ensures t.protein == SumOf(entries, Protein)
    ensures t.carbs == SumOf(entries, Carbs)
    ensures t.fat == SumOf(entries, Fat)
    ensures entries == [] ==> t == NoTotals
  {
    ReduceAddsSums(NoTotals, entries, Calories);
    ReduceAddsSums(NoTotals, entries, Protein);
    ReduceAddsSums(NoTotals, entries, Carbs);
    ReduceAddsSums(NoTotals, entries, Fat);
    Reduce(NoTotals, entries)
  }

  lemma {:induction false} SumOfAppend(entries: seq<DiaryEntry>, e: DiaryEntry, f: Field)
    ensures SumOf(entries + [e], f) == SumOf(entries, f) + FieldOf(e, f)
    decreases |entries|
  {
    if entries == [] {
      assert entries + [e] == [e];
    } else {
      assert (entries + [e])[1..] == entries[1..] + [e];
      SumOfAppend(entries[1..], e, f);
    }
  }

  /** Appending one entry to the diary adds exactly that entry's values to the
      totals. */
  lemma DailyTotalsAppend(entries: seq<DiaryEntry>, e: DiaryEntry)
    ensures DailyTotals(entries + [e]) == AddEntry(DailyTotals(entries), e)
  {
    SumOfAppend(entries, e, Calories);
    SumOfAppend(entries, e, Protein);
    SumOfAppend(entries, e, Carbs);
    SumOfAppend(entries, e, Fat);
  }

  predicate NonNegative(e: DiaryEntry)
  {
    && 0.0 <= e.info.totalCalories
    && 0.0 <= e.info.macronutrients.proteinG
    && 0.0 <= e.info.macronutrients.carbohydratesG
    && 0.0 <= e.info.macronutrients.fatG
  }

  lemma {:induction false} SumOfNonNegative(entries: seq<DiaryEntry>, f: Field)
    requires forall i :: 0 <= i < |entries| ==> NonNegative(entries[i])
    ensures 0.0 <= SumOf(entries, f)
    decreases |entries|
  {
    if entries != [] {
      assert NonNegative(entries[0]);
      SumOfNonNegative(entries[1..], f);
    }
  }

  /** Entries without negative values give non-negative totals. */
  lemma TotalsNonNegative(entries: seq<DiaryEntry>)
    requires forall i :: 0 <= i < |entries| ==> NonNegative(entries[i])
    ensures var t := DailyTotals(entries);
      0.0 <= t.calories && 0.0 <= t.protein && 0.0 <= t.carbs && 0.0 <= t.fat
  {
    SumOfNonNegative(entries, Calories);
    SumOfNonNegative(entries, Protein);
    SumOfNonNegative(entries, Carbs);
    SumOfNonNegative(entries, Fat);
  }

  /** `Math.min((calories / dailyGoal) * 100, 100)`: the share of the goal
      reached, capped at 100. */
  function Progress(calories: real): (p: real)
    ensures p <= 100.0
    ensures calories <= DailyGoal ==> p == calories / DailyGoal * 100.0
    ensures calories >= DailyGoal ==> p == 100.0
    ensures 0.0 <= calories ==> 0.0 <= p
  {
    var scaled := calories / DailyGoal * 100.0;
    if scaled < 100.0 then scaled else 100.0
  }

  /** More calories never show less progress. */
  lemma ProgressMonotone(c1: real, c2: real)
    requires c1 <= c2
    ensures Progress(c1) <= Progress(c2)
  {
  }

  /** Everything the summary panel displays. */
  datatype Summary = Summary(totals: Totals, progress: real, percentages: MacroSplit)

  /** The summary of a diary. An empty diary gives zero totals, zero progress
      and zero percentages; progress never exceeds 100; the percentages are the
      macros' shares of their combined mass, zero when that mass is zero. */
  function Summarize(entries: seq<DiaryEntry>): (s: Summary)
    ensures s.totals == DailyTotals(entries)
    ensures entries == [] ==> s == Summary(NoTotals, 0.0, NoSplit)
    ensures s.progress <= 100.0
    ensures s.totals.calories <= DailyGoal ==> s.progress == s.totals.calories / DailyGoal * 100.0
    ensures s.totals.calories >= DailyGoal ==> s.progress == 100.0
    ensures var m := s.totals.protein + s.totals.carbs + s.totals.fat;
      && (!(m > 0.0) ==> s.percentages == NoSplit)
      && (m > 0.0 ==> s.percentages.protein + s.percentages.carbs + s.percentages.fat == 100.0)
      && (m > 0.0 ==>
            && s.percentages.protein * m == s.totals.protein * 100.0
            && s.percentages.carbs * m == s.totals.carbs * 100.0
            && s.percentages.fat * m == s.totals.fat * 100.0)
  {
    var t := DailyTotals(entries);
    Summary(t, Progress(t.calories), Split(t.protein, t.carbs, t.fat))
  }

  /** With no negative values in the diary, every macro percentage lies
      between 0 and 100. */
  lemma PercentagesInRange(entries: seq<DiaryEntry>)
    requires forall i :: 0 <= i < |entries| ==> NonNegative(entries[i])
    ensures var p := Summarize(entries).percentages;
      && 0.0 <= p.protein <= 100.0
      && 0.0 <= p.carbs <= 100.0
      && 0.0 <= p.fat <= 100.0
  {
    TotalsNonNegative(entries);
  }
}
