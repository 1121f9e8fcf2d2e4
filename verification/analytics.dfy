/** The three analytics panels of the statistics page. Each reads the expense
    pie list as received and takes its FIRST entry as the dominant category,
    with its share of the list's total as a rounded percentage. The habits
    panel turns the share into a three-tier verdict, the recommendations
    panel into three lines of advice, and the saving panel shows what cutting
    that category by a fixed 20 % would save. */
module Analytics {
  import opened Wrappers
  import opened FinanceModels
  import opened FinanceViews
  import opened JsMath
  import Seqs
  import Sorting

  /** `reduce((sum, item) => sum + item.value, 0)`: nothing for an empty
      list, and with no negative value every entry is a part of it. */
  function Total(data: seq<PieSlice>): (t: int)
    ensures data == [] ==> t == 0
    ensures (forall i :: 0 <= i < |data| ==> data[i].value >= 0) ==>
              forall i :: 0 <= i < |data| ==> 0 <= data[i].value <= t
  {
    var t := Seqs.SumOf(data, SliceValue);
    assert (forall i :: 0 <= i < |data| ==> data[i].value >= 0) ==>
             forall i :: 0 <= i < |data| ==> 0 <= data[i].value <= t by {
      if forall i :: 0 <= i < |data| ==> data[i].value >= 0 {
        forall i | 0 <= i < |data|
          ensures 0 <= data[i].value <= t
        {
          Seqs.SumBoundsTerm(data, SliceValue, i);
        }
      }
    }
    t
  }

  /** `Math.round(first.value / total * 100)`. */
  function TopPercent(data: seq<PieSlice>): (p: Rounded)
    requires |data| > 0
    ensures p.Finite? <==> Total(data) != 0
  {
    RoundQuotient(100 * data[0].value, Total(data))
  }

  /** With non-negative values and something spent, the share is a
      percentage. */
  lemma {:induction false} TopPercentInRange(data: seq<PieSlice>)
    requires |data| > 0 && Total(data) > 0
    requires forall i :: 0 <= i < |data| ==> data[i].value >= 0
    ensures TopPercent(data).Finite? && 0 <= TopPercent(data).v <= 100
  {
    PercentInRange(data[0].value, Total(data));
  }

  /** The first entry is taken as it comes: it need not be the largest, and
      its share is then understated. */
  lemma FirstIsNotTheLargest()
    ensures var data := [PieSlice("a", 100), PieSlice("b", 300)];
      TopPercent(data) == Finite(25) && data[1].value > data[0].value
  {
    var data := [PieSlice("a", 100), PieSlice("b", 300)];
    assert Total(data) == 400;
  }

  /** For the server's expense list, sorted by value, the first entry is the
      largest. */
  lemma ServerFirstIsLargest(rows: seq<Transaction>, user: nat, start: Option<Date>, end: Option<Date>)
    ensures var data := Stats(rows, user, start, end).expensePieData;
      forall i :: 0 < i < |data| ==> data[0].value >= data[i].value
  {
    var data := Stats(rows, user, start, end).expensePieData;
    assert Sorting.SortedDesc(data, SliceValue);
    forall i | 0 < i < |data|
      ensures data[0].value >= data[i].value
    {
      assert SliceValue(data[0]) >= SliceValue(data[i]);
    }
  }

  // ---------------------------------------------------------------------
  // The habits verdict

  datatype Tier = Balanced | Watch | TooLarge {
    function Text(): string {
      match this
      case Balanced => "Финансовые привычки выглядят сбалансированными"
      case Watch => "Есть категория, которая требует внимания"
      case TooLarge => "Слишком большая доля расходов в одной категории"
    }

  }

  /** The verdict: above 50 is too large, above 30 needs watching, anything
      else (NaN included) keeps the balanced default. */
  function TierOf(p: Rounded): (t: Tier)
    ensures p.Finite? ==> (t == TooLarge <==> p.v > 50)
    ensures p.Finite? ==> (t == Watch <==> 30 < p.v <= 50)
    ensures p.Finite? ==> (t == Balanced <==> p.v <= 30)
    ensures p == NaN || p == NegInfinity ==> t == Balanced
    ensures p == PosInfinity ==> t == TooLarge
  {
    if Exceeds(p, 50) then TooLarge
    else if Exceeds(p, 30) then Watch
    else Balanced
  }

  /** The boundaries belong to the lower tier: 50 % is "watch", 30 % is
      "balanced". */
  lemma TierBoundaries()
    ensures TierOf(Finite(50)) == Watch && TierOf(Finite(51)) == TooLarge
    ensures TierOf(Finite(30)) == Balanced && TierOf(Finite(31)) == Watch
  {
  }

  /** The habits panel: a placeholder without data, otherwise the dominant
      category's name, its percentage and the verdict. */
  datatype HabitsPanel = NotEnoughData | Verdict(name: string, percent: Rounded, tier: Tier)

  const NotEnoughDataText: string := "Недостаточно данных для анализа финансовых привычек"

  function Habits(data: Option<seq<PieSlice>>): (h: HabitsPanel)
    ensures h.NotEnoughData? <==> data.None? || |data.value| == 0
    ensures h.Verdict? ==> h.name == data.value[0].name && h.percent == TopPercent(data.value)
    ensures h.Verdict? ==> h.tier == TierOf(h.percent)
  {
    if data.None? || |data.value| == 0 then NotEnoughData
    else
      var p := TopPercent(data.value);
      Verdict(data.value[0].name, p, TierOf(p))
  }

  /** An expense split 150, 120 and 30 roubles gives the first category
      exactly half, which is "watch", not "too large", in the verdict and in
      the advice alike. */
  lemma HalfIsWatch()
    ensures var data := [PieSlice("Еда", 15000), PieSlice("Транспорт", 12000), PieSlice("Кафе", 3000)];
      && Habits(Some(data)).tier == Watch
      && Recommendations(Some(data)) == Advice(Watch, "Еда")
  {
    var data := [PieSlice("Еда", 15000), PieSlice("Транспорт", 12000), PieSlice("Кафе", 3000)];
    assert Total(data) == 30000;
    assert TopPercent(data) == Finite(50);
  }

  // ---------------------------------------------------------------------
  // The recommendations

  /** Whether `text` occurs in `s`. */
  predicate Mentions(s: string, text: string) {
    exists i :: 0 <= i <= |s| - |text| && OccursAt(s, i, text)
  }

  predicate OccursAt(s: string, i: int, text: string)
    requires 0 <= i <= |s| - |text|
  {
    s[i..i + |text|] == text
  }

  lemma MentionsMiddle(a: string, text: string, b: string)
    ensures Mentions(a + text + b, text)
  {
    assert OccursAt(a + text + b, |a|, text);
  }

  const BalancedAdvice: seq<string> := [
    "Ваши расходы распределены достаточно равномерно.",
    "Продолжайте придерживаться текущей финансовой модели.",
    "Вы можете сосредоточиться на накоплениях или инвестициях."]

  const MoreThanHalf: string := "более половины всех трат"

  /** The three lines of advice for a tier: the two upper tiers name the
      dominant category in their first line, the "too large" tier says it
      takes more than half of all spending, and the balanced tier gives the
      fixed advice. */
  function Advice(t: Tier, name: string): (lines: seq<string>)
    ensures |lines| == 3
    ensures t != Balanced ==> Mentions(lines[0], name)
    ensures t == TooLarge ==> Mentions(lines[0], MoreThanHalf)
    ensures t == Balanced <==> lines == BalancedAdvice
  {
    match t
    case TooLarge =>
      var first := "Расходы на категорию «" + name + "» составляют " + MoreThanHalf + ".";
      MentionsMiddle("Расходы на категорию «" + name + "» составляют ", MoreThanHalf, ".");
      MentionsMiddle("Расходы на категорию «", name, "» составляют " + MoreThanHalf + ".");
      assert first == "Расходы на категорию «" + name + ("» составляют " + MoreThanHalf + ".");
      var lines := [first,
                    "Попробуйте установить месячный лимит на эту категорию.",
                    "Рассмотрите альтернативы, которые помогут сократить расходы."];
      assert |lines[2]| != |BalancedAdvice[2]|;
      lines
    case Watch =>
      MentionsMiddle("Категория «", name, "» заметно выделяется среди расходов.");
      var lines := ["Категория «" + name + "» заметно выделяется среди расходов.",
                    "Имеет смысл проанализировать отдельные операции в этой категории.",
                    "Даже небольшое сокращение может дать ощутимый эффект."];
      assert |lines[2]| != |BalancedAdvice[2]|;
      lines
    case Balanced => BalancedAdvice
  }

  /** Different tiers never give the same advice, whatever the category
      names: the lines shown tell which tier the share fell in. */
  lemma AdviceDistinct(s: Tier, t: Tier, a: string, b: string)
    requires s != t
    ensures Advice(s, a) != Advice(t, b)
  {
    var x := Advice(s, a)[2];
    var y := Advice(t, b)[2];
    LastLineLength(s, a);
    LastLineLength(t, b);
    assert |x| != |y|;
  }

  /** The closing line of each tier's advice, which does not depend on the
      name, has a length of its own. */
  lemma LastLineLength(t: Tier, name: string)
    ensures |Advice(t, name)[2]| == match t case TooLarge => 60 case Watch => 53 case Balanced => 57
  {
    match t
    case TooLarge => assert Advice(t, name)[2] == "Рассмотрите альтернативы, которые помогут сократить расходы.";
    case Watch => assert Advice(t, name)[2] == "Даже небольшое сокращение может дать ощутимый эффект.";
    case Balanced => assert Advice(t, name)[2] == BalancedAdvice[2];
  }

  /** The recommendation list: empty (the panel renders nothing) without
      data, otherwise the advice chosen by the panel's own comparisons of the
      percentage. */
  function Recommendations(data: Option<seq<PieSlice>>): (lines: seq<string>)
    ensures data.None? || |data.value| == 0 ==> lines == []
    ensures data.Some? && |data.value| > 0 ==> |lines| == 3
  {
    if data.None? || |data.value| == 0 then []
    else
      var name := data.value[0].name;
      var p := TopPercent(data.value);
      if Exceeds(p, 50) then Advice(TooLarge, name)
      else if Exceeds(p, 30) then Advice(Watch, name)
      else Advice(Balanced, name)
  }

  /** The recommendations follow the verdict: the advice shown is the advice
      of the tier the habits panel gives for the same data, with the dominant
      category's name. */
  lemma RecommendationsFollowVerdict(data: seq<PieSlice>)
    requires |data| > 0
    ensures Recommendations(Some(data)) == Advice(Habits(Some(data)).tier, data[0].name)
  {
  }

  // ---------------------------------------------------------------------
  // The potential saving

  /** The fixed cut the saving panel assumes. */
  const TargetPercent: int := 20

  /** `Math.round(value * (20 / 100))` in roubles, for a value held in
      kopecks: the nearest whole rouble to a fifth of a hundredth of it. */
  function PossibleSaving(kopecks: int): (s: int)
    ensures 2 * 10000 * s <= 2 * TargetPercent * kopecks + 10000 < 2 * 10000 * s + 2 * 10000
  {
    RoundQuotient(TargetPercent * kopecks, 100 * 100).v
  }

  /** For a non-negative expense the saving is non-negative and no more
      roubles than the expense itself. */
  lemma SavingBounded(kopecks: int)
    requires kopecks >= 0
    ensures 0 <= PossibleSaving(kopecks)
    ensures 100 * PossibleSaving(kopecks) <= kopecks
  {
    var s := PossibleSaving(kopecks);
    if s < 0 {
      MulMonotone(20000, s + 1, 0);
      assert false;
    }
    if kopecks < 100 * s {
      assert 2 * 10000 * s <= 40 * kopecks + 10000;
      assert 40 * kopecks + 10000 < 4000 * s + 10000;
      MulMonotone(16000, 1, s);
      assert false;
    }
  }

  /** A larger expense never shows a smaller saving. */
  lemma SavingMonotone(a: int, b: int)
    requires a <= b
    ensures PossibleSaving(a) <= PossibleSaving(b)
  {
    var sa := PossibleSaving(a);
    var sb := PossibleSaving(b);
    if sa > sb {
      MulMonotone(20000, sb + 1, sa);
      assert false;
    }
  }

  /** The saving panel: a placeholder without data, otherwise the dominant
      category, its share, the cut and the saving. */
  datatype SavingPanel = NoSavingData | Estimate(name: string, percent: Rounded, cut: int, saving: int)

  function Saving(data: Option<seq<PieSlice>>): (s: SavingPanel)
    ensures s.NoSavingData? <==> data.None? || |data.value| == 0
    ensures s.Estimate? ==> s.name == data.value[0].name && s.cut == TargetPercent
    ensures s.Estimate? ==> s.saving == PossibleSaving(data.value[0].value)
  {
    if data.None? || |data.value| == 0 then NoSavingData
    else Estimate(data.value[0].name, TopPercent(data.value), TargetPercent, PossibleSaving(data.value[0].value))
  }

  /** The three panels agree on when there is data, and the two that show a
      share show the same one. */
  lemma PanelsAgree(data: Option<seq<PieSlice>>)
    ensures Habits(data).NotEnoughData? <==> Saving(data).NoSavingData?
    ensures Habits(data).NotEnoughData? <==> Recommendations(data) == []
    ensures Habits(data).Verdict? ==> Habits(data).percent == Saving(data).percent
  {
  }
}
