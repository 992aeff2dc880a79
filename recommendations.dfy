/** The figures the AI-analysis panel puts into its prompt, computed from the weekly
    data it is given: how many weeks closed with a negative net balance, the income and
    expense totals, the weekly burn rate, the window of the last five weeks used for the
    income trend, and the last eight weeks listed one line each. The currency
    formatting, the trend's percentage and the request itself are not part of this model. */
module Recommendations {
  import Slices

  datatype RealWeek = RealWeek(week: string, ingresos: int, egresos: int, saldoNeto: int)

  /** The amounts `reduce` is applied to. */
  datatype Amount = IngresosAmount | EgresosAmount | SaldoNetoAmount

  function AmountOf(w: RealWeek, a: Amount): int
  {
    match a
    case IngresosAmount => w.ingresos
    case EgresosAmount => w.egresos
    case SaldoNetoAmount => w.saldoNeto
  }

  /** `realData.filter(w => w.saldoNeto < 0).length` */
  function WeeksNegative(data: seq<RealWeek>): (r: nat)
    ensures r <= |data|
    ensures r == 0 <==> forall j :: 0 <= j < |data| ==> data[j].saldoNeto >= 0
    ensures r == |data| <==> forall j :: 0 <= j < |data| ==> data[j].saldoNeto < 0
  {
    if data == [] then 0
    else
      var rest := WeeksNegative(data[1..]);
      assert forall j :: 1 <= j < |data| ==> data[j] == data[1..][j - 1];
      (if data[0].saldoNeto < 0 then 1 else 0) + rest
  }

  /** The count of negative weeks adds up over consecutive stretches of weeks. */
  lemma {:induction false} WeeksNegativeAppend(a: seq<RealWeek>, b: seq<RealWeek>)
    ensures WeeksNegative(a + b) == WeeksNegative(a) + WeeksNegative(b)
  {
    if a == [] {
      assert a + b == b;
    } else {
      assert (a + b)[0] == a[0] && (a + b)[1..] == a[1..] + b;
      WeeksNegativeAppend(a[1..], b);
    }
  }

  /** `realData.reduce((sum, w) => sum + w[amount], 0)`, folded from the left. */
  function Total(data: seq<RealWeek>, a: Amount): (r: int)
    ensures (forall j :: 0 <= j < |data| ==> AmountOf(data[j], a) >= 0) ==> r >= 0
    ensures (forall j :: 0 <= j < |data| ==> AmountOf(data[j], a) == 0) ==> r == 0
  {
    if data == [] then 0 else Total(data[..|data| - 1], a) + AmountOf(data[|data| - 1], a)
  }

  lemma {:induction false} TotalAppend(x: seq<RealWeek>, y: seq<RealWeek>, a: Amount)
    ensures Total(x + y, a) == Total(x, a) + Total(y, a)
  {
    if y == [] {
      assert x + y == x;
    } else {
      assert (x + y)[..|x + y| - 1] == x + y[..|y| - 1];
      assert (x + y)[|x + y| - 1] == y[|y| - 1];
      TotalAppend(x, y[..|y| - 1], a);
    }
  }

  /** A consistency property of the weekly data rather than of the prompt code, which
      never sums `saldoNeto` nor ties it to the other two fields: when every week's net
      balance is its income minus its expense, the period's income total minus its
      expense total is the sum of the net balances. */
  lemma {:induction false} TotalsBalance(data: seq<RealWeek>)
    requires forall j :: 0 <= j < |data| ==> data[j].saldoNeto == data[j].ingresos - data[j].egresos
    ensures Total(data, IngresosAmount) - Total(data, EgresosAmount) == Total(data, SaldoNetoAmount)
  {
    if data != [] {
      TotalsBalance(data[..|data| - 1]);
    }
  }

  /** `avgEgresos - avgIngresos`: positive exactly when the average week spends more than
      it takes in. */
  function BurnRate(avgIngresos: int, avgEgresos: int): (r: int)
    ensures r > 0 <==> avgEgresos > avgIngresos
    ensures avgIngresos + r == avgEgresos
  {
    avgEgresos - avgIngresos
  }

  /** `realData.slice(-5)` */
  function LastFiveWeeks(data: seq<RealWeek>): (r: seq<RealWeek>)
    ensures |r| == if |data| < 5 then |data| else 5
    ensures data == data[..|data| - |r|] + r
  {
    Slices.Last(data, 5)
  }

  /** `realData.slice(-8)`, the weeks listed in the prompt. */
  function PromptWeeks(data: seq<RealWeek>): (r: seq<RealWeek>)
    ensures |r| == if |data| < 8 then |data| else 8
    ensures data == data[..|data| - |r|] + r
  {
    Slices.Last(data, 8)
  }

  /** The income trend: 0 without weeks; otherwise it compares the last week's income with
      that of the first week of the five-week window (the percentage itself is a
      floating-point division and is not modelled). */
  datatype Trend = NoTrend | Change(first: int, last: int)

  function TrendIngresos(data: seq<RealWeek>): (t: Trend)
    ensures t == NoTrend <==> data == []
    ensures t.Change? ==> t.last == data[|data| - 1].ingresos
    ensures t.Change? ==> t.first == data[if |data| < 5 then 0 else |data| - 5].ingresos
  {
    var window := LastFiveWeeks(data);
    if |window| > 0 then Change(window[0].ingresos, window[|window| - 1].ingresos) else NoTrend
  }

  /** The numbers the prompt is written from. */
  datatype PromptData = PromptData(
    totalWeeks: nat,
    weeksNegative: nat,
    lastSaldo: int,
    avgIngresos: int,
    avgEgresos: int,
    burnRate: int,
    totalIngresos: int,
    totalEgresos: int,
    trend: Trend,
    weekly: seq<RealWeek>)

  function PreparePrompt(data: seq<RealWeek>, avgIngresos: int, avgEgresos: int, lastSaldo: int): (p: PromptData)
    ensures p.weeksNegative <= p.totalWeeks == |data|
    ensures |p.weekly| == if |data| < 8 then |data| else 8
    ensures data == data[..|data| - |p.weekly|] + p.weekly
    ensures p.weeksNegative == WeeksNegative(data)
    ensures p.totalIngresos == Total(data, IngresosAmount) && p.totalEgresos == Total(data, EgresosAmount)
    ensures p.burnRate == BurnRate(avgIngresos, avgEgresos)
    ensures p.avgIngresos == avgIngresos && p.avgEgresos == avgEgresos && p.lastSaldo == lastSaldo
    ensures p.trend == TrendIngresos(data)
  {
    var negative := WeeksNegative(data);
    var weekly := PromptWeeks(data);
    PromptData(|data|, negative, lastSaldo, avgIngresos, avgEgresos,
               BurnRate(avgIngresos, avgEgresos),
               Total(data, IngresosAmount), Total(data, EgresosAmount),
               TrendIngresos(data), weekly)
  }

  /** The five-week trend window is the tail of the eight weeks listed in the prompt. */
  lemma TrendWindowInPrompt(data: seq<RealWeek>)
    ensures LastFiveWeeks(data) == Slices.Last(PromptWeeks(data), 5)
  {
    Slices.LastOfLast(data, 5, 8);
  }
}
