/** The figures the dashboard computes from the week list it receives: the week filter
    of the selector, the three KPI sums over the filtered weeks, and the forecast from
    the mean of the last four weeks.

    A numeric field may be missing from a week (`None`). The KPI sums read a missing
    field as 0; the forecast's mean does not, so a missing field there, like an empty
    window, makes the mean `NaN`, which is also `None` here. */
module Dashboard {
  import opened Wrappers
  import Slices
  import Sheets

  datatype DashWeek = DashWeek(semana: string, ingresos: Option<int>, egresos: Option<int>, saldo: Option<int>)

  /** The numeric fields `sum` and `avg` are called with. */
  datatype Key = IngresosKey | EgresosKey | SaldoKey

  /** The selector value that shows every week. */
  const AllWeeks := "ALL"

  /** The number of weeks the forecast averages over. */
  const ForecastWindow := 4

  function Get(w: DashWeek, key: Key): Option<int>
  {
    match key
    case IngresosKey => w.ingresos
    case EgresosKey => w.egresos
    case SaldoKey => w.saldo
  }

  /** `w[key] || 0` for a whole number: a missing field counts as 0. */
  function OrZero(v: Option<int>): int
  {
    if v.Some? then v.value else 0
  }

  /** The weeks whose label equals `selected`, in their original order. */
  function Matching(weeks: seq<DashWeek>, selected: string): (r: seq<DashWeek>)
    ensures |r| <= |weeks|
    ensures forall j :: 0 <= j < |r| ==> r[j].semana == selected
  {
    if weeks == [] then []
    else
      var rest := Matching(weeks[1..], selected);
      if weeks[0].semana == selected then [weeks[0]] + rest else rest
  }

  /** Every week with the selected label is kept as often as it occurs, and no other. */
  lemma {:induction false} MatchingCounts(weeks: seq<DashWeek>, selected: string, x: DashWeek)
    ensures multiset(Matching(weeks, selected))[x] == if x.semana == selected then multiset(weeks)[x] else 0
  {
    if weeks != [] {
      assert weeks == [weeks[0]] + weeks[1..];
      MatchingCounts(weeks[1..], selected, x);
    }
  }

  /** Filtering distributes over concatenation, so the relative order of the kept weeks
      is that of the input. */
  lemma {:induction false} MatchingAppend(a: seq<DashWeek>, b: seq<DashWeek>, selected: string)
    ensures Matching(a + b, selected) == Matching(a, selected) + Matching(b, selected)
  {
    if a == [] {
      assert a + b == b;
    } else {
      assert (a + b)[0] == a[0] && (a + b)[1..] == a[1..] + b;
      MatchingAppend(a[1..], b, selected);
    }
  }

  /** The weeks the KPIs are summed over: all of them for "ALL", otherwise only those
      with the selected label. */
  function FilteredWeeks(weeks: seq<DashWeek>, selected: string): (r: seq<DashWeek>)
    ensures selected == AllWeeks ==> r == weeks
    ensures |r| <= |weeks|
    ensures selected != AllWeeks ==> forall j :: 0 <= j < |r| ==> r[j].semana == selected
  {
    if selected == AllWeeks then weeks else Matching(weeks, selected)
  }

  /** Membership under the week selector's filter: no week is added, and for any
      selection other than "ALL" a week is kept exactly when it has the chosen label. */
  lemma FilteredWeeksSpec(weeks: seq<DashWeek>, selected: string)
    ensures forall x :: x in FilteredWeeks(weeks, selected) ==> x in weeks
    ensures selected != AllWeeks ==>
      forall x :: x in weeks ==> (x in FilteredWeeks(weeks, selected) <==> x.semana == selected)
  {
    if selected != AllWeeks {
      var r := Matching(weeks, selected);
      forall x | x in weeks
        ensures x in r <==> x.semana == selected
      {
        MatchingCounts(weeks, selected, x);
        assert multiset(weeks)[x] > 0;
      }
      forall x | x in r
        ensures x in weeks
      {
        MatchingCounts(weeks, selected, x);
        assert multiset(r)[x] > 0;
      }
    }
  }

  /** `weeks.reduce((acc, w) => acc + (w[key] || 0), 0)`, folded from the left. */
  function Sum(weeks: seq<DashWeek>, key: Key): (r: int)
    ensures (forall j :: 0 <= j < |weeks| ==> OrZero(Get(weeks[j], key)) >= 0) ==> r >= 0
  {
    if weeks == [] then 0 else Sum(weeks[..|weeks| - 1], key) + OrZero(Get(weeks[|weeks| - 1], key))
  }

  lemma {:induction false} SumAppend(a: seq<DashWeek>, b: seq<DashWeek>, key: Key)
    ensures Sum(a + b, key) == Sum(a, key) + Sum(b, key)
  {
    if b == [] {
      assert a + b == a;
    } else {
      assert (a + b)[..|a + b| - 1] == a + b[..|b| - 1];
      assert (a + b)[|a + b| - 1] == b[|b| - 1];
      SumAppend(a, b[..|b| - 1], key);
    }
  }

  /** The sum adds the weeks one by one, from the first, with missing fields as 0. */
  lemma {:induction false} SumCons(w: DashWeek, rest: seq<DashWeek>, key: Key)
    ensures Sum([w] + rest, key) == OrZero(Get(w, key)) + Sum(rest, key)
  {
    SumAppend([w], rest, key);
  }

  /** With no negative amounts, the total over the selected weeks is between 0 and the
      total over all weeks. */
  lemma {:induction false} SumMatchingBounded(weeks: seq<DashWeek>, selected: string, key: Key)
    ensures (forall j :: 0 <= j < |weeks| ==> OrZero(Get(weeks[j], key)) >= 0) ==>
      0 <= Sum(Matching(weeks, selected), key) <= Sum(weeks, key)
  {
    if weeks != [] && forall j :: 0 <= j < |weeks| ==> OrZero(Get(weeks[j], key)) >= 0 {
      assert weeks == [weeks[0]] + weeks[1..];
      SumMatchingBounded(weeks[1..], selected, key);
      SumCons(weeks[0], weeks[1..], key);
      if weeks[0].semana == selected {
        SumCons(weeks[0], Matching(weeks[1..], selected), key);
      }
    }
  }

  datatype Kpis = Kpis(ingresos: int, egresos: int, saldo: int)

  /** The three KPIs: over every week for "ALL", over the selected weeks otherwise. */
  function ComputeKpis(weeks: seq<DashWeek>, selected: string): (k: Kpis)
    ensures selected == AllWeeks ==>
      k == Kpis(Sum(weeks, IngresosKey), Sum(weeks, EgresosKey), Sum(weeks, SaldoKey))
    ensures (forall j :: 0 <= j < |weeks| ==> OrZero(weeks[j].ingresos) >= 0) ==>
      0 <= k.ingresos <= Sum(weeks, IngresosKey)
    ensures (forall j :: 0 <= j < |weeks| ==> OrZero(weeks[j].egresos) >= 0) ==>
      0 <= k.egresos <= Sum(weeks, EgresosKey)
  {
    SumMatchingBounded(weeks, selected, IngresosKey);
    SumMatchingBounded(weeks, selected, EgresosKey);
    var filtered := FilteredWeeks(weeks, selected);
    Kpis(Sum(filtered, IngresosKey), Sum(filtered, EgresosKey), Sum(filtered, SaldoKey))
  }

  /** Selecting a week label that occurs once gives that week's own fields as the KPIs,
      a missing field as 0. */
  lemma KpisOfSelection(weeks: seq<DashWeek>, selected: string, j: nat)
    requires j < |weeks| && selected != AllWeeks && weeks[j].semana == selected
    requires forall k :: 0 <= k < |weeks| && k != j ==> weeks[k].semana != selected
    ensures ComputeKpis(weeks, selected) ==
      Kpis(OrZero(weeks[j].ingresos), OrZero(weeks[j].egresos), OrZero(weeks[j].saldo))
  {
    assert weeks == weeks[..j] + [weeks[j]] + weeks[j + 1..];
    MatchingAppend(weeks[..j] + [weeks[j]], weeks[j + 1..], selected);
    MatchingAppend(weeks[..j], [weeks[j]], selected);
    MatchingNone(weeks[..j], selected);
    MatchingNone(weeks[j + 1..], selected);
    assert Matching([weeks[j]], selected) == [weeks[j]] by {
      assert [weeks[j]][1..] == [];
    }
    assert Matching(weeks, selected) == [weeks[j]];
    var one := [weeks[j]];
    assert one[..0] == [];
    assert Sum(one, IngresosKey) == OrZero(weeks[j].ingresos);
    assert Sum(one, EgresosKey) == OrZero(weeks[j].egresos);
    assert Sum(one, SaldoKey) == OrZero(weeks[j].saldo);
  }

  /** No week carries the label: nothing is kept. */
  lemma {:induction false} MatchingNone(weeks: seq<DashWeek>, selected: string)
    requires forall k :: 0 <= k < |weeks| ==> weeks[k].semana != selected
    ensures Matching(weeks, selected) == []
  {
    if weeks != [] {
      MatchingNone(weeks[1..], selected);
    }
  }

  /** `semanas.slice(-4)`, taken from the unfiltered list. */
  function LastWeeks(weeks: seq<DashWeek>): (r: seq<DashWeek>)
    ensures |r| == if |weeks| < ForecastWindow then |weeks| else ForecastWindow
    ensures weeks == weeks[..|weeks| - |r|] + r
  {
    Slices.Last(weeks, ForecastWindow)
  }

  /** `Math.round(total / count)` for whole numbers: the nearest integer to the mean,
      halves rounded up. */
  function RoundedMean(total: int, count: int): (r: int)
    requires count > 0
    ensures 2 * count * r - count <= 2 * total < 2 * count * r + count
  {
    var d := 2 * count;
    var q := (2 * total + count) / d;
    assert d * q <= 2 * total + count < d * q + d;
    q
  }

  /** The rounded mean of values all between `lo` and `hi` is between them too. */
  lemma RoundedMeanBetween(total: int, count: int, lo: int, hi: int)
    requires count > 0 && count * lo <= total <= count * hi
    ensures lo <= RoundedMean(total, count) <= hi
  {
    var r := RoundedMean(total, count);
    if r > hi {
      MulMono(count, hi + 1, r);
      assert false;
    }
    if r < lo {
      MulMono(count, r, lo - 1);
      assert false;
    }
  }

  lemma MulMono(c: int, x: int, y: int)
    requires c > 0 && x <= y
    ensures c * x <= c * y
  {
  }

  predicate AllPresent(window: seq<DashWeek>, key: Key)
  {
    forall j :: 0 <= j < |window| ==> Get(window[j], key).Some?
  }

  /** `avg(key)`: the rounded mean of the field over the window, or `None` for `NaN`,
      which an empty window (0 / 0) or a missing field produces. */
  function Avg(window: seq<DashWeek>, key: Key): (r: Option<int>)
    ensures r.Some? <==> |window| > 0 && AllPresent(window, key)
  {
    if |window| > 0 && AllPresent(window, key) then Some(RoundedMean(Sum(window, key), |window|)) else None
  }

  /** The sum of values all between `lo` and `hi` lies between `n * lo` and `n * hi`. */
  lemma {:induction false} SumBetween(window: seq<DashWeek>, key: Key, lo: int, hi: int)
    requires forall j :: 0 <= j < |window| ==> lo <= OrZero(Get(window[j], key)) <= hi
    ensures |window| * lo <= Sum(window, key) <= |window| * hi
  {
    if window != [] {
      var n := |window|;
      var init := window[..n - 1];
      var x := OrZero(Get(window[n - 1], key));
      assert forall j :: 0 <= j < |init| ==> init[j] == window[j];
      SumBetween(init, key, lo, hi);
      BoundsStep(n, Sum(init, key), x, lo, hi);
    }
  }

  lemma BoundsStep(n: int, total: int, x: int, lo: int, hi: int)
    requires n >= 1 && (n - 1) * lo <= total <= (n - 1) * hi && lo <= x <= hi
    ensures n * lo <= total + x <= n * hi
  {
    assert n * lo == (n - 1) * lo + lo && n * hi == (n - 1) * hi + hi;
  }

  /** The average lies between the least and the greatest value of the window. */
  lemma AvgBetween(window: seq<DashWeek>, key: Key, lo: int, hi: int)
    requires |window| > 0 && AllPresent(window, key)
    requires forall j :: 0 <= j < |window| ==> lo <= Get(window[j], key).value <= hi
    ensures Avg(window, key).Some? && lo <= Avg(window, key).value <= hi
  {
    SumBetween(window, key, lo, hi);
    RoundedMeanBetween(Sum(window, key), |window|, lo, hi);
  }

  /** A window in which the field has one value averages to that value. */
  lemma AvgConstant(window: seq<DashWeek>, key: Key, c: int)
    requires |window| > 0
    requires forall j :: 0 <= j < |window| ==> Get(window[j], key) == Some(c)
    ensures Avg(window, key) == Some(c)
  {
    AvgBetween(window, key, c, c);
  }

  datatype Forecast = Forecast(ingresos: Option<int>, egresos: Option<int>, saldo: Option<int>)

  /** The forecast: the averages of income and expense over the last four weeks of the
      whole list, and the projected balance as their difference (not the mean of `saldo`). */
  function ComputeForecast(weeks: seq<DashWeek>): (f: Forecast)
    ensures f.ingresos == Avg(LastWeeks(weeks), IngresosKey)
    ensures f.egresos == Avg(LastWeeks(weeks), EgresosKey)
    ensures f.saldo.Some? <==> f.ingresos.Some? && f.egresos.Some?
    ensures f.saldo.Some? ==> f.saldo.value == f.ingresos.value - f.egresos.value
    ensures weeks == [] ==> f == Forecast(None, None, None)
  {
    var ingresos := Avg(LastWeeks(weeks), IngresosKey);
    var egresos := Avg(LastWeeks(weeks), EgresosKey);
    Forecast(ingresos, egresos,
             if ingresos.Some? && egresos.Some? then Some(ingresos.value - egresos.value) else None)
  }

  /** With income and expense present in each of the last min(4, n) weeks, all three
      projections are numbers, income and expense each within the range of its own field
      over those weeks. Weeks before the window play no part. */
  lemma ForecastWithinWindow(weeks: seq<DashWeek>, loIn: int, hiIn: int, loOut: int, hiOut: int)
    requires |weeks| > 0
    requires forall j :: 0 <= j < |LastWeeks(weeks)| ==>
      LastWeeks(weeks)[j].ingresos.Some? && loIn <= LastWeeks(weeks)[j].ingresos.value <= hiIn
    requires forall j :: 0 <= j < |LastWeeks(weeks)| ==>
      LastWeeks(weeks)[j].egresos.Some? && loOut <= LastWeeks(weeks)[j].egresos.value <= hiOut
    ensures var f := ComputeForecast(weeks);
      f.ingresos.Some? && f.egresos.Some? && f.saldo.Some? &&
      loIn <= f.ingresos.value <= hiIn && loOut <= f.egresos.value <= hiOut
  {
    var window := LastWeeks(weeks);
    AvgBetween(window, IngresosKey, loIn, hiIn);
    AvgBetween(window, EgresosKey, loOut, hiOut);
  }

  datatype View = View(kpis: Kpis, forecast: Forecast)

  /** Everything the dashboard computes for one selector value. */
  function Dashboard(weeks: seq<DashWeek>, selected: string): (v: View)
    ensures v.forecast == ComputeForecast(weeks)
  {
    View(ComputeKpis(weeks, selected), ComputeForecast(weeks))
  }

  /** The selector moves the KPIs only: the forecast is the same for every selection. */
  lemma ForecastIgnoresSelection(weeks: seq<DashWeek>, a: string, b: string)
    ensures Dashboard(weeks, a).forecast == Dashboard(weeks, b).forecast
  {
  }

  /** A week record of the sheet reader as the dashboard reads it: it has a `semana` but
      no `ingresos`, `egresos` or `saldo` field. */
  function FromSheet(r: Sheets.WeekRecord): DashWeek
  {
    DashWeek(r.semana, None, None, None)
  }

  lemma {:induction false} SumAllMissing(weeks: seq<DashWeek>, key: Key)
    requires forall j :: 0 <= j < |weeks| ==> Get(weeks[j], key) == None
    ensures Sum(weeks, key) == 0
  {
    if weeks != [] {
      SumAllMissing(weeks[..|weeks| - 1], key);
    }
  }

  /** Fed the sheet reader's records, the dashboard computes zero KPIs for every selection
      and a forecast that is `NaN` throughout: the records carry a month, a week label and
      the detail maps, but no `ingresos`, `egresos` or `saldo`. */
  lemma SheetRecordsGiveNoFigures(records: seq<Sheets.WeekRecord>, selected: string)
    ensures var weeks := seq(|records|, j requires 0 <= j < |records| => FromSheet(records[j]));
      ComputeKpis(weeks, selected) == Kpis(0, 0, 0) && ComputeForecast(weeks) == Forecast(None, None, None)
  {
    var weeks := seq(|records|, j requires 0 <= j < |records| => FromSheet(records[j]));
    var filtered := FilteredWeeks(weeks, selected);
    forall key: Key
      ensures Sum(filtered, key) == 0
    {
      SumAllMissing(weeks, key);
      if selected != AllWeeks {
        SumMatchingBounded(weeks, selected, key);
      }
    }
    var window := LastWeeks(weeks);
    if |window| > 0 {
      var k := |weeks| - |window|;
      assert window[0] == (weeks[..k] + window)[k];
      assert !AllPresent(window, IngresosKey) && !AllPresent(window, EgresosKey);
    }
  }
}
