/**
 * The dashboard page: the income/expense/balance figures, the per-category pie
 * chart, the 12-bucket monthly bar chart, the chart colours that follow the
 * theme, and the rows of the exported summary sheet.
 *
 * The monthly series counts every movement that is not an income as spending,
 * pending payments included, whereas the totals (here and in the service
 * summary) leave pending payments out; `SeriesSpendingAddsUp` and
 * `PendingPaymentSkewsSeries` state that difference.
 */
module Dashboard {
  import opened Wrappers
  import opened Dates
  import opened Movements

  function Abs(x: int): (r: int)
    ensures r >= 0 && (r == x || r == -x)
  {
    if x < 0 then -x else x
  }

  /** The sum of a list of numbers. */
  function Sum(s: seq<int>): int {
    if s == [] then 0 else Sum(s[..|s| - 1]) + s[|s| - 1]
  }

  // ---------------------------------------------------------------- categories

  /** The keys of `categoriasMap` in insertion order: each category once, where it first occurs. */
  function FirstSeen(ms: seq<Movement>): seq<string> {
    if ms == [] then []
    else
      var labels := FirstSeen(ms[..|ms| - 1]);
      if ms[|ms| - 1].category in labels then labels else labels + [ms[|ms| - 1].category]
  }

  /** The magnitudes of the movements of category `c`, of every type. */
  function CategoryTotal(ms: seq<Movement>, c: string): int {
    if ms == [] then 0
    else CategoryTotal(ms[..|ms| - 1], c) + (if ms[|ms| - 1].category == c then Abs(ms[|ms| - 1].amount) else 0)
  }

  /** The magnitudes of all movements. */
  function AbsTotal(ms: seq<Movement>): int {
    if ms == [] then 0 else AbsTotal(ms[..|ms| - 1]) + Abs(ms[|ms| - 1].amount)
  }

  /** The first-seen labels are distinct and are exactly the categories present. */
  lemma {:induction false} FirstSeenIsDistinctCategories(ms: seq<Movement>)
    ensures forall i, j :: 0 <= i < j < |FirstSeen(ms)| ==> FirstSeen(ms)[i] != FirstSeen(ms)[j]
    ensures forall c :: c in FirstSeen(ms) <==> exists i :: 0 <= i < |ms| && ms[i].category == c
  {
    if ms != [] {
      var init := ms[..|ms| - 1];
      FirstSeenIsDistinctCategories(init);
      forall c ensures c in FirstSeen(ms) <==> exists i :: 0 <= i < |ms| && ms[i].category == c {
        if c in FirstSeen(ms) && c != ms[|ms| - 1].category {
          var i :| 0 <= i < |init| && init[i].category == c;
          assert ms[i].category == c;
        }
        if exists i :: 0 <= i < |ms| && ms[i].category == c {
          var i :| 0 <= i < |ms| && ms[i].category == c;
          if i < |init| {
            assert init[i].category == c;
          }
        }
      }
    }
  }

  /** A category not yet seen has total zero. */
  lemma {:induction false} UnseenCategoryIsZero(ms: seq<Movement>, c: string)
    requires c !in FirstSeen(ms)
    ensures CategoryTotal(ms, c) == 0
  {
    if ms != [] {
      UnseenCategoryIsZero(ms[..|ms| - 1], c);
    }
  }

  /** The category totals summed over a list of labels. */
  function TotalOverLabels(ms: seq<Movement>, labels: seq<string>): int {
    if labels == [] then 0
    else TotalOverLabels(ms, labels[..|labels| - 1]) + CategoryTotal(ms, labels[|labels| - 1])
  }

  lemma {:induction false} TotalOverLabelsStep(ms: seq<Movement>, m: Movement, labels: seq<string>)
    requires forall i, j :: 0 <= i < j < |labels| ==> labels[i] != labels[j]
    ensures TotalOverLabels(ms + [m], labels)
         == TotalOverLabels(ms, labels) + (if m.category in labels then Abs(m.amount) else 0)
  {
    if labels != [] {
      var init := labels[..|labels| - 1];
      TotalOverLabelsStep(ms, m, init);
      assert (ms + [m])[..|ms + [m]| - 1] == ms;
      assert labels == init + [labels[|labels| - 1]];
    }
  }

  lemma {:induction false} TotalOverLabelsAppend(ms: seq<Movement>, labels: seq<string>, c: string)
    ensures TotalOverLabels(ms, labels + [c]) == TotalOverLabels(ms, labels) + CategoryTotal(ms, c)
  {
    assert (labels + [c])[..|labels + [c]| - 1] == labels;
  }

  /** The pie slices add up to the magnitudes of all movements. */
  lemma {:induction false} PieCoversEveryMovement(ms: seq<Movement>)
    ensures TotalOverLabels(ms, FirstSeen(ms)) == AbsTotal(ms)
  {
    if ms != [] {
      var init := ms[..|ms| - 1];
      var m := ms[|ms| - 1];
      PieCoversEveryMovement(init);
      FirstSeenIsDistinctCategories(init);
      assert init + [m] == ms;
      TotalOverLabelsStep(init, m, FirstSeen(init));
      if m.category !in FirstSeen(init) {
        TotalOverLabelsAppend(ms, FirstSeen(init), m.category);
        UnseenCategoryIsZero(init, m.category);
      }
    }
  }

  lemma {:induction false} SumOfLookups(ms: seq<Movement>, labels: seq<string>, data: seq<int>)
    requires |data| == |labels|
    requires forall i :: 0 <= i < |labels| ==> data[i] == CategoryTotal(ms, labels[i])
    ensures Sum(data) == TotalOverLabels(ms, labels)
  {
    if labels != [] {
      SumOfLookups(ms, labels[..|labels| - 1], data[..|data| - 1]);
    }
  }

  /** The category breakdown of `generarGraficos`: labels are the distinct
      categories in first-seen order, each slice the sum of `Math.abs(amount)` over
      that category's movements of every type, and the slices add up to the
      magnitudes of all movements. */
  method CategoryBreakdown(ms: seq<Movement>) returns (labels: seq<string>, data: seq<int>)
    ensures labels == FirstSeen(ms)
    ensures |data| == |labels|
    ensures forall i :: 0 <= i < |labels| ==> data[i] == CategoryTotal(ms, labels[i])
    ensures Sum(data) == AbsTotal(ms)
  {
    var totals: map<string, int> := map[];
    labels := [];
    var i := 0;
    while i < |ms|
      invariant 0 <= i <= |ms|
      invariant labels == FirstSeen(ms[..i])
      invariant totals.Keys == set c | c in labels
      invariant forall c :: c in totals ==> totals[c] == CategoryTotal(ms[..i], c)
    {
      var m := ms[i];
      assert ms[..i + 1][..i] == ms[..i];
      if m.category !in totals {
        UnseenCategoryIsZero(ms[..i], m.category);
        labels := labels + [m.category];
      }
      totals := totals[m.category := (if m.category in totals then totals[m.category] else 0) + Abs(m.amount)];
      i := i + 1;
    }
    assert ms[..i] == ms;
    data := seq(|labels|, j requires 0 <= j < |labels| => totals[labels[j]]);
    SumOfLookups(ms, labels, data);
    PieCoversEveryMovement(ms);
  }

  /** The fixed pie palette. */
  const Palette: seq<string> :=
    ["#6366F1", "#34D399", "#F87171", "#FBBF24", "#8B5CF6", "#10B981", "#EF4444", "#F59E0B", "#3B82F6", "#EC4899"]

  /** `pieColors.slice(0, n)`: the first `min(10, n)` palette colours. */
  function PieColors(n: nat): (r: seq<string>)
    ensures |r| == (if n < 10 then n else 10)
    ensures forall i :: 0 <= i < |r| ==> r[i] == Palette[i]
  {
    if n < 10 then Palette[..n] else Palette
  }

  // ---------------------------------------------------------------- monthly series

  /** The bucket a movement's `+=` lands in: `None` when the month is NaN (an
      Invalid Date), where the write goes to a stray `NaN` property of the array. */
  function ChartMonth(cal: Calendar, m: Movement): Option<Month> {
    match ChartDate(m.date)
    case Some(d) => MonthOf(cal, d)
    case None => None
  }

  /** No movement makes the dashboard's date dispatch throw. */
  predicate Chartable(ms: seq<Movement>) {
    forall i :: 0 <= i < |ms| ==> ChartDate(ms[i].date).Some?
  }

  datatype BarSeries = BarSeries(ingresosPorMes: seq<int>, gastosPorMes: seq<int>)

  lemma {:induction false} AllZeroSumsToZero(s: seq<int>)
    requires forall i :: 0 <= i < |s| ==> s[i] == 0
    ensures Sum(s) == 0
  {
    if s != [] {
      AllZeroSumsToZero(s[..|s| - 1]);
    }
  }

  /** `Array(12).fill(0)`. */
  function Zeros(): (z: seq<int>)
    ensures |z| == 12 && Sum(z) == 0
  {
    var z := seq(12, _ => 0);
    AllZeroSumsToZero(z);
    z
  }

  /** The series after the movements are added in order: an income adds its signed
      amount to its month's income bucket, any other movement adds `Math.abs(amount)`
      to its month's spending bucket. */
  function Series(cal: Calendar, ms: seq<Movement>): (r: BarSeries)
    ensures |r.ingresosPorMes| == 12 && |r.gastosPorMes| == 12
  {
    if ms == [] then BarSeries(Zeros(), Zeros())
    else SeriesStep(cal, Series(cal, ms[..|ms| - 1]), ms[|ms| - 1])
  }

  /** The `+=` of one movement. */
  function SeriesStep(cal: Calendar, s: BarSeries, m: Movement): (r: BarSeries)
    requires |s.ingresosPorMes| == 12 && |s.gastosPorMes| == 12
    ensures |r.ingresosPorMes| == 12 && |r.gastosPorMes| == 12
  {
    match ChartMonth(cal, m)
    case None => s
    case Some(mo) =>
      if m.kind == Income then s.(ingresosPorMes := s.ingresosPorMes[mo := s.ingresosPorMes[mo] + m.amount])
      else s.(gastosPorMes := s.gastosPorMes[mo := s.gastosPorMes[mo] + Abs(m.amount)])
  }

  /** The monthly series of `generarGraficos`: two arrays of 12 zeros updated with
      `+=` per movement. `ok` is false when the date dispatch throws, which aborts
      the rest of the chart update. */
  method MonthlySeries(cal: Calendar, ms: seq<Movement>) returns (ok: bool, ingresosPorMes: seq<int>, gastosPorMes: seq<int>)
    ensures |ingresosPorMes| == 12 && |gastosPorMes| == 12
    ensures ok <==> Chartable(ms)
    ensures ok ==> BarSeries(ingresosPorMes, gastosPorMes) == Series(cal, ms)
  {
    var inc := new int[12](_ => 0);
    var exp := new int[12](_ => 0);
    assert inc[..] == Zeros() && exp[..] == Zeros();
    var i := 0;
    while i < |ms|
      invariant 0 <= i <= |ms|
      invariant Chartable(ms[..i]) && BarSeries(inc[..], exp[..]) == Series(cal, ms[..i])
    {
      var m := ms[i];
      assert ms[..i + 1][..i] == ms[..i];
      var date := ChartDate(m.date);
      if date.None? {
        return false, inc[..], exp[..];
      }
      AddToBuckets(cal, inc, exp, m, date.value);
      i := i + 1;
    }
    assert ms[..i] == ms;
    ok, ingresosPorMes, gastosPorMes := true, inc[..], exp[..];
  }

  /** The `+=` of one movement whose date the dispatch read as `date`. */
  method AddToBuckets(cal: Calendar, inc: array<int>, exp: array<int>, m: Movement, date: JsDate)
    requires inc.Length == 12 && exp.Length == 12 && inc != exp
    requires ChartDate(m.date) == Some(date)
    modifies inc, exp
    ensures BarSeries(inc[..], exp[..]) == SeriesStep(cal, old(BarSeries(inc[..], exp[..])), m)
  {
    var month := MonthOf(cal, date);
    if month.Some? {
      var mo := month.value;
      if m.kind == Income {
        inc[mo] := inc[mo] + m.amount;
      } else {
        exp[mo] := exp[mo] + Abs(m.amount);
      }
    }
  }

  lemma {:induction false} SumAddAt(s: seq<int>, k: nat, x: int)
    requires k < |s|
    ensures Sum(s[k := s[k] + x]) == Sum(s) + x
  {
    var t := s[k := s[k] + x];
    if k == |s| - 1 {
      assert t[..|t| - 1] == s[..|s| - 1];
    } else {
      SumAddAt(s[..|s| - 1], k, x);
      assert t[..|t| - 1] == s[..|s| - 1][k := s[k] + x];
    }
  }

  /** Every date falls in one of the 12 months (none is Invalid, none throws). */
  predicate AllInMonths(cal: Calendar, ms: seq<Movement>) {
    forall i :: 0 <= i < |ms| ==> ChartMonth(cal, ms[i]).Some?
  }

  /** With every date in a month, the income series adds up to the income total. */
  lemma {:induction false} SeriesIncomeAddsUp(cal: Calendar, ms: seq<Movement>)
    requires AllInMonths(cal, ms)
    ensures Sum(Series(cal, ms).ingresosPorMes) == SumOfType(ms, Income)
  {
    if ms != [] {
      var init := ms[..|ms| - 1];
      var m := ms[|ms| - 1];
      AllInMonthsPrefix(cal, ms);
      SeriesIncomeAddsUp(cal, init);
      var s := Series(cal, init);
      var mo := ChartMonth(cal, m).value;
      if m.kind == Income {
        SumAddAt(s.ingresosPorMes, mo, m.amount);
      }
    }
  }

  /** With every date in a month and no negative amount, the spending series adds
      up to the expense total plus the pending-payment total. */
  lemma {:induction false} SeriesSpendingAddsUp(cal: Calendar, ms: seq<Movement>)
    requires AllInMonths(cal, ms)
    requires forall i :: 0 <= i < |ms| ==> ms[i].amount >= 0
    ensures Sum(Series(cal, ms).gastosPorMes) == SumOfType(ms, Expense) + SumOfType(ms, PagoPendiente)
  {
    if ms != [] {
      var init := ms[..|ms| - 1];
      var m := ms[|ms| - 1];
      AllInMonthsPrefix(cal, ms);
      assert forall i :: 0 <= i < |init| ==> init[i].amount >= 0 by {
        forall i | 0 <= i < |init| ensures init[i].amount >= 0 {
          assert init[i] == ms[i];
        }
      }
      SeriesSpendingAddsUp(cal, init);
      var s := Series(cal, init);
      var mo := ChartMonth(cal, m).value;
      if m.kind != Income {
        SumAddAt(s.gastosPorMes, mo, Abs(m.amount));
      }
    }
  }

  lemma AllInMonthsPrefix(cal: Calendar, ms: seq<Movement>)
    requires ms != [] && AllInMonths(cal, ms)
    ensures AllInMonths(cal, ms[..|ms| - 1]) && ChartMonth(cal, ms[|ms| - 1]).Some?
  {
    var init := ms[..|ms| - 1];
    forall i | 0 <= i < |init| ensures ChartMonth(cal, init[i]).Some? {
      assert init[i] == ms[i];
    }
  }

  /** One pending payment of 25.00 is spending on the chart but no expense in the totals. */
  lemma PendingPaymentSkewsSeries(cal: Calendar, p: Movement)
    requires p.kind == PagoPendiente && p.amount == 2500 && p.date.NativeDate? && p.date.date.Valid?
    ensures SumOfType([p], Expense) == 0
    ensures Sum(Series(cal, [p]).gastosPorMes) == 2500
  {
    assert AllInMonths(cal, [p]);
    SeriesSpendingAddsUp(cal, [p]);
  }

  // ---------------------------------------------------------------- page

  /** The chart text and grid colours for a theme. */
  datatype ChartColors = ChartColors(text: string, grid: string)

  /** `updateChartTheme`'s choice: dark text on light, light text on dark, and a
      fainter grid in dark mode. */
  function ChartTheme(isDark: bool): ChartColors
  {
    if isDark then ChartColors("#F1F5F9", "rgba(148, 163, 184, 0.1)")
    else ChartColors("#374151", "rgba(148, 163, 184, 0.2)")
  }

  /** The two themes differ in both the text and the grid colour. */
  lemma ChartThemesDiffer()
    ensures ChartTheme(true).text != ChartTheme(false).text
    ensures ChartTheme(true).grid != ChartTheme(false).grid
  {
    assert ChartTheme(true).text[1] != ChartTheme(false).text[1];
    assert ChartTheme(true).grid[22] != ChartTheme(false).grid[22];
  }

  const MonthLabels: seq<string> := ["Ene", "Feb", "Mar", "Abr", "May", "Jun", "Jul", "Ago", "Sep", "Oct", "Nov", "Dic"]

  /** A spreadsheet cell. */
  datatype Cell = Label(s: string) | Amount(n: int)

  /** `data[i] || 0`: a missing entry reads as 0. */
  function EntryOrZero(s: seq<int>, i: nat): int {
    if i < |s| then s[i] else 0
  }

  class DashboardPage {
    var ingresos: int
    var gastos: int
    var balance: int
    var pieChartLabels: seq<string>
    var pieChartData: seq<int>
    var pieColors: seq<string>
    var barChartLabels: seq<string>
    var ingresosPorMes: seq<int>
    var gastosPorMes: seq<int>
    var isDarkMode: bool
    /** The colours last applied to the bar chart options; `None` before the first theme update. */
    var chartColors: Option<ChartColors>

    constructor ()
      ensures ingresos == 0 && gastos == 0 && balance == 0
      ensures pieChartLabels == [] && pieChartData == [] && pieColors == []
      ensures barChartLabels == [] && ingresosPorMes == [] && gastosPorMes == []
      ensures !isDarkMode && chartColors == None
    {
      ingresos, gastos, balance := 0, 0, 0;
      pieChartLabels, pieChartData, pieColors := [], [], [];
      barChartLabels, ingresosPorMes, gastosPorMes := [], [], [];
      isDarkMode := false;
      chartColors := None;
    }

    /** `calcularResumen`: the three summary fields; nothing else. */
    method CalcularResumen(ms: seq<Movement>)
      modifies this
      ensures ingresos == SumOfType(ms, Income) && gastos == SumOfType(ms, Expense)
      ensures balance == ingresos - gastos
      ensures pieChartLabels == old(pieChartLabels) && pieChartData == old(pieChartData) && pieColors == old(pieColors)
      ensures barChartLabels == old(barChartLabels) && ingresosPorMes == old(ingresosPorMes) && gastosPorMes == old(gastosPorMes)
      ensures isDarkMode == old(isDarkMode) && chartColors == old(chartColors)
    {
      ingresos := SumOfType(ms, Income);
      gastos := SumOfType(ms, Expense);
      balance := ingresos - gastos;
    }

    /** `updateChartTheme`. */
    method UpdateChartTheme()
      modifies this`chartColors
      ensures chartColors == Some(ChartTheme(isDarkMode))
    {
      chartColors := Some(ChartTheme(isDarkMode));
    }

    /** The theme subscription's callback. */
    method OnDarkModeChange(isDark: bool)
      modifies this`isDarkMode, this`chartColors
      ensures isDarkMode == isDark && chartColors == Some(ChartTheme(isDark))
    {
      isDarkMode := isDark;
      UpdateChartTheme();
    }

    /** The pie part of `generarGraficos`: labels, slices and their colours. */
    method ShowPie(ms: seq<Movement>)
      modifies this`pieChartLabels, this`pieChartData, this`pieColors
      ensures pieChartLabels == FirstSeen(ms)
      ensures |pieChartData| == |pieChartLabels| && Sum(pieChartData) == AbsTotal(ms)
      ensures forall i :: 0 <= i < |pieChartLabels| ==> pieChartData[i] == CategoryTotal(ms, pieChartLabels[i])
      ensures pieColors == PieColors(|pieChartData|)
    {
      var labels, data := CategoryBreakdown(ms);
      pieChartLabels, pieChartData := labels, data;
      pieColors := PieColors(|data|);
    }

    /** `generarGraficos`: the pie fields always; the bar fields and the theme only when
        no date made the dispatch throw. */
    method GenerarGraficos(cal: Calendar, ms: seq<Movement>)
      modifies this`pieChartLabels, this`pieChartData, this`pieColors
      modifies this`barChartLabels, this`ingresosPorMes, this`gastosPorMes, this`chartColors
      ensures pieChartLabels == FirstSeen(ms)
      ensures |pieChartData| == |pieChartLabels| && Sum(pieChartData) == AbsTotal(ms)
      ensures forall i :: 0 <= i < |pieChartLabels| ==> pieChartData[i] == CategoryTotal(ms, pieChartLabels[i])
      ensures pieColors == PieColors(|pieChartData|)
      ensures Chartable(ms) ==> barChartLabels == MonthLabels && BarSeries(ingresosPorMes, gastosPorMes) == Series(cal, ms)
      ensures Chartable(ms) ==> chartColors == Some(ChartTheme(isDarkMode))
      ensures !Chartable(ms) ==> barChartLabels == old(barChartLabels) && ingresosPorMes == old(ingresosPorMes)
                                 && gastosPorMes == old(gastosPorMes) && chartColors == old(chartColors)
    {
      ShowPie(ms);
      var ok, inc, exp := MonthlySeries(cal, ms);
      if ok {
        barChartLabels := MonthLabels;
        ingresosPorMes, gastosPorMes := inc, exp;
        UpdateChartTheme();
      }
    }

    /** The rows `exportarCSV` hands to the sheet writer. */
    function SheetRows(): (rows: seq<seq<Cell>>)
      reads this
      ensures |rows| == 10 + |barChartLabels|
      ensures rows[..3] == [[Label("Resumen Financiero")], [Label("")], [Label("Concepto"), Label("Cantidad")]]
      ensures rows[6..10] == [[Label("")], [Label("Datos Mensuales")], [Label("")], [Label("Mes"), Label("Ingresos"), Label("Gastos")]]
      ensures rows[3] == [Label("Ingresos"), Amount(ingresos)] && rows[4] == [Label("Gastos"), Amount(gastos)]
      ensures rows[5] == [Label("Balance"), Amount(balance)]
      ensures forall i :: 0 <= i < |barChartLabels| ==>
        rows[10 + i] == [Label(barChartLabels[i]), Amount(EntryOrZero(ingresosPorMes, i)), Amount(EntryOrZero(gastosPorMes, i))]
    {
      [[Label("Resumen Financiero")],
       [Label("")],
       [Label("Concepto"), Label("Cantidad")],
       [Label("Ingresos"), Amount(ingresos)],
       [Label("Gastos"), Amount(gastos)],
       [Label("Balance"), Amount(balance)],
       [Label("")],
       [Label("Datos Mensuales")],
       [Label("")],
       [Label("Mes"), Label("Ingresos"), Label("Gastos")]]
      + seq(|barChartLabels|, i requires 0 <= i < |barChartLabels| reads this =>
          [Label(barChartLabels[i]), Amount(EntryOrZero(ingresosPorMes, i)), Amount(EntryOrZero(gastosPorMes, i))])
    }

    /** After a chart update that did not throw, the sheet has the 10 fixed rows and
        one row per month carrying that month's two buckets. */
    lemma SheetAfterCharts(cal: Calendar, ms: seq<Movement>)
      requires barChartLabels == MonthLabels && BarSeries(ingresosPorMes, gastosPorMes) == Series(cal, ms)
      ensures |SheetRows()| == 22
      ensures forall mo: Month :: (SheetRows()[10 + mo] ==
        [Label(MonthLabels[mo]), Amount(Series(cal, ms).ingresosPorMes[mo]), Amount(Series(cal, ms).gastosPorMes[mo])])
    {
    }
  }
}
