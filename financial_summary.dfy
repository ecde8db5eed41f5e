/**
 * `getFinancialSummary` of the movements service: income and expense totals,
 * the balance, and `resumenMensual`, a dictionary from month to the income and
 * expense of that month, built by a `reduce` whose reducer mutates its
 * accumulator.
 */
module FinancialSummary {
  import opened Wrappers
  import opened Dates
  import opened Movements

  /** A key of `resumenMensual`: the month number, or `NaN` when the date is invalid. */
  datatype MonthKey = MonthIndex(month: Month) | NaNMonth

  datatype MonthTotals = MonthTotals(ingresos: int, gastos: int)

  datatype Summary = Summary(ingresos: int, gastos: int, balance: int, resumenMensual: map<MonthKey, MonthTotals>)

  /** The month key the reducer computes for one movement. */
  function KeyOf(cal: Calendar, m: Movement): MonthKey {
    match MonthOf(cal, SummaryDate(cal, m.date))
    case Some(mo) => MonthIndex(mo)
    case None => NaNMonth
  }

  /** The amounts of type `t` of the movements keyed `k`, summed in order. */
  function MonthSum(cal: Calendar, ms: seq<Movement>, k: MonthKey, t: MovementType): int {
    if ms == [] then 0
    else MonthSum(cal, ms[..|ms| - 1], k, t) + (if KeyOf(cal, ms[|ms| - 1]) == k then Contribution(ms[|ms| - 1], t) else 0)
  }

  /** The keys of the movements, whatever their type. */
  function MonthKeys(cal: Calendar, ms: seq<Movement>): set<MonthKey> {
    if ms == [] then {} else MonthKeys(cal, ms[..|ms| - 1]) + {KeyOf(cal, ms[|ms| - 1])}
  }

  /** The entry the reducer leaves for key `k`. */
  function EntryFor(cal: Calendar, ms: seq<Movement>, k: MonthKey): MonthTotals {
    MonthTotals(MonthSum(cal, ms, k, Income), MonthSum(cal, ms, k, Expense))
  }

  /** Every key a dictionary built by the reducer can have. */
  function AllMonthKeys(): (keys: seq<MonthKey>)
    ensures forall k :: k in keys
    ensures forall i, j :: 0 <= i < j < |keys| ==> keys[i] != keys[j]
  {
    var keys := [MonthIndex(0), MonthIndex(1), MonthIndex(2), MonthIndex(3), MonthIndex(4), MonthIndex(5),
                 MonthIndex(6), MonthIndex(7), MonthIndex(8), MonthIndex(9), MonthIndex(10), MonthIndex(11), NaNMonth];
    assert forall k :: k in keys by {
      forall k ensures k in keys {
        if k.MonthIndex? {
          assert keys[k.month] == k;
        } else {
          assert keys[12] == k;
        }
      }
    }
    keys
  }

  /** The income (or expense) part of an entry. */
  function Part(e: MonthTotals, t: MovementType): int {
    if t == Income then e.ingresos else e.gastos
  }

  /** The income (or expense) of the entries under `keys`, absent ones counting 0. */
  function EntryTotal(acc: map<MonthKey, MonthTotals>, keys: seq<MonthKey>, t: MovementType): int {
    if keys == [] then 0
    else EntryTotal(acc, keys[..|keys| - 1], t) + (if keys[|keys| - 1] in acc then Part(acc[keys[|keys| - 1]], t) else 0)
  }

  /** `resumenMensual`: one entry per month that holds any movement, pending
      payments included, each with that month's income and expense totals. */
  method ResumenMensual(cal: Calendar, ms: seq<Movement>) returns (acc: map<MonthKey, MonthTotals>)
    ensures acc.Keys == MonthKeys(cal, ms)
    ensures forall k :: k in acc ==> acc[k] == EntryFor(cal, ms, k)
  {
    acc := map[];
    var i := 0;
    while i < |ms|
      invariant 0 <= i <= |ms|
      invariant acc.Keys == MonthKeys(cal, ms[..i])
      invariant forall k :: k in acc ==> acc[k] == EntryFor(cal, ms[..i], k)
    {
      var m := ms[i];
      assert ms[..i + 1][..i] == ms[..i];
      var month := KeyOf(cal, m);
      if month !in acc {
        NoMovementsNoSum(cal, ms[..i], month, Income);
        NoMovementsNoSum(cal, ms[..i], month, Expense);
      }
      var entry := if month in acc then acc[month] else MonthTotals(0, 0);
      if m.kind == Income {
        entry := entry.(ingresos := entry.ingresos + m.amount);
      } else if m.kind == Expense {
        entry := entry.(gastos := entry.gastos + m.amount);
      }
      acc := acc[month := entry];
      i := i + 1;
    }
    assert ms[..i] == ms;
  }

  /** A key no movement has sums to nothing. */
  lemma {:induction false} NoMovementsNoSum(cal: Calendar, ms: seq<Movement>, k: MonthKey, t: MovementType)
    requires k !in MonthKeys(cal, ms)
    ensures MonthSum(cal, ms, k, t) == 0
  {
    if ms != [] {
      NoMovementsNoSum(cal, ms[..|ms| - 1], k, t);
    }
  }

  /** The month sums over a list of distinct keys. */
  function SumOverKeys(cal: Calendar, ms: seq<Movement>, keys: seq<MonthKey>, t: MovementType): int {
    if keys == [] then 0
    else SumOverKeys(cal, ms, keys[..|keys| - 1], t) + MonthSum(cal, ms, keys[|keys| - 1], t)
  }

  /** Appending one movement adds its contribution to exactly the one key it falls under. */
  lemma {:induction false} SumOverKeysStep(cal: Calendar, ms: seq<Movement>, m: Movement, keys: seq<MonthKey>, t: MovementType)
    requires forall i, j :: 0 <= i < j < |keys| ==> keys[i] != keys[j]
    ensures SumOverKeys(cal, ms + [m], keys, t)
         == SumOverKeys(cal, ms, keys, t) + (if KeyOf(cal, m) in keys then Contribution(m, t) else 0)
  {
    if keys != [] {
      var init := keys[..|keys| - 1];
      SumOverKeysStep(cal, ms, m, init, t);
      assert (ms + [m])[..|ms + [m]| - 1] == ms;
      assert KeyOf(cal, m) in keys <==> KeyOf(cal, m) in init || KeyOf(cal, m) == keys[|keys| - 1] by {
        assert keys == init + [keys[|keys| - 1]];
      }
      assert KeyOf(cal, m) == keys[|keys| - 1] ==> KeyOf(cal, m) !in init;
    }
  }

  /** Summed over all month keys, the month sums give the overall total of the type. */
  lemma {:induction false} MonthSumsAddUp(cal: Calendar, ms: seq<Movement>, t: MovementType)
    ensures SumOverKeys(cal, ms, AllMonthKeys(), t) == SumOfType(ms, t)
  {
    if ms == [] {
      ZeroOverKeys(cal, AllMonthKeys(), t);
    } else {
      var init := ms[..|ms| - 1];
      MonthSumsAddUp(cal, init, t);
      assert init + [ms[|ms| - 1]] == ms;
      SumOverKeysStep(cal, init, ms[|ms| - 1], AllMonthKeys(), t);
    }
  }

  lemma {:induction false} ZeroOverKeys(cal: Calendar, keys: seq<MonthKey>, t: MovementType)
    ensures SumOverKeys(cal, [], keys, t) == 0
  {
    if keys != [] {
      ZeroOverKeys(cal, keys[..|keys| - 1], t);
    }
  }

  /** A dictionary holding the reducer's entries sums, over any keys, to the month sums. */
  lemma {:induction false} EntryTotalIsSumOverKeys(cal: Calendar, ms: seq<Movement>, acc: map<MonthKey, MonthTotals>,
                                                   keys: seq<MonthKey>, t: MovementType)
    requires t != PagoPendiente
    requires acc.Keys == MonthKeys(cal, ms)
    requires forall k :: k in acc ==> acc[k] == EntryFor(cal, ms, k)
    ensures EntryTotal(acc, keys, t) == SumOverKeys(cal, ms, keys, t)
  {
    if keys != [] {
      EntryTotalIsSumOverKeys(cal, ms, acc, keys[..|keys| - 1], t);
      var k := keys[|keys| - 1];
      if k !in acc {
        NoMovementsNoSum(cal, ms, k, t);
      }
    }
  }

  /** `getFinancialSummary` over one emission of the movements list. */
  method GetFinancialSummary(cal: Calendar, ms: seq<Movement>) returns (s: Summary)
    ensures s.ingresos == SumOfType(ms, Income) && s.gastos == SumOfType(ms, Expense)
    ensures s.balance == s.ingresos - s.gastos
    ensures s.resumenMensual.Keys == MonthKeys(cal, ms)
    ensures forall k :: k in s.resumenMensual ==> s.resumenMensual[k] == EntryFor(cal, ms, k)
    ensures EntryTotal(s.resumenMensual, AllMonthKeys(), Income) == s.ingresos
    ensures EntryTotal(s.resumenMensual, AllMonthKeys(), Expense) == s.gastos
    ensures ms == [] ==> s == Summary(0, 0, 0, map[])
  {
    var ingresos := SumOfType(ms, Income);
    var gastos := SumOfType(ms, Expense);
    var balance := ingresos - gastos;
    var resumen := ResumenMensual(cal, ms);
    MonthSumsAddUp(cal, ms, Income);
    MonthSumsAddUp(cal, ms, Expense);
    EntryTotalIsSumOverKeys(cal, ms, resumen, AllMonthKeys(), Income);
    EntryTotalIsSumOverKeys(cal, ms, resumen, AllMonthKeys(), Expense);
    s := Summary(ingresos, gastos, balance, resumen);
  }

  /** Every month that holds a movement has a key, so a month holding only pending
      payments gets the entry `{ingresos: 0, gastos: 0}`. */
  lemma {:induction false} PendingOnlyMonthIsZero(cal: Calendar, ms: seq<Movement>, k: MonthKey)
    requires exists i :: 0 <= i < |ms| && KeyOf(cal, ms[i]) == k
    requires forall i :: 0 <= i < |ms| && KeyOf(cal, ms[i]) == k ==> ms[i].kind == PagoPendiente
    ensures k in MonthKeys(cal, ms)
    ensures EntryFor(cal, ms, k) == MonthTotals(0, 0)
  {
    var n := |ms| - 1;
    var init := ms[..n];
    if KeyOf(cal, ms[n]) == k {
      if forall i :: 0 <= i < n ==> KeyOf(cal, init[i]) != k {
        NoKeyNoSum(cal, init, k);
      } else {
        PendingOnlyMonthIsZero(cal, init, k);
      }
    } else {
      PendingOnlyMonthIsZero(cal, init, k);
    }
  }

  lemma {:induction false} NoKeyNoSum(cal: Calendar, ms: seq<Movement>, k: MonthKey)
    requires forall i :: 0 <= i < |ms| ==> KeyOf(cal, ms[i]) != k
    ensures EntryFor(cal, ms, k) == MonthTotals(0, 0)
  {
    if ms != [] {
      NoKeyNoSum(cal, ms[..|ms| - 1], k);
    }
  }
}
