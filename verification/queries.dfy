/** The read-only queries over the movement history: `getMonthlyTotals` and
    `getLastMovementDate`. Reading a date (`new Date(fechaISO)` in the
    browser's time zone) is a parameter `cal`, and the reference month is
    passed in instead of being read from the clock. */
module Queries {
  import opened Wrappers
  import opened Savy
  import Ledger

  /** What `new Date(fechaISO)` gives: a valid date, with its time in
      milliseconds and its calendar year and month, or an invalid date. */
  datatype DateInfo = Valid(time: int, year: int, month: int) | InvalidDate

  datatype Totals = Totals(ingresos: int, gastos: int)

  /** The movement is dated in the given month of the given year. An invalid
      date never is: its month and year read as NaN. */
  predicate InMonth(m: Movimiento, cal: string -> DateInfo, year: int, month: int) {
    var d := cal(m.fechaISO);
    d.Valid? && d.year == year && d.month == month
  }

  /** Reference definition: the sum of the amounts of the movements of kind
      `tipo` dated in the given month. */
  function SumOfKind(movs: seq<Movimiento>, cal: string -> DateInfo, year: int, month: int, tipo: TipoMovimiento): int {
    if movs == [] then 0
    else
      (if InMonth(movs[0], cal, year, month) && movs[0].tipo == tipo then movs[0].monto else 0)
      + SumOfKind(movs[1..], cal, year, month, tipo)
  }

  /** The callback of the `reduce` in `getMonthlyTotals`: it adds one
      movement's share of the income and the expense sums. */
  function Step(t: Totals, m: Movimiento, cal: string -> DateInfo, year: int, month: int): (r: Totals)
    ensures r.ingresos == t.ingresos + SumOfKind([m], cal, year, month, Ingreso)
    ensures r.gastos == t.gastos + SumOfKind([m], cal, year, month, Gasto)
  {
    if !InMonth(m, cal, year, month) then t
    else
      var t1 := if m.tipo == Ingreso then t.(ingresos := t.ingresos + m.monto) else t;
      if m.tipo == Gasto then t1.(gastos := t1.gastos + m.monto) else t1
  }

  /** `movs.reduce(Step, t)`, a left fold: it adds to its accumulator exactly
      the income and the expense sums of the movements it visits. */
  function Reduce(t: Totals, movs: seq<Movimiento>, cal: string -> DateInfo, year: int, month: int): (r: Totals)
    ensures r.ingresos == t.ingresos + SumOfKind(movs, cal, year, month, Ingreso)
    ensures r.gastos == t.gastos + SumOfKind(movs, cal, year, month, Gasto)
    decreases movs
  {
    if movs == [] then t
    else Reduce(Step(t, movs[0], cal, year, month), movs[1..], cal, year, month)
  }

  /** `getMonthlyTotals`: `ingresos` is the sum of the `Ingreso` movements and
      `gastos` the sum of the `Gasto` movements dated in the reference month;
      `Ahorro` movements and movements of other months count for neither. */
  function MonthlyTotals(movs: seq<Movimiento>, cal: string -> DateInfo, year: int, month: int): (r: Totals)
    ensures r.ingresos == SumOfKind(movs, cal, year, month, Ingreso)
    ensures r.gastos == SumOfKind(movs, cal, year, month, Gasto)
  {
    Reduce(Totals(0, 0), movs, cal, year, month)
  }

  /** One more movement changes the totals by its own amount, in the column of
      its kind, and only when it is an income or an expense of the reference
      month. */
  lemma MonthlyTotalsPrepend(m: Movimiento, movs: seq<Movimiento>, cal: string -> DateInfo, year: int, month: int)
    ensures var before := MonthlyTotals(movs, cal, year, month);
      var after := MonthlyTotals([m] + movs, cal, year, month);
      && after.ingresos == before.ingresos + (if InMonth(m, cal, year, month) && m.tipo == Ingreso then m.monto else 0)
      && after.gastos == before.gastos + (if InMonth(m, cal, year, month) && m.tipo == Gasto then m.monto else 0)
  {
    assert ([m] + movs)[1..] == movs;
  }

  /** The totals of a concatenation are the sums of the totals of its parts. */
  lemma {:induction false} SumOfKindAppend(a: seq<Movimiento>, b: seq<Movimiento>, cal: string -> DateInfo, year: int, month: int, tipo: TipoMovimiento)
    ensures SumOfKind(a + b, cal, year, month, tipo) == SumOfKind(a, cal, year, month, tipo) + SumOfKind(b, cal, year, month, tipo)
  {
    if a == [] {
      assert a + b == b;
    } else {
      assert (a + b)[1..] == a[1..] + b;
      SumOfKindAppend(a[1..], b, cal, year, month, tipo);
    }
  }

  /** With positive movement amounts, both totals are non-negative. */
  lemma {:induction false} SumOfKindNonNegative(movs: seq<Movimiento>, cal: string -> DateInfo, year: int, month: int, tipo: TipoMovimiento)
    requires forall i :: 0 <= i < |movs| ==> movs[i].monto > 0
    ensures SumOfKind(movs, cal, year, month, tipo) >= 0
  {
    if movs != [] {
      SumOfKindNonNegative(movs[1..], cal, year, month, tipo);
    }
  }

  /** Saving towards a goal never changes the monthly income and expense
      totals: the movement `addAhorro` records is of kind `Ahorro`. */
  lemma AddAhorroKeepsMonthlyTotals(s: SavyState, input: Ledger.AddAhorroInput, now: string, goalId: string, movId: string,
                                    cal: string -> DateInfo, year: int, month: int)
    ensures MonthlyTotals(Ledger.AddAhorro(s, input, now, goalId, movId).movimientos, cal, year, month)
         == MonthlyTotals(s.movimientos, cal, year, month)
  {
    var r := Ledger.AddAhorro(s, input, now, goalId, movId);
    assert r.movimientos == [r.movimientos[0]] + s.movimientos;
    MonthlyTotalsPrepend(r.movimientos[0], s.movimientos, cal, year, month);
  }

  /** A calendar for three dates of 2024 (months counted from 0, as
      `getMonth` does). */
  function ExampleCalendar(iso: string): DateInfo {
    if iso == "2024-01-15" then Valid(1705276800000, 2024, 0)
    else if iso == "2024-01-20" then Valid(1705708800000, 2024, 0)
    else if iso == "2024-02-01" then Valid(1706745600000, 2024, 1)
    else InvalidDate
  }

  /** An income of 100 and an expense of 40 in January and an income of 50 in
      February give January totals of 100 and 40. */
  lemma MonthlyTotalsExample()
    ensures MonthlyTotals(
      [ Movimiento("a", Ingreso, 100, "Salario", "2024-01-15"),
        Movimiento("b", Gasto, 40, "Comida", "2024-01-20"),
        Movimiento("c", Ingreso, 50, "Venta", "2024-02-01") ],
      ExampleCalendar, 2024, 0) == Totals(100, 40)
  {
    var m1 := Movimiento("a", Ingreso, 100, "Salario", "2024-01-15");
    var m2 := Movimiento("b", Gasto, 40, "Comida", "2024-01-20");
    var m3 := Movimiento("c", Ingreso, 50, "Venta", "2024-02-01");
    assert [m1, m2, m3][1..] == [m2, m3];
    assert [m2, m3][1..] == [m3];
    assert [m3][1..] == [];
    assert !InMonth(m3, ExampleCalendar, 2024, 0);
  }

  // ---------------------------------------------------------------------------
  // getLastMovementDate
  // ---------------------------------------------------------------------------

  /** Every movement carries a date that parses. */
  predicate AllDated(movs: seq<Movimiento>, cal: string -> DateInfo) {
    forall i :: 0 <= i < |movs| ==> cal(movs[i].fechaISO).Valid?
  }

  /** Movement `k` is the first, in list order, of the movements with the
      latest time: what a stable sort by descending time puts first. */
  predicate IsFirstLatest(movs: seq<Movimiento>, cal: string -> DateInfo, k: int) {
    && AllDated(movs, cal)
    && 0 <= k < |movs|
    && (forall j :: 0 <= j < |movs| ==> cal(movs[j].fechaISO).time <= cal(movs[k].fechaISO).time)
    && (forall j :: 0 <= j < k ==> cal(movs[j].fechaISO).time < cal(movs[k].fechaISO).time)
  }

  /** There is only one such movement, so the date returned is determined. */
  lemma FirstLatestIsUnique(movs: seq<Movimiento>, cal: string -> DateInfo, k1: int, k2: int)
    requires IsFirstLatest(movs, cal, k1) && IsFirstLatest(movs, cal, k2)
    ensures k1 == k2
  {
    assert cal(movs[k2].fechaISO).time <= cal(movs[k1].fechaISO).time;
    assert cal(movs[k1].fechaISO).time <= cal(movs[k2].fechaISO).time;
  }

  /** `getLastMovementDate`: nothing for an empty history; otherwise the date
      of the first movement with the latest time. */
  method LastMovementDate(movs: seq<Movimiento>, cal: string -> DateInfo) returns (r: Option<string>)
    requires AllDated(movs, cal)
    ensures r.None? <==> movs == []
    ensures r.Some? ==> exists k :: IsFirstLatest(movs, cal, k) && r.value == movs[k].fechaISO
  {
    if |movs| == 0 {
      return None;
    }
    var best := 0;
    var i := 1;
    while i < |movs|
      invariant 1 <= i <= |movs|
      invariant 0 <= best < i
      invariant forall j :: 0 <= j < i ==> cal(movs[j].fechaISO).time <= cal(movs[best].fechaISO).time
      invariant forall j :: 0 <= j < best ==> cal(movs[j].fechaISO).time < cal(movs[best].fechaISO).time
    {
      if cal(movs[i].fechaISO).time > cal(movs[best].fechaISO).time {
        best := i;
      }
      i := i + 1;
    }
    assert IsFirstLatest(movs, cal, best);
    return Some(movs[best].fechaISO);
  }
}
