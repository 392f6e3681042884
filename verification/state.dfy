/** The savings ledger `SavyState`: available cash, total saved, the movement
    history (newest first) and the savings goals. Amounts are integers; the
    forms only ever produce non-negative whole numbers. */
module Savy {

  datatype TipoMovimiento = Ingreso | Gasto | Ahorro

  /** One ledger movement. `fechaISO` is kept as the text the ledger stores. */
  datatype Movimiento = Movimiento(
    id: string,
    tipo: TipoMovimiento,
    monto: int,
    categoria: string,
    fechaISO: string)

  /** One savings goal: a target `meta` and the amount `acumulado` saved so far. */
  datatype MetaAhorro = MetaAhorro(
    id: string,
    categoria: string,
    nombre: string,
    meta: int,
    acumulado: int,
    fechaISO: string)

  datatype SavyState = SavyState(
    dineroDisponible: int,
    ahorroTotal: int,
    movimientos: seq<Movimiento>,
    ahorros: seq<MetaAhorro>)

  /** The canonical empty ledger. */
  const DefaultState := SavyState(0, 0, [], [])

  /** Sum of `acumulado` over a list of goals. */
  function SumAcumulado(goals: seq<MetaAhorro>): int {
    if goals == [] then 0 else goals[0].acumulado + SumAcumulado(goals[1..])
  }

  /** Appending a goal adds its `acumulado` to the sum. */
  lemma {:induction false} SumAcumuladoAppend(goals: seq<MetaAhorro>, g: MetaAhorro)
    ensures SumAcumulado(goals + [g]) == SumAcumulado(goals) + g.acumulado
  {
    if goals != [] {
      assert (goals + [g])[1..] == goals[1..] + [g];
      SumAcumuladoAppend(goals[1..], g);
    }
  }

  /** Replacing one goal changes the sum by the difference of the two `acumulado`s. */
  lemma {:induction false} SumAcumuladoUpdate(goals: seq<MetaAhorro>, k: nat, g: MetaAhorro)
    requires k < |goals|
    ensures SumAcumulado(goals[k := g]) == SumAcumulado(goals) - goals[k].acumulado + g.acumulado
  {
    if k > 0 {
      assert goals[k := g][1..] == goals[1..][k - 1 := g];
      SumAcumuladoUpdate(goals[1..], k - 1, g);
    }
  }

  /** No two goals share an id. */
  predicate DistinctIds(goals: seq<MetaAhorro>) {
    forall i, j :: 0 <= i < j < |goals| ==> goals[i].id != goals[j].id
  }

  /** The ledger's bookkeeping invariant: the total saved is the sum of what the
      goals hold, and goals are identified by their ids. */
  predicate Consistent(s: SavyState) {
    && s.ahorroTotal == SumAcumulado(s.ahorros)
    && DistinctIds(s.ahorros)
  }

  /** No stored amount is negative and every movement moved a positive amount. */
  predicate NonNegative(s: SavyState) {
    && s.dineroDisponible >= 0
    && (forall i :: 0 <= i < |s.ahorros| ==> s.ahorros[i].acumulado >= 0)
    && (forall i :: 0 <= i < |s.movimientos| ==> s.movimientos[i].monto > 0)
  }

  /** The empty ledger satisfies both invariants. */
  lemma DefaultStateIsValid()
    ensures Consistent(DefaultState) && NonNegative(DefaultState)
  {
  }
}
