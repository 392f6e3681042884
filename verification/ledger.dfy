/** `addAhorro`, the one mutation of the ledger: save `monto` towards a goal.
    It resolves the goal's name, merges into the first goal with the same
    name and category (ignoring case) or appends a new goal, moves `monto`
    from the available cash to the total saved, and records an `Ahorro`
    movement at the head of the history. The clock and the `Date.now()`-based
    ids are parameters. */
module Ledger {
  import opened Wrappers
  import opened Text
  import opened Savy
  import opened Storage

  datatype AddAhorroInput = AddAhorroInput(categoria: string, nombre: string, meta: int, monto: int)

  /** `nombre.trim() || categoria`: the trimmed name, unless it is blank. */
  function ResolveName(nombre: string, categoria: string): (r: string)
    ensures (forall i :: 0 <= i < |nombre| ==> IsSpace(nombre[i])) ==> r == categoria
    ensures (exists i :: 0 <= i < |nombre| && !IsSpace(nombre[i])) ==>
      && r == Trim(nombre)
      && r != []
      && !IsSpace(r[0]) && !IsSpace(r[|r| - 1])
  {
    var t := Trim(nombre);
    if t == [] then categoria else t
  }

  /** The merge rule: a goal is "the same goal" when name and category agree
      ignoring case. */
  predicate Matches(g: MetaAhorro, nombre: string, categoria: string) {
    SameIgnoringCase(g.nombre, nombre) && SameIgnoringCase(g.categoria, categoria)
  }

  /** `goals.find(...)`, as an index: the first goal that matches. */
  function FindMatch(goals: seq<MetaAhorro>, nombre: string, categoria: string): (r: Option<nat>)
    ensures r.None? <==> forall j :: 0 <= j < |goals| ==> !Matches(goals[j], nombre, categoria)
    ensures r.Some? ==>
      && r.value < |goals|
      && Matches(goals[r.value], nombre, categoria)
      && forall j :: 0 <= j < r.value ==> !Matches(goals[j], nombre, categoria)
  {
    if goals == [] then None
    else if Matches(goals[0], nombre, categoria) then Some(0)
    else
      match FindMatch(goals[1..], nombre, categoria)
      case None => None
      case Some(k) => Some(k + 1)
  }

  /** The goal after a contribution: `meta` is replaced unless the new target
      is 0, `acumulado` grows by `monto`, and the date is refreshed. */
  function Bump(g: MetaAhorro, input: AddAhorroInput, now: string): (r: MetaAhorro)
    ensures r.id == g.id && r.nombre == g.nombre && r.categoria == g.categoria
    ensures r.acumulado - g.acumulado == input.monto
    ensures input.meta == 0 ==> r.meta == g.meta
    ensures input.meta != 0 ==> r.meta == input.meta
  {
    g.(meta := if input.meta == 0 then g.meta else input.meta,
       acumulado := g.acumulado + input.monto,
       fechaISO := now)
  }

  /** `goals.map(g => g.id === id ? bump(g) : g)`. */
  function UpdateById(goals: seq<MetaAhorro>, id: string, input: AddAhorroInput, now: string): (r: seq<MetaAhorro>)
    ensures |r| == |goals|
    ensures forall j :: 0 <= j < |goals| ==> r[j].id == goals[j].id
    ensures forall j :: 0 <= j < |goals| && goals[j].id != id ==> r[j] == goals[j]
    ensures forall j :: 0 <= j < |goals| && goals[j].id == id ==> r[j] == Bump(goals[j], input, now)
  {
    if goals == [] then []
    else
      var head := if goals[0].id == id then Bump(goals[0], input, now) else goals[0];
      [head] + UpdateById(goals[1..], id, input, now)
  }

  /** The goal `addAhorro` appends when nothing matches. */
  function NewGoal(id: string, input: AddAhorroInput, nombre: string, now: string): (r: MetaAhorro)
    ensures r.id == id && r.nombre == nombre && r.fechaISO == now
    ensures r.categoria == input.categoria && r.meta == input.meta
    ensures r.acumulado == input.monto
  {
    MetaAhorro(id, input.categoria, nombre, input.meta, input.monto, now)
  }

  /** `nextAhorros`: merge into the first goal matching `nombre` and the
      input's category, or append a new goal. */
  function NextAhorros(goals: seq<MetaAhorro>, input: AddAhorroInput, nombre: string, now: string, goalId: string): (r: seq<MetaAhorro>)
    ensures |goals| <= |r| <= |goals| + 1
    ensures FindMatch(goals, nombre, input.categoria).None? ==>
      && |r| == |goals| + 1
      && r[..|goals|] == goals
      && r[|goals|] == NewGoal(goalId, input, nombre, now)
    ensures FindMatch(goals, nombre, input.categoria).Some? ==>
      var k := FindMatch(goals, nombre, input.categoria).value;
      && |r| == |goals|
      && (forall j :: 0 <= j < |goals| ==> r[j].id == goals[j].id)
      && r[k].acumulado == goals[k].acumulado + input.monto
  {
    match FindMatch(goals, nombre, input.categoria)
    case Some(k) => UpdateById(goals, goals[k].id, input, now)
    case None => goals + [NewGoal(goalId, input, nombre, now)]
  }

  /** The state transition of `addAhorro` on the loaded state `s`. */
  function AddAhorro(s: SavyState, input: AddAhorroInput, now: string, goalId: string, movId: string): (r: SavyState)
    ensures r.dineroDisponible + r.ahorroTotal == s.dineroDisponible + s.ahorroTotal
    ensures r.ahorroTotal - s.ahorroTotal == input.monto
    ensures |r.movimientos| == |s.movimientos| + 1 && r.movimientos[1..] == s.movimientos
    ensures r.movimientos[0].tipo == Ahorro && r.movimientos[0].monto == input.monto
    ensures r.movimientos[0].categoria == ResolveName(input.nombre, input.categoria)
    ensures |s.ahorros| <= |r.ahorros| <= |s.ahorros| + 1
  {
    var nombre := ResolveName(input.nombre, input.categoria);
    SavyState(
      s.dineroDisponible - input.monto,
      s.ahorroTotal + input.monto,
      [Movimiento(movId, Ahorro, input.monto, nombre, now)] + s.movimientos,
      NextAhorros(s.ahorros, input, nombre, now, goalId))
  }

  /** `addAhorro` with its `loadState`/`saveState` bracket: it works on what
      the store holds, and what it returns is what the next load sees. */
  function AddAhorroStored(st: Stored, input: AddAhorroInput, now: string, goalId: string, movId: string): (r: Loaded)
    ensures LoadState(r.store) == Loaded(r.state, r.store)
    ensures r.state.dineroDisponible == LoadState(st).state.dineroDisponible - input.monto
    ensures r.state.ahorroTotal == LoadState(st).state.ahorroTotal + input.monto
    ensures |r.state.movimientos| == |LoadState(st).state.movimientos| + 1
    ensures r.state.movimientos[1..] == LoadState(st).state.movimientos
  {
    var next := AddAhorro(LoadState(st).state, input, now, goalId, movId);
    LoadSaveRoundTrip(next);
    Loaded(next, SaveState(next))
  }

  // ---------------------------------------------------------------------------
  // Goals: merge into an existing goal, or append a new one
  // ---------------------------------------------------------------------------

  /** A goal list without `id` is left alone. */
  lemma UpdateByIdAbsent(goals: seq<MetaAhorro>, id: string, input: AddAhorroInput, now: string)
    requires forall j :: 0 <= j < |goals| ==> goals[j].id != id
    ensures UpdateById(goals, id, input, now) == goals
  {
  }

  /** With distinct ids, mapping over the id of goal `k` changes goal `k` only. */
  lemma UpdateByIdAt(goals: seq<MetaAhorro>, k: nat, input: AddAhorroInput, now: string)
    requires DistinctIds(goals) && k < |goals|
    ensures UpdateById(goals, goals[k].id, input, now) == goals[k := Bump(goals[k], input, now)]
  {
  }

  /** When goal `k` is the first one with the resolved name and the input's
      category (ignoring case), and ids are distinct, `addAhorro` changes that
      goal and no other: its `acumulado` grows by `monto`, its target becomes
      the new one unless that is 0, and the number of goals stays the same. */
  lemma AddAhorroMergesIntoMatch(s: SavyState, input: AddAhorroInput, now: string, goalId: string, movId: string, k: nat)
    requires DistinctIds(s.ahorros)
    requires k < |s.ahorros|
    requires Matches(s.ahorros[k], ResolveName(input.nombre, input.categoria), input.categoria)
    requires forall j :: 0 <= j < k ==> !Matches(s.ahorros[j], ResolveName(input.nombre, input.categoria), input.categoria)
    ensures var r := AddAhorro(s, input, now, goalId, movId);
      && |r.ahorros| == |s.ahorros|
      && r.ahorros[k].id == s.ahorros[k].id
      && r.ahorros[k].nombre == s.ahorros[k].nombre
      && r.ahorros[k].categoria == s.ahorros[k].categoria
      && r.ahorros[k].acumulado == s.ahorros[k].acumulado + input.monto
      && r.ahorros[k].meta == (if input.meta == 0 then s.ahorros[k].meta else input.meta)
      && r.ahorros[k].fechaISO == now
      && forall j :: 0 <= j < |s.ahorros| && j != k ==> r.ahorros[j] == s.ahorros[j]
  {
    var nombre := ResolveName(input.nombre, input.categoria);
    assert FindMatch(s.ahorros, nombre, input.categoria) == Some(k);
    NextAhorrosMerges(s.ahorros, input, nombre, now, goalId, k);
    assert AddAhorro(s, input, now, goalId, movId).ahorros == s.ahorros[k := Bump(s.ahorros[k], input, now)];
  }

  /** The merge branch of `nextAhorros` on the goal list alone. */
  lemma NextAhorrosMerges(goals: seq<MetaAhorro>, input: AddAhorroInput, nombre: string, now: string, goalId: string, k: nat)
    requires DistinctIds(goals) && k < |goals|
    requires FindMatch(goals, nombre, input.categoria) == Some(k)
    ensures NextAhorros(goals, input, nombre, now, goalId) == goals[k := Bump(goals[k], input, now)]
  {
    UpdateByIdAt(goals, k, input, now);
  }

  /** When no goal has the resolved name and the input's category (ignoring
      case), `addAhorro` appends exactly one goal holding `monto`, with the
      input's target and category and the resolved name, and leaves the
      existing goals as they were. */
  lemma AddAhorroAppendsGoal(s: SavyState, input: AddAhorroInput, now: string, goalId: string, movId: string)
    requires forall j :: 0 <= j < |s.ahorros| ==>
      !Matches(s.ahorros[j], ResolveName(input.nombre, input.categoria), input.categoria)
    ensures var r := AddAhorro(s, input, now, goalId, movId);
      && |r.ahorros| == |s.ahorros| + 1
      && r.ahorros[..|s.ahorros|] == s.ahorros
      && r.ahorros[|s.ahorros|].id == goalId
      && r.ahorros[|s.ahorros|].nombre == ResolveName(input.nombre, input.categoria)
      && r.ahorros[|s.ahorros|].categoria == input.categoria
      && r.ahorros[|s.ahorros|].meta == input.meta
      && r.ahorros[|s.ahorros|].acumulado == input.monto
  {
    var r := AddAhorro(s, input, now, goalId, movId);
    assert r.ahorros == s.ahorros + [NewGoal(goalId, input, ResolveName(input.nombre, input.categoria), now)];
  }

  // ---------------------------------------------------------------------------
  // Invariants
  // ---------------------------------------------------------------------------

  /** With distinct ids, merging into goal `k` adds `monto` to the sum of the
      goals and keeps the ids distinct. */
  lemma MergeKeepsConsistent(goals: seq<MetaAhorro>, k: nat, input: AddAhorroInput, now: string)
    requires DistinctIds(goals) && k < |goals|
    ensures var r := UpdateById(goals, goals[k].id, input, now);
      SumAcumulado(r) == SumAcumulado(goals) + input.monto && DistinctIds(r)
  {
    UpdateByIdAt(goals, k, input, now);
    SumAcumuladoUpdate(goals, k, Bump(goals[k], input, now));
  }

  /** With distinct ids and a fresh id for a new goal, the goals after
      `addAhorro` hold `monto` more in total and keep distinct ids. */
  lemma NextAhorrosKeepsConsistent(goals: seq<MetaAhorro>, input: AddAhorroInput, nombre: string, now: string, goalId: string)
    requires DistinctIds(goals)
    requires forall j :: 0 <= j < |goals| ==> goals[j].id != goalId
    ensures var r := NextAhorros(goals, input, nombre, now, goalId);
      SumAcumulado(r) == SumAcumulado(goals) + input.monto && DistinctIds(r)
  {
    match FindMatch(goals, nombre, input.categoria)
    case Some(k) =>
      MergeKeepsConsistent(goals, k, input, now);
    case None =>
      SumAcumuladoAppend(goals, NewGoal(goalId, input, nombre, now));
  }

  /** With distinct goal ids and a fresh id for a new goal, `addAhorro` keeps
      the total saved equal to the sum of the goals and keeps the ids distinct. */
  lemma AddAhorroKeepsConsistent(s: SavyState, input: AddAhorroInput, now: string, goalId: string, movId: string)
    requires Consistent(s)
    requires forall j :: 0 <= j < |s.ahorros| ==> s.ahorros[j].id != goalId
    ensures Consistent(AddAhorro(s, input, now, goalId, movId))
  {
    NextAhorrosKeepsConsistent(s.ahorros, input, ResolveName(input.nombre, input.categoria), now, goalId);
  }

  /** Saving a positive `monto` keeps every `acumulado` non-negative, whether
      or not ids are distinct. */
  lemma {:induction false} UpdateByIdKeepsNonNegative(goals: seq<MetaAhorro>, id: string, input: AddAhorroInput, now: string)
    requires input.monto >= 0
    requires forall j :: 0 <= j < |goals| ==> goals[j].acumulado >= 0
    ensures forall j :: 0 <= j < |goals| ==> UpdateById(goals, id, input, now)[j].acumulado >= 0
  {
    if goals != [] {
      var r := UpdateById(goals, id, input, now);
      var head := if goals[0].id == id then Bump(goals[0], input, now) else goals[0];
      var rest := UpdateById(goals[1..], id, input, now);
      UpdateByIdKeepsNonNegative(goals[1..], id, input, now);
      assert r == [head] + rest;
      assert head.acumulado >= 0;
      forall j | 0 <= j < |r|
        ensures r[j].acumulado >= 0
      {
        if j > 0 {
          assert r[j] == rest[j - 1];
          assert rest[j - 1].acumulado >= 0;
        } else {
          assert r[j] == head;
        }
      }
    }
  }

  /** Under the conditions the saving form checks (a positive amount no larger
      than the available cash), `addAhorro` keeps every stored amount
      non-negative and every movement positive. */
  lemma AddAhorroKeepsNonNegative(s: SavyState, input: AddAhorroInput, now: string, goalId: string, movId: string)
    requires NonNegative(s)
    requires 0 < input.monto <= s.dineroDisponible
    ensures NonNegative(AddAhorro(s, input, now, goalId, movId))
  {
    var nombre := ResolveName(input.nombre, input.categoria);
    var m := Movimiento(movId, Ahorro, input.monto, nombre, now);
    NextAhorrosKeepsNonNegative(s.ahorros, input, nombre, now, goalId);
    NextStateKeepsNonNegative(s, input, m, NextAhorros(s.ahorros, input, nombre, now, goalId));
  }

  /** The state `addAhorro` builds, for any new movement and goal list that
      keep their amounts positive and non-negative. */
  lemma NextStateKeepsNonNegative(s: SavyState, input: AddAhorroInput, m: Movimiento, goals: seq<MetaAhorro>)
    requires NonNegative(s)
    requires 0 < input.monto <= s.dineroDisponible && m.monto == input.monto
    requires forall j :: 0 <= j < |goals| ==> goals[j].acumulado >= 0
    ensures NonNegative(SavyState(s.dineroDisponible - input.monto, s.ahorroTotal + input.monto, [m] + s.movimientos, goals))
  {
    assert forall i :: 1 <= i < |[m] + s.movimientos| ==> ([m] + s.movimientos)[i] == s.movimientos[i - 1];
  }

  /** Saving a positive `monto` keeps every goal's `acumulado` non-negative. */
  lemma NextAhorrosKeepsNonNegative(goals: seq<MetaAhorro>, input: AddAhorroInput, nombre: string, now: string, goalId: string)
    requires input.monto >= 0
    requires forall j :: 0 <= j < |goals| ==> goals[j].acumulado >= 0
    ensures var r := NextAhorros(goals, input, nombre, now, goalId);
      forall j :: 0 <= j < |r| ==> r[j].acumulado >= 0
  {
    match FindMatch(goals, nombre, input.categoria)
    case Some(k) =>
      UpdateByIdKeepsNonNegative(goals, goals[k].id, input, now);
    case None =>
  }

  /** Distinct ids are needed: when two goals share the matched goal's id,
      both grow by `monto` while the total saved grows once, so the total no
      longer equals the sum of the goals. */
  lemma SharedIdBreaksTotal()
    ensures var g := MetaAhorro("ahorro-1", "Viaje", "Viaje", 100, 10, "2024-01-01");
      var s := SavyState(50, 20, [], [g, g]);
      var r := AddAhorro(s, AddAhorroInput("Viaje", "", 0, 5), "2024-01-02", "ahorro-2", "mov-2");
      && s.ahorroTotal == SumAcumulado(s.ahorros)
      && r.ahorroTotal == 25
      && SumAcumulado(r.ahorros) == 30
  {
    var g := MetaAhorro("ahorro-1", "Viaje", "Viaje", 100, 10, "2024-01-01");
    var input := AddAhorroInput("Viaje", "", 0, 5);
    var now := "2024-01-02";
    assert [g, g][1..] == [g];
    assert [g][1..] == [];
    assert SumAcumulado([g]) == 10;
    assert SumAcumulado([g, g]) == 20;
    assert ResolveName("", "Viaje") == "Viaje";
    assert FindMatch([g, g], "Viaje", "Viaje") == Some(0);
    var b := Bump(g, input, now);
    assert UpdateById([g], "ahorro-1", input, now) == [b];
    assert UpdateById([g, g], "ahorro-1", input, now) == [b, b];
    assert [b, b][1..] == [b];
    assert [b][1..] == [];
    assert SumAcumulado([b]) == 15;
    assert SumAcumulado([b, b]) == 30;
  }
}
