/** The Saving page's side of the ledger: the checks `handleConfirmSaving`
    makes before it calls `addAhorro`, and the dispatch of
    `handleManageAction` to the goal operations. The form fields `monto` and
    `metaAhorro` only ever hold digit strings: they start empty and change
    through the digit filter `Text.KeepDigits`. */
module SavingPage {
  import opened Wrappers
  import opened Text
  import opened Savy
  import opened Storage
  import Ledger

  datatype SavingError =
    | InvalidAmount     // "Ingresa un monto valido para ahorrar."
    | ExceedsAvailable  // "El monto no puede ser mayor que tu dinero disponible."
    | InvalidGoal       // "Ingresa una meta de ahorro valida."

  datatype Confirm = Rejected(error: SavingError) | Accepted(input: Ledger.AddAhorroInput)

  /** The three checks of `handleConfirmSaving`, in source order, against the
      snapshot `view` the page shows. For a number `x`, `!x || x <= 0` is
      `x <= 0`. */
  function CheckSaving(monto: string, meta: string, nombre: string, categoria: string, view: SavyState): (r: Confirm)
    requires IsDigits(monto) && IsDigits(meta)
    ensures r == Rejected(InvalidAmount) <==> ParseDigits(monto) == 0
    ensures r == Rejected(ExceedsAvailable) <==> 0 < ParseDigits(monto) && view.dineroDisponible < ParseDigits(monto)
    ensures r == Rejected(InvalidGoal) <==>
      0 < ParseDigits(monto) <= view.dineroDisponible && ParseDigits(meta) == 0
    ensures r.Accepted? <==> 0 < ParseDigits(monto) <= view.dineroDisponible && 0 < ParseDigits(meta)
    ensures r.Accepted? ==> r.input == Ledger.AddAhorroInput(categoria, nombre, ParseDigits(meta), ParseDigits(monto))
  {
    var montoNumber: int := ParseDigits(monto);
    var metaNumber: int := ParseDigits(meta);
    if montoNumber <= 0 then Rejected(InvalidAmount)
    else if montoNumber > view.dineroDisponible then Rejected(ExceedsAvailable)
    else if metaNumber <= 0 then Rejected(InvalidGoal)
    else Accepted(Ledger.AddAhorroInput(categoria, nombre, metaNumber, montoNumber))
  }

  /** What `handleConfirmSaving` leaves behind: the outcome of the checks, the
      store, and the snapshot the page shows afterwards. */
  datatype SavingResult = SavingResult(outcome: Confirm, store: Stored, view: SavyState)

  /** `handleConfirmSaving`: a rejected save writes nothing and leaves the page's
      snapshot alone; an accepted one runs `addAhorro` on what the store holds
      and the page then shows what a fresh load returns. */
  function ConfirmSaving(monto: string, meta: string, nombre: string, categoria: string, view: SavyState,
                         st: Stored, now: string, goalId: string, movId: string): (r: SavingResult)
    requires IsDigits(monto) && IsDigits(meta)
    ensures r.outcome == CheckSaving(monto, meta, nombre, categoria, view)
    ensures r.outcome.Rejected? ==> r.store == st && r.view == view
    ensures r.outcome.Accepted? ==>
      && r.view == Ledger.AddAhorro(LoadState(st).state, r.outcome.input, now, goalId, movId)
      && LoadState(r.store) == Loaded(r.view, r.store)
  {
    match CheckSaving(monto, meta, nombre, categoria, view)
    case Rejected(e) => SavingResult(Rejected(e), st, view)
    case Accepted(input) =>
      var saved := Ledger.AddAhorroStored(st, input, now, goalId, movId);
      SavingResult(Accepted(input), saved.store, LoadState(saved.store).state)
  }

  /** When the page shows what the store holds, an accepted save keeps the
      ledger's invariants (total saved equals the sum of the goals, distinct
      goal ids, no negative amount, every movement positive) and moves money
      between cash and savings without creating or destroying any. The id of
      a new goal is assumed fresh. */
  lemma ConfirmSavingKeepsInvariants(monto: string, meta: string, nombre: string, categoria: string, view: SavyState,
                                     st: Stored, now: string, goalId: string, movId: string)
    requires IsDigits(monto) && IsDigits(meta)
    requires view == LoadState(st).state
    requires Consistent(view) && NonNegative(view)
    requires forall j :: 0 <= j < |view.ahorros| ==> view.ahorros[j].id != goalId
    ensures var r := ConfirmSaving(monto, meta, nombre, categoria, view, st, now, goalId, movId);
      && Consistent(r.view) && NonNegative(r.view)
      && r.view.dineroDisponible + r.view.ahorroTotal == view.dineroDisponible + view.ahorroTotal
  {
    var c := CheckSaving(monto, meta, nombre, categoria, view);
    if c.Accepted? {
      Ledger.AddAhorroKeepsConsistent(view, c.input, now, goalId, movId);
      Ledger.AddAhorroKeepsNonNegative(view, c.input, now, goalId, movId);
    }
  }

  /** The amount check reads the page's snapshot, not the store `addAhorro`
      reloads: when another tab has spent cash and its `storage` event has not
      reached the page yet, a save the page accepts drives the stored
      available cash below zero. (Same-tab saves refresh the snapshot at once.) */
  lemma StaleViewCanOverdraw()
    ensures var view := SavyState(9, 0, [], []);
      var st := SaveState(SavyState(3, 0, [], []));
      var r := ConfirmSaving("5", "7", "", "Viaje", view, st, "2024-01-01", "ahorro-1", "mov-1");
      r.outcome.Accepted? && r.view.dineroDisponible == -2
  {
    assert "5"[..0] == [];
    assert "7"[..0] == [];
    assert ParseDigits("5") == 5;
    assert ParseDigits("7") == 7;
  }

  // ---------------------------------------------------------------------------
  // Managing an existing goal
  // ---------------------------------------------------------------------------

  datatype ManageMode = AddMoney | WithdrawMoney | EditGoal | DeleteGoal

  /** The goal operations `handleManageAction` calls: `agregarDineroAhorro`,
      `retirarDeAhorro`, `actualizarAhorro` and `eliminarAhorro`. Their bodies
      are not part of this model; the page is modelled up to the call. */
  datatype GoalCall =
    | Contribute(ahorroId: string, monto: int)
    | Withdraw(ahorroId: string, monto: int)
    | Update(ahorroId: string, nombre: string, categoria: string, meta: int)
    | Remove(ahorroId: string)

  datatype ManageOutcome = NothingSelected | InvalidMeta | Calls(call: GoalCall)

  /** `handleManageAction` for the selected goal and mode. `amount` is the
      digit field `manageAmount`; `metaNumber` is `Number(manageMeta)`. */
  function ManageAction(selected: Option<MetaAhorro>, mode: Option<ManageMode>, amount: string,
                        name: string, metaNumber: int, category: string): (r: ManageOutcome)
    requires IsDigits(amount)
    ensures r == NothingSelected <==> selected.None? || mode.None?
    ensures r == InvalidMeta <==> selected.Some? && mode == Some(EditGoal) && metaNumber <= 0
    ensures r.Calls? ==> selected.Some? && mode.Some?
    ensures r.Calls? ==> match r.call
      case Contribute(id, m) => mode.value == AddMoney && id == selected.value.id && m == ParseDigits(amount)
      case Withdraw(id, m) => mode.value == WithdrawMoney && id == selected.value.id && m == ParseDigits(amount)
      case Update(id, n, c, m) =>
        mode.value == EditGoal && id == selected.value.id && n == name && c == category && m == metaNumber && m > 0
      case Remove(id) => mode.value == DeleteGoal && id == selected.value.id
  {
    if selected.None? || mode.None? then NothingSelected
    else
      var g := selected.value;
      match mode.value
      case AddMoney => Calls(Contribute(g.id, ParseDigits(amount)))
      case WithdrawMoney => Calls(Withdraw(g.id, ParseDigits(amount)))
      case EditGoal =>
        if metaNumber <= 0 then InvalidMeta
        else Calls(Update(g.id, name, category, metaNumber))
      case DeleteGoal => Calls(Remove(g.id))
  }

  /** `openManagePanel` fills the edit form from the goal, writing its target
      as `String(meta)`; confirming the edit untouched calls
      `actualizarAhorro` with the goal's own name, category and target when
      that target is positive, and is refused when it is 0. */
  lemma EditUntouchedKeepsGoal(g: MetaAhorro)
    requires g.meta >= 0
    ensures var r := ManageAction(Some(g), Some(EditGoal), "", g.nombre, ParseDigits(ShowNat(g.meta)), g.categoria);
      && (g.meta > 0 ==> r == Calls(Update(g.id, g.nombre, g.categoria, g.meta)))
      && (g.meta == 0 ==> r == InvalidMeta)
  {
    ParseShowNat(g.meta);
  }
}
