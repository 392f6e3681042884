/** The Expense page: its categories, tip and submit. Its amount field is
    filtered by `Text.KeepDigits`. */
module ExpensePage {
  import opened Text
  import opened MovementEntry

  const Categories: seq<string> :=
    ["Comida", "Transporte", "Entretenimiento", "Estudio", "Salud", "Ropa", "Suscripción", "Otro"]

  /** The tip text for the amount typed so far. */
  function Message(t: Tier): string {
    match t
    case NoAmount => "Tip: piensa si lo necesitas antes de gastar."
    case Small => "Bien por registrarlo. Los pequeños suman."
    case Medium => "Ojo con los gastos repetidos. Pon un límite."
    case Large => "Gasto alto: mejor con presupuesto y plan."
  }

  /** `motivational`: the tip of the tier the amount falls in. */
  function Tip(amountDigits: string): (msg: string)
    requires IsDigits(amountDigits)
    ensures msg == "Tip: piensa si lo necesitas antes de gastar." <==> ParseDigits(amountDigits) == 0
    ensures msg == "Bien por registrarlo. Los pequeños suman." <==> 0 < ParseDigits(amountDigits) < 10000
    ensures msg == "Ojo con los gastos repetidos. Pon un límite." <==> 10000 <= ParseDigits(amountDigits) < 50000
    ensures msg == "Gasto alto: mejor con presupuesto y plan." <==> 50000 <= ParseDigits(amountDigits)
  {
    Message(TierOf(ParseDigits(amountDigits)))
  }

  /** `handleSubmit`: a positive amount is recorded as an `expense` movement at
      the front of the movement list; otherwise nothing happens. */
  function Submit(amountDigits: string, category: string, noteText: string,
                  id: string, now: string, st: MovementsStore): (r: SubmitResult)
    requires IsDigits(amountDigits)
    requires category in Categories
    ensures r.NotSubmitted? <==> ParseDigits(amountDigits) == 0
    ensures r.Submitted? ==>
      && r.movement.kind == ExpenseType
      && r.movement.amount == ParseDigits(amountDigits)
      && r.movement.category in Categories
      && StoredList(r.store) == [r.movement] + StoredList(st)
  {
    MovementEntry.Submit(ExpenseType, amountDigits, category, noteText, id, now, st)
  }
}
