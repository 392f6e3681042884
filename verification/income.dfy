/** The Income page: its categories, tip and submit. Its amount field is
    filtered by `Text.KeepDigits`. */
module IncomePage {
  import opened Text
  import opened MovementEntry

  const Categories: seq<string> := ["Salario", "Venta", "Regalo", "Beca", "Freelance", "Propina", "Otro"]

  /** The tip text for the amount typed so far. */
  function Message(t: Tier): string {
    match t
    case NoAmount => "Tip: registra todo, así sea poquito."
    case Small => "Cada peso cuenta. Buen hábito."
    case Medium => "Bien. Considera guardar una parte."
    case Large => "Excelente. Define una meta de ahorro."
  }

  /** `motivational`: the tip of the tier the amount falls in. */
  function Tip(amountDigits: string): (msg: string)
    requires IsDigits(amountDigits)
    ensures msg == "Tip: registra todo, así sea poquito." <==> ParseDigits(amountDigits) == 0
    ensures msg == "Cada peso cuenta. Buen hábito." <==> 0 < ParseDigits(amountDigits) < 10000
    ensures msg == "Bien. Considera guardar una parte." <==> 10000 <= ParseDigits(amountDigits) < 50000
    ensures msg == "Excelente. Define una meta de ahorro." <==> 50000 <= ParseDigits(amountDigits)
  {
    Message(TierOf(ParseDigits(amountDigits)))
  }

  /** `handleSubmit`: a positive amount is recorded as an `income` movement at
      the front of the movement list; otherwise nothing happens. */
  function Submit(amountDigits: string, category: string, noteText: string,
                  id: string, now: string, st: MovementsStore): (r: SubmitResult)
    requires IsDigits(amountDigits)
    requires category in Categories
    ensures r.NotSubmitted? <==> ParseDigits(amountDigits) == 0
    ensures r.Submitted? ==>
      && r.movement.kind == IncomeType
      && r.movement.amount == ParseDigits(amountDigits)
      && r.movement.category in Categories
      && StoredList(r.store) == [r.movement] + StoredList(st)
  {
    MovementEntry.Submit(IncomeType, amountDigits, category, noteText, id, now, st)
  }
}
