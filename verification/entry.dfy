/** What the Income and the Expense pages share: the movement they record, the
    list of movements kept under its own key `"movements"` (separate from the
    ledger, whose available cash they never touch), the submit gate, the
    optional note, and the amount tiers that pick the page's tip. */
module MovementEntry {
  import opened Wrappers
  import opened Text

  /** The key the pages keep their movement list under. */
  const MovementsKey := "movements"

  datatype EntryType = IncomeType | ExpenseType

  datatype Movement = Movement(
    id: string,
    kind: EntryType,
    amount: int,
    category: string,
    note: Option<string>,
    dateISO: string)

  /** What `JSON.parse` makes of the text under `"movements"`. */
  datatype ParsedList = NotJson | JsonArray(items: seq<Movement>) | JsonOther

  /** The value under `"movements"`: nothing (or the empty string), or some text. */
  datatype MovementsStore = NoList | ListText(parsed: ParsedList)

  /** The list `saveMovement` starts from: `raw ? JSON.parse(raw) : []`. */
  function StoredList(st: MovementsStore): seq<Movement> {
    match st
    case NoList => []
    case ListText(JsonArray(items)) => items
    case ListText(_) => []
  }

  /** The stores `saveMovement` can extend: nothing stored, or a JSON array. On
      any other text `JSON.parse` or `list.unshift` throws. */
  predicate Extensible(st: MovementsStore) {
    st.NoList? || st.parsed.JsonArray?
  }

  datatype SaveResult = Saved(store: MovementsStore) | Threw

  /** `saveMovement`: the new movement goes to the front of the stored list and
      the older ones follow in their order; a store holding something other
      than a JSON array makes it throw and writes nothing. */
  function SaveMovement(m: Movement, st: MovementsStore): (r: SaveResult)
    ensures r.Saved? <==> Extensible(st)
    ensures r.Saved? ==>
      && Extensible(r.store)
      && |StoredList(r.store)| == |StoredList(st)| + 1
      && StoredList(r.store)[0] == m
      && StoredList(r.store)[1..] == StoredList(st)
  {
    if Extensible(st) then Saved(ListText(JsonArray([m] + StoredList(st))))
    else Threw
  }

  /** Two saves put the newer movement first and keep the older list behind both. */
  lemma SaveMovementTwice(m1: Movement, m2: Movement, st: MovementsStore)
    requires Extensible(st)
    ensures var r1 := SaveMovement(m1, st);
      r1.Saved? && SaveMovement(m2, r1.store).Saved? &&
      StoredList(SaveMovement(m2, r1.store).store) == [m2, m1] + StoredList(st)
  {
  }

  /** `canSubmit`: `Number(amountDigits) > 0`, which holds exactly when some
      digit is not `0`. */
  function CanSubmit(amountDigits: string): (b: bool)
    requires IsDigits(amountDigits)
    ensures b <==> exists i :: 0 <= i < |amountDigits| && amountDigits[i] != '0'
  {
    ParseDigits(amountDigits) > 0
  }

  /** `note.trim() ? note.trim() : undefined`. */
  function NoteOf(text: string): (r: Option<string>)
    ensures r.None? <==> forall i :: 0 <= i < |text| ==> IsSpace(text[i])
    ensures r.Some? ==> r.value == Trim(text) && !IsSpace(r.value[0]) && !IsSpace(r.value[|r.value| - 1])
  {
    var t := Trim(text);
    if t == [] then None else Some(t)
  }

  datatype SubmitResult =
    | NotSubmitted                                         // the gate is closed: nothing happens
    | Submitted(movement: Movement, store: MovementsStore)  // saved, and the page closes
    | Failed                                               // `saveMovement` threw: nothing written

  /** `handleSubmit` of the Income and the Expense pages, with the fresh id and
      the current time as parameters. */
  function Submit(kind: EntryType, amountDigits: string, category: string, noteText: string,
                  id: string, now: string, st: MovementsStore): (r: SubmitResult)
    requires IsDigits(amountDigits)
    ensures r.NotSubmitted? <==> !CanSubmit(amountDigits)
    ensures r.Failed? <==> CanSubmit(amountDigits) && !Extensible(st)
    ensures r.Submitted? ==>
      && r.movement.kind == kind
      && r.movement.amount == ParseDigits(amountDigits) && r.movement.amount > 0
      && r.movement.category == category
      && r.movement.note == NoteOf(noteText)
      && r.movement.id == id && r.movement.dateISO == now
      && StoredList(r.store) == [r.movement] + StoredList(st)
  {
    if !CanSubmit(amountDigits) then NotSubmitted
    else
      var m := Movement(id, kind, ParseDigits(amountDigits), category, NoteOf(noteText), now);
      match SaveMovement(m, st)
      case Saved(st') => Submitted(m, st')
      case Threw => Failed
  }

  // ---------------------------------------------------------------------------
  // Tips
  // ---------------------------------------------------------------------------

  /** The four amount tiers the tip is chosen by. */
  datatype Tier = NoAmount | Small | Medium | Large

  function Rank(t: Tier): nat {
    match t
    case NoAmount => 0
    case Small => 1
    case Medium => 2
    case Large => 3
  }

  /** The tier of an amount: 0, below 10000, below 50000, or more. Exactly one
      applies. */
  function TierOf(a: nat): (t: Tier)
    ensures t == NoAmount <==> a == 0
    ensures t == Small <==> 0 < a < 10000
    ensures t == Medium <==> 10000 <= a < 50000
    ensures t == Large <==> 50000 <= a
  {
    if a == 0 then NoAmount
    else if a < 10000 then Small
    else if a < 50000 then Medium
    else Large
  }

  /** A larger amount never gets a lower tier. */
  lemma TierMonotone(a: nat, b: nat)
    requires a <= b
    ensures Rank(TierOf(a)) <= Rank(TierOf(b))
  {
  }
}
