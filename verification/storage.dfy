/** The persistence adapter of the ledger: `loadState` and `saveState` over one
    key of the browser's key-value store. The store is modelled by what
    `JSON.parse` makes of the text found under the key, so that the
    normalisation `loadState` performs can be stated field by field. */
module Storage {
  import opened Savy

  /** The key the ledger is stored under. */
  const StorageKey := "savy_state"

  /** What `Number(field)` yields for one numeric field of the parsed document:
      a number, or NaN (also for a missing field). */
  datatype NumField = Num(n: int) | NotANumber

  /** One list field of the parsed document: an array, or anything else
      (including a missing field). */
  datatype ListField<T> = Array(items: seq<T>) | NotArray

  /** What `JSON.parse` makes of the stored text. */
  datatype Parsed =
    | Unparsable  // JSON.parse throws
    | JsonNull    // the text `null`: reading a field of it throws
    | NonObject   // a number, string, boolean or array: every field reads as undefined
    | Object(
        dinero: NumField,
        total: NumField,
        movimientos: ListField<Movimiento>,
        ahorros: ListField<MetaAhorro>)

  /** The value under `StorageKey`: nothing (or the empty string), or some text. */
  datatype Stored = Missing | Text(parsed: Parsed)

  /** The result of `loadState`: the state it returns and the store afterwards
      (it writes the default state back when it heals a bad store). */
  datatype Loaded = Loaded(state: SavyState, store: Stored)

  /** `Number(field) || 0`. */
  function NumberOr0(f: NumField): int {
    match f
    case Num(n) => n
    case NotANumber => 0
  }

  /** `Array.isArray(field) ? field : []`. */
  function ListOrEmpty<T>(f: ListField<T>): seq<T> {
    match f
    case Array(items) => items
    case NotArray => []
  }

  /** The stores `loadState` replaces by the default state: nothing stored,
      text that does not parse, and the document `null`. */
  predicate NeedsHealing(st: Stored) {
    st.Missing? || st.parsed.Unparsable? || st.parsed.JsonNull?
  }

  /** `saveState`: the text written is the JSON of the state, so parsing it
      gives back an object with every field present. */
  function SaveState(s: SavyState): (st: Stored)
    ensures st.Text? && st.parsed.Object?
    ensures !NeedsHealing(st)
  {
    Text(Object(Num(s.dineroDisponible), Num(s.ahorroTotal), Array(s.movimientos), Array(s.ahorros)))
  }

  /** `loadState`: a missing, unparsable or `null` store heals to the default
      state, which is written back; any other document is read field by field,
      a field whose `Number(...)` is NaN reading as 0 and a field that is not
      an array reading as the empty list, and the store is left as it was. */
  function LoadState(st: Stored): (r: Loaded)
    ensures NeedsHealing(st) ==> r.state == DefaultState && r.store == SaveState(DefaultState)
    ensures !NeedsHealing(st) ==> r.store == st
    ensures st.Text? && st.parsed.NonObject? ==> r.state == DefaultState
    ensures st.Text? && st.parsed.Object? ==>
      && (st.parsed.dinero.Num? ==> r.state.dineroDisponible == st.parsed.dinero.n)
      && (st.parsed.dinero.NotANumber? ==> r.state.dineroDisponible == DefaultState.dineroDisponible)
      && (st.parsed.total.Num? ==> r.state.ahorroTotal == st.parsed.total.n)
      && (st.parsed.total.NotANumber? ==> r.state.ahorroTotal == DefaultState.ahorroTotal)
      && (st.parsed.movimientos.Array? ==> r.state.movimientos == st.parsed.movimientos.items)
      && (st.parsed.movimientos.NotArray? ==> r.state.movimientos == DefaultState.movimientos)
      && (st.parsed.ahorros.Array? ==> r.state.ahorros == st.parsed.ahorros.items)
      && (st.parsed.ahorros.NotArray? ==> r.state.ahorros == DefaultState.ahorros)
  {
    match st
    case Missing => Loaded(DefaultState, SaveState(DefaultState))
    case Text(Unparsable) => Loaded(DefaultState, SaveState(DefaultState))
    case Text(JsonNull) => Loaded(DefaultState, SaveState(DefaultState))
    case Text(NonObject) => Loaded(SavyState(0, 0, [], []), st)
    case Text(Object(d, t, ms, gs)) =>
      Loaded(SavyState(NumberOr0(d), NumberOr0(t), ListOrEmpty(ms), ListOrEmpty(gs)), st)
  }

  /** What was saved is what is loaded, and loading it writes nothing. */
  lemma LoadSaveRoundTrip(s: SavyState)
    ensures LoadState(SaveState(s)) == Loaded(s, SaveState(s))
  {
  }

  /** Two loads with no save in between return the same state, and the second
      leaves the store as the first left it. */
  lemma LoadStateIdempotent(st: Stored)
    ensures LoadState(LoadState(st).store) == LoadState(st)
  {
  }

  /** Whatever the store held, saving the loaded state and loading again gives
      the same state: every state `loadState` returns is already normalised. */
  lemma LoadedStateIsNormalised(st: Stored)
    ensures LoadState(SaveState(LoadState(st).state)).state == LoadState(st).state
  {
    LoadSaveRoundTrip(LoadState(st).state);
  }
}
