# Savy savings ledger — a Dafny model

Savy is a small budgeting app that runs in the browser. This project models
its core. That core is the savings ledger `SavyState`: available cash
(`dineroDisponible`), total saved (`ahorroTotal`), the movement history
(`movimientos`, newest first) and the savings goals (`ahorros`). The model
also covers the input gates the pages put in front of the ledger.

- `Storage` (`storage.dfy`) models `loadState` and `saveState`. The browser
  store is modelled by what `JSON.parse` makes of the text under
  `savy_state`. `loadState` heals a missing, unparsable or `null` store to
  the empty ledger and writes that ledger back. It reads any other document
  field by field, with defaults.
- `Ledger` (`ledger.dfy`) models `addAhorro` as a pure transition on the
  loaded state, plus its load/save bracket. The transition resolves the goal
  name (trimmed name, or the category when the name is blank). It merges into
  the first goal that matches name and category ignoring case, or appends a
  new goal. It moves `monto` from cash to savings and puts an `Ahorro`
  movement at the head of the history.
- `Queries` (`queries.dfy`) models `getMonthlyTotals` as a left fold, proved
  equal to a filtered sum. It models `getLastMovementDate` as a loop that
  finds the first movement with the latest time.
- `SavingPage` (`saving.dfy`) models the three checks of
  `handleConfirmSaving`, their order, and the `addAhorro` call they guard. It
  also models the dispatch of `handleManageAction`.
- `MovementEntry`, `IncomePage` and `ExpensePage` (`entry.dfy`, `income.dfy`,
  `expense.dfy`) model the Income and Expense pages. This covers the
  digit-only amount field, the `amount > 0` submit gate and the optional
  trimmed note. It also covers the list-prepending `saveMovement` on the
  separate `"movements"` key, and the tip chosen by amount tier.
- `Text` (`text.dfy`) models the string primitives used throughout:
  `replace(/\D/g, '')`, `Number` on digit strings, `String` on non-negative
  integers, `trim` and `toLowerCase`.

A few facts about the code shape the model:

- The Income and Expense pages write to their own `"movements"` key. They
  never read or change `SavyState`, so recording an income or an expense
  does not change the available cash. The code also has no available-funds
  check on expenses.
- `addAhorro` does not validate anything. The Saving page does: the amount
  must be positive and at most the available cash, and the target must be
  positive. That check reads the snapshot the page shows, while `addAhorro`
  reloads the store. `SavingPage.StaleViewCanOverdraw` shows that a stale
  snapshot lets a save drive the stored cash below zero. The page reloads
  its snapshot on every same-tab `saveState`, because the change event is
  dispatched synchronously, and on every cross-tab `storage` event. So the
  snapshot is stale only after another tab's write whose `storage` event
  has not arrived yet.
- `addAhorro` updates every goal whose id equals the matched goal's id. Goal
  ids come from `Date.now()`, so the "only the matched goal changes" and
  "total saved equals the sum of the goals" results assume distinct ids.
  `Ledger.SharedIdBreaksTotal` shows why the assumption is needed.
- Ids, the current time and the reference month are parameters. So is
  reading a date (`new Date(fechaISO)` in the local time zone), written as a
  function `cal` from the stored text to a time, year and month.

## Model

| member | source | states |
|---|---|---|
| Text.KeepDigits | src/pages/saving/Saving.tsx:80-98 | The digit filter of the amount and goal fields (the same filter guards the Income and Expense amount fields) yields a digit string, keeps every decimal digit of the input (same count of each digit), never lengthens it, and leaves a digit string unchanged |
| Text.KeepDigitsIdempotent | src/pages/saving/Saving.tsx:80-98 | Filtering an already filtered field changes nothing |
| Text.KeepDigitsAppend | src/pages/saving/Saving.tsx:80-83 | The filter acts character by character: filtering a concatenation concatenates the filtered parts, so digits keep their order |
| Text.ParseDigits | src/pages/saving/Saving.tsx:130-131 | `Number` of a digit field is 0 exactly when every digit is `0` (including the empty field) |
| Text.ShowNat | src/pages/saving/Saving.tsx:185 | `String(meta)` of a non-negative target is a non-empty digit string with no leading zero |
| Text.ParseShowNat | src/pages/saving/Saving.tsx:185-220 | Reading back `String(n)` with `Number` gives `n` again |
| Text.Trim | src/utils/storage.ts:120 | `trim` returns a slice of the text with only white space cut off either end, and that slice neither starts nor ends with white space, which fixes it; it is empty exactly when the text is all white space |
| Text.TrimIdempotent | src/utils/storage.ts:120 | Trimming a trimmed name changes nothing |
| Text.ToLower | src/utils/storage.ts:123-124 | Lower-casing keeps the length of the text |
| Text.ToLowerChars | src/utils/storage.ts:123-124 | Lower-casing turns each ASCII or Latin-1 capital (U+0041..U+005A, U+00C0..U+00DE except U+00D7) into its lower-case letter 32 code points higher, leaves no ASCII capital, and leaves every other character below U+00C0 as it was |
| Text.SameIgnoringCaseIsEquivalence | src/utils/storage.ts:121-125 | Case-insensitive equality of names and categories is reflexive, symmetric and transitive |
| Text.SameIgnoringCaseExamples | src/utils/storage.ts:121-125 | "Viaje" and "VIAJE" match; "Viaje" and "Viajes" do not |
| Savy.DefaultStateIsValid | src/utils/storage.ts:30-35 | The empty ledger has total saved equal to the sum of its (no) goals and no negative amount |
| Storage.SaveState | src/utils/storage.ts:62-65 | What `saveState` writes parses back as a well-formed document, one `loadState` does not heal |
| Storage.LoadState | src/utils/storage.ts:37-60 | A missing, unparsable or `null` store yields the empty ledger and writes it back; a non-object yields the empty ledger; an object is read field by field, a field whose `Number(...)` is NaN reading as 0 and a non-array as `[]`, and the store is not written |
| Storage.LoadSaveRoundTrip | src/utils/storage.ts:37-65 | Loading what was saved returns the saved state and writes nothing |
| Storage.LoadStateIdempotent | src/utils/storage.ts:37-60 | Two loads with no save between them return the same state and leave the store the same |
| Storage.LoadedStateIsNormalised | src/utils/storage.ts:46-55 | Every loaded state survives a save and a reload unchanged |
| Ledger.ResolveName | src/utils/storage.ts:120 | The goal name is the category when the entered name is all white space, and otherwise the trimmed name, non-empty and without surrounding white space |
| Ledger.FindMatch | src/utils/storage.ts:121-125 | Finds the first goal whose name and category match ignoring case, and reports none exactly when no goal matches |
| Ledger.Bump | src/utils/storage.ts:129-135 | A merged goal keeps its id, name and category, grows by `monto`, and takes the new target unless that target is 0 |
| Ledger.AddAhorro | src/utils/storage.ts:117-169 | Cash plus savings is unchanged and exactly `monto` moves into savings; exactly one movement is prepended, of kind `Ahorro`, for `monto`, labelled with the resolved name, with the old history as its tail; the goal count grows by at most one |
| Ledger.AddAhorroStored | src/utils/storage.ts:117-169 | `addAhorro` with its load/save bracket works on the stored state, and the state it returns is what the next load returns |
| Ledger.UpdateById | src/utils/storage.ts:128-137 | The map keeps the list's length and every goal's id, leaves each goal with another id unchanged, and replaces each goal with this id by its merged form |
| Ledger.NewGoal | src/utils/storage.ts:138-147 | The appended goal has the given id, the resolved name, the input's category and target, `acumulado = monto` and the current date |
| Ledger.NextAhorros | src/utils/storage.ts:121-148 | With no match, the old goals stay as a prefix and exactly the new goal is appended; with a match at `k`, the count and every id are kept and goal `k` grows by `monto` |
| Ledger.NextAhorrosMerges | src/utils/storage.ts:121-137 | With distinct ids and the first match at `k`, the next goal list is the old one with goal `k` replaced by its merged form |
| Ledger.UpdateByIdAbsent | src/utils/storage.ts:128-137 | Mapping over an id no goal has leaves the goals unchanged |
| Ledger.UpdateByIdAt | src/utils/storage.ts:128-137 | With distinct ids, the map over the matched goal's id replaces that goal by its merged form and changes no other goal |
| Ledger.AddAhorroMergesIntoMatch | src/utils/storage.ts:121-137 | When goal `k` is the first match and ids are distinct, the goal count is unchanged, goal `k` grows by `monto` and takes the new target unless it is 0, and every other goal is untouched |
| Ledger.AddAhorroAppendsGoal | src/utils/storage.ts:138-148 | When no goal matches, the old goals are kept as a prefix and exactly one goal is appended, with the given id, resolved name, category, target and `acumulado = monto` |
| Ledger.MergeKeepsConsistent | src/utils/storage.ts:127-137 | With distinct ids, merging into a goal adds `monto` to the goals' sum and keeps ids distinct |
| Ledger.NextAhorrosKeepsConsistent | src/utils/storage.ts:121-148 | With distinct ids and a fresh id for a new goal, the next goal list holds exactly `monto` more in total and keeps ids distinct |
| Ledger.AddAhorroKeepsConsistent | src/utils/storage.ts:127-153 | With distinct ids and a fresh id for a new goal, the total saved stays equal to the sum of the goals and ids stay distinct |
| Ledger.UpdateByIdKeepsNonNegative | src/utils/storage.ts:128-137 | Merging a non-negative `monto` keeps every `acumulado` non-negative, whether or not ids repeat |
| Ledger.NextAhorrosKeepsNonNegative | src/utils/storage.ts:121-148 | Saving a non-negative `monto` keeps every goal's `acumulado` non-negative |
| Ledger.NextStateKeepsNonNegative | src/utils/storage.ts:150-165 | The state `addAhorro` builds, with cash reduced by a `monto` it covers, a positive movement in front and non-negative goals, keeps every amount non-negative and every movement positive |
| Ledger.AddAhorroKeepsNonNegative | src/utils/storage.ts:127-163 | With `0 < monto <= dineroDisponible`, no stored amount becomes negative and every movement stays positive |
| Ledger.SharedIdBreaksTotal | src/utils/storage.ts:127-137 | With two goals sharing an id, one save adds 5 to the total saved but 10 to the goals |
| Queries.Step | src/utils/storage.ts:73-91 | The callback adds to the totals exactly one movement's share of the income sum and of the expense sum |
| Queries.Reduce | src/utils/storage.ts:72-94 | The `reduce` adds to its accumulator exactly the income sum and the expense sum of the movements it visits |
| Queries.MonthlyTotals | src/utils/storage.ts:67-95 | `ingresos` is the sum of the `Ingreso` movements of the reference month and `gastos` the sum of the `Gasto` ones; `Ahorro` movements and other months count for neither |
| Queries.MonthlyTotalsPrepend | src/utils/storage.ts:76-90 | One more movement changes only the column of its own kind, by its own amount, and only when it falls in the reference month |
| Queries.SumOfKindAppend | src/utils/storage.ts:72-94 | The totals of two concatenated histories are the sums of their totals |
| Queries.SumOfKindNonNegative | src/utils/storage.ts:72-94 | With positive movement amounts, both monthly totals are non-negative |
| Queries.AddAhorroKeepsMonthlyTotals | src/utils/storage.ts:154-163 | Saving towards a goal leaves the monthly income and expense totals unchanged |
| Queries.MonthlyTotalsExample | src/utils/storage.ts:67-95 | January income 100, January expense 40 and February income 50 give January totals of 100 and 40 |
| Queries.FirstLatestIsUnique | src/utils/storage.ts:102-107 | Only one movement is the first with the latest time, so the returned date is determined |
| Queries.LastMovementDate | src/utils/storage.ts:97-108 | Returns nothing exactly for an empty history; otherwise the date of a movement whose time is at least every other's and strictly later than every earlier one's |
| SavingPage.CheckSaving | src/pages/saving/Saving.tsx:129-149 | A zero amount is refused first; then an amount above the shown cash; then a zero target; a save is accepted exactly when `0 < amount <= cash` and `target > 0`, and passes the entered category, name, target and amount |
| SavingPage.ConfirmSaving | src/pages/saving/Saving.tsx:129-164 | A refused save writes nothing and leaves the page's snapshot alone; an accepted one runs `addAhorro` on the stored state, and the page then shows what the next load returns |
| SavingPage.ConfirmSavingKeepsInvariants | src/pages/saving/Saving.tsx:139-156 | When the page shows the stored state, an accepted save keeps total saved equal to the goals' sum, ids distinct, cash and goal balances non-negative and movements positive, and conserves cash plus savings |
| SavingPage.StaleViewCanOverdraw | src/pages/saving/Saving.tsx:139-156 | The page shows 9 of cash while the store holds 3, so a save of 5 is accepted and leaves the stored cash at -2 |
| SavingPage.ManageAction | src/pages/saving/Saving.tsx:189-230 | Does nothing without a selected goal and mode; refuses an edit with a target of 0 or less; otherwise makes exactly the call of the selected mode on the selected goal's id, with the amount or the edited fields |
| SavingPage.EditUntouchedKeepsGoal | src/pages/saving/Saving.tsx:177-221 | Opening the edit panel and confirming untouched calls the update with the goal's own name, category and target when the target is positive, and is refused when it is 0 |
| MovementEntry.SaveMovement | src/pages/income/Income.tsx:34-40 | The stored list grows by one, with the new movement first and the old list, in order, behind it; a store holding something other than a JSON array throws and is not written |
| MovementEntry.SaveMovementTwice | src/pages/expense/Expense.tsx:36-42 | Two saves leave the newer movement first, then the older one, then the old list |
| MovementEntry.CanSubmit | src/pages/income/Income.tsx:60 | The submit gate is open exactly when the amount field has a digit other than `0` |
| MovementEntry.NoteOf | src/pages/income/Income.tsx:72 | The note is absent exactly when the text is all white space; otherwise it is the trimmed text |
| MovementEntry.Submit | src/pages/income/Income.tsx:64-78 | Nothing happens when the gate is closed; otherwise either the store cannot be extended and the save throws, or the movement recorded has the page's type, the parsed positive amount, the category, the trimmed note, the id and the time, and heads the stored list |
| MovementEntry.TierOf | src/pages/income/Income.tsx:52-58 | Exactly one tier applies: 0, below 10000, below 50000, or 50000 and above |
| MovementEntry.TierMonotone | src/pages/expense/Expense.tsx:54-60 | A larger amount never falls in a lower tier |
| IncomePage.Tip | src/pages/income/Income.tsx:52-58 | Each of the four income tips is shown exactly for the amounts of its tier |
| IncomePage.Submit | src/pages/income/Income.tsx:60-78 | Nothing is submitted exactly when the amount is 0; a submitted movement is an `income` of the parsed amount in one of the income categories, prepended to the stored list |
| ExpensePage.Tip | src/pages/expense/Expense.tsx:54-60 | Each of the four expense tips is shown exactly for the amounts of its tier |
| ExpensePage.Submit | src/pages/expense/Expense.tsx:62-80 | Nothing is submitted exactly when the amount is 0; a submitted movement is an `expense` of the parsed amount in one of the expense categories, prepended to the stored list |

## Left out

- Browser storage and events: `window.localStorage`, the `CustomEvent` sent by `saveState`, and the listeners the Saving page uses to reload (src/utils/storage.ts:62-65, src/pages/saving/Saving.tsx:66-78). The store is a value that `LoadState`/`SaveState` and `SaveMovement` take and return.
- JSON text: `JSON.parse`/`JSON.stringify` are not modelled on characters. A store is represented by what parsing yields, and list elements are typed. The source does not check the elements of a parsed array either.
- Clock, ids and randomness: `new Date()`, the `Date.now()`-based ids, `crypto.randomUUID` and the randomly chosen motivational message of the Saving page. All of these are parameters or left out. No claim is made that `Date.now()` ids are unique; freshness of a new goal's id is a hypothesis.
- Date parsing and time zones: `new Date(fechaISO)`, `getMonth`, `getFullYear` and `getTime` are the parameter `cal`.
- Queries.LastMovementDate: requires every stored date to parse. With an invalid date the sort comparator returns NaN, and the order the engine then produces is implementation-defined.
- Number precision: amounts are unbounded integers. Float rounding of digit strings beyond 2^53, non-integer numbers in a stored document, and `String` in exponent notation (10^21 and above) are not modelled.
- Text.ToLowerChars: `toLowerCase` is modelled for the ASCII and Latin-1 capitals only. The rest of Unicode's lower-case mapping, including mappings that change length, is not modelled.
- SavingPage.ManageAction: takes `Number(manageMeta)` as a number. The field holds either filtered digits or `String(meta)` of the goal, which may carry a minus sign.
- Formatting and display: `formatCurrencyCOP`, `formatDate`, `toLocaleString`, and the progress percentage and bar width of each goal (src/pages/saving/Saving.tsx:301-321, floating-point division with `Math.round`/`Math.min`).
- Goal operations without source: `agregarDineroAhorro`, `retirarDeAhorro`, `actualizarAhorro` and `eliminarAhorro` are imported by the Saving page, but their bodies are not part of this model. `SavingPage.ManageAction` stops at the call it makes. No contribution cap, pruning at zero or refund on delete is modelled.
- Income and expense effects on the ledger: there are none in the code, so none is modelled, and no conservation law is stated for them.
- An exception from `saveMovement` escapes the click handler. The model records it as `Failed`, with nothing written and the page left open.
- Presentation: all React rendering, tab and modal state, `handleResetForm`, `handleCloseFeedback` and `handleTopBack`. This also covers `src/App.tsx`, `src/pages/home/Home.tsx` and `src/pages/movements/Movements.tsx`.
