# Cash ledger and point-of-sale core, in Dafny

This project models the logic of a small React point-of-sale and cash-ledger
app, and proves properties of it.

- **Daily ledger.** Each day has one entry recording cash, PIX and card takings, the day's exit (money paid out) and a markup percentage.
- **Calculator.** `calculateEntry` derives the day's total entry, balance and markup.
- **Persistence.** A single remote document holds every list, one named field per list. A save merges one field into it; a load reads one field back, with a default when it is missing.
- **Today's-entry console.** It finds today's entry or synthesises one, adds amounts to a channel and edits the markup, then emits the whole list for saving.
- **Screens.** The dashboard shows totals, a chart series and a payment-channel pie. The vault sums entries over a date range. The other screens are:
  - the catalogue of priced products, with margins;
  - bills to pay;
  - customer tabs (debts);
  - the order tickets ("comandas").

Modules, one per file, follow the program's structure:

| module | models |
|---|---|
| `Wrappers`, `Numbers` | `Option`. `Num = Option<real>` is a JavaScript number that may be `undefined` or NaN; `None` stands for both, because both are falsy under `x \|\| 0` and both poison `+`, `-` and `*`. |
| `Seqs` | `filter`, `reduce` (as sums of `Num`), copy-and-`reverse`, and the delete-by-id every list screen uses |
| `Formatters` | `formatDate`, `parseBRL`, plus the `split`, `replace`, `toLowerCase` and `includes` they and the screens rely on |
| `Types` | the records of `types.ts` |
| `DataService` | `calculateEntry`; the sort of `getCalculatedEntries` (an in-place insertion sort over an `array`); the document and class `Store` with every save/load pair |
| `EntryForm` | today's entry, `addValue` and `updateMarkup` (methods returning the list they would emit), and the console's display values |
| `Orders`, `Vault`, `Catalogue`, `Bills`, `Debts` | the section components of `App.tsx` |
| `App` | class `AppState`: the six lists the root component holds, each setter writing through the store |
| `Dashboard` | `components/Dashboard.tsx` |

**Stored and calculated entries.** A stored entry and a calculated one are both an `Entry` with an optional `derived` part.
- The console receives calculated entries and sends them back, so stale derived values are saved.
- They do no harm: `calculateEntry` spreads its input first and then overwrites the three derived fields (`CalculateIgnoresStale`).
- Every entry the screens show has been recalculated (`AppState.ShowsStoredEntries`).

**Parameters.** The platform's services are passed in as parameters:
- `time` plays `new Date(d).getTime()`;
- `parse` plays `parseFloat` / `Number`;
- `today`, `todayIso` and `freshId` stand for the clock and the generated ids;
- `confirmed` is the answer to the `confirm` dialog.

**Two behaviours of the code worth knowing:**
- Adding a customer tab accepts any non-empty value box, so zero and negative amounts are stored (`App.tsx:417`, `Debts.AddDebt`).
- The console saves the calculated entries it was given, derived fields included (`App.tsx:85`, `components/EntryForm.tsx:44-52`). Loading recalculates them, so the stale values never reach a screen (`DataService.CalculateIgnoresStale`, `AppState.ShowsStoredEntries`).

## Model

| member | source | states |
|---|---|---|
| Numbers.OrOne | components/Dashboard.tsx:78 | `x \|\| 1` is never 0, and is `x` itself when `x` is a non-zero number |
| Seqs.Filter | App.tsx:343-346 | the result holds exactly the elements that pass the test, and is no longer than the input |
| Seqs.SumNum | App.tsx:347-349 | a `reduce` sum from 0 is a number exactly when every summand is one |
| Seqs.RemoveById | App.tsx:400-401 | the delete used by the history, bills, catalogue and tabs screens keeps exactly the records whose id differs |
| Seqs.RemoveByIdKeepsOrder | App.tsx:401 | delete acts on each part of a list separately, so survivors keep their order |
| Seqs.RemoveAbsentId | App.tsx:433 | deleting an id that no record has leaves the list unchanged |
| Seqs.Reverse | components/Dashboard.tsx:18 | the copy has the same length with position `i` holding element `n-1-i` |
| Seqs.ReverseReverse | components/Dashboard.tsx:18 | reversing twice gives the list back |
| Formatters.Split | utils/formatters.ts:18 | `split` yields at least one piece and no piece contains the separator |
| Formatters.JoinSplit | utils/formatters.ts:18 | joining the pieces with the separator gives the original string back |
| Formatters.SplitNoSeparator | utils/formatters.ts:18 | a string without the separator splits into itself alone |
| Formatters.SplitFirstPiece | utils/formatters.ts:18 | a separator-free prefix followed by the separator becomes the first piece |
| Formatters.FormatDate | utils/formatters.ts:16-23 | the shown date is the third, second and first `-`-separated pieces joined by `/`, a missing piece printing as `undefined` |
| Formatters.FormatDateIso | utils/formatters.ts:16-19 | `Y-M-D` is shown as `D/M/Y` |
| Formatters.FormatDateIgnoresExtra | utils/formatters.ts:18-19 | pieces after the third do not affect the shown date |
| Formatters.FormatDateTwoPieces | utils/formatters.ts:18-19 | with only two pieces, the day prints as the text `undefined` |
| Formatters.Clean | utils/formatters.ts:27 | cleaning keeps exactly the digits, `,`, `.` and `-` of the input |
| Formatters.CleanKeepsOrder | utils/formatters.ts:27 | cleaning works on each part of the text separately, so kept characters stay in their original order |
| Formatters.CleanKeepsAmounts | utils/formatters.ts:27 | text made only of amount characters is left as it is |
| Formatters.IndexOf | utils/formatters.ts:27 | the first position holding the character, or -1 exactly when it is absent |
| Formatters.ReplaceFirst | utils/formatters.ts:27 | only the first occurrence of the character is replaced; without one the string is unchanged |
| Formatters.Normalise | utils/formatters.ts:27 | the text handed to `parseFloat` is the cleaned text with only its first comma turned into `.` |
| Formatters.ParseBRL | utils/formatters.ts:25-29 | the empty string gives 0, an unparseable cleaned string gives 0, otherwise the parsed number |
| Formatters.ToLower | App.tsx:235 | lower-casing keeps the length, maps each character, and leaves no upper-case ASCII letter |
| Formatters.ToLowerIdempotent | App.tsx:255 | lower-casing twice changes nothing more |
| Formatters.Contains | App.tsx:235 | `includes` is true exactly when the query occurs at some position |
| DataService.CalculateEntry | services/dataService.ts:19-24 | every input field is kept, and derived fields are always present |
| DataService.CalculateComplete | services/dataService.ts:20-22 | total = cash + pix + card, balance = total - exit, markup = balance × percentage |
| DataService.CalculateMissingIsZero | services/dataService.ts:20-22 | a missing channel, exit or percentage counts as 0 |
| DataService.SameMoneySameDerived | services/dataService.ts:20-22 | the derived fields depend only on the five money fields, each read with `\|\| 0` |
| DataService.CalculateIgnoresStale | services/dataService.ts:23 | stale derived fields in the input are overwritten and have no effect |
| DataService.CalculateIsFresh | services/dataService.ts:19-24 | recalculating a calculated entry changes nothing |
| DataService.SumOfBalances | services/dataService.ts:20-22 | on calculated entries with exits recorded, the summed balances are the summed total entries minus the summed exits |
| DataService.CalculateAll | services/dataService.ts:40 | `map(calculateEntry)` keeps the length and computes each position |
| DataService.CalculateAllFresh | services/dataService.ts:40 | every entry the map produces is already calculated: recalculating it changes nothing |
| DataService.CalculateAllConcat | services/dataService.ts:40 | the map distributes over concatenation |
| DataService.CalculateAllPermutation | services/dataService.ts:38-40 | a rearranged input gives a rearranged output |
| DataService.Swap | services/dataService.ts:39 | exchanging two cells changes nothing else and keeps the multiset |
| DataService.InsertBackward | services/dataService.ts:39 | one insertion step extends the sorted prefix by one, as a permutation |
| DataService.SortByDateDesc | services/dataService.ts:39 | the in-place sort leaves the array newest first and a permutation of its old contents |
| DataService.AllData | services/dataService.ts:10-13 | the document's fields, or no fields when the document does not exist |
| DataService.EntriesIn | services/dataService.ts:33 | `data.entries \|\| []`: the stored list of entries, or the empty list |
| DataService.BillsIn | services/dataService.ts:50 | `data.bills \|\| []`: the stored list of bills, or the empty list |
| DataService.DebtsIn | services/dataService.ts:60 | `data.debts \|\| []`: the stored list of tabs, or the empty list |
| DataService.EnergyIn | services/dataService.ts:70 | `data.energy \|\| []`: the stored list of readings, or the empty list |
| DataService.BudgetsIn | services/dataService.ts:80 | `data.budgets \|\| []`: the stored list of products, or the empty list |
| DataService.ComandasIn | services/dataService.ts:90-96 | the stored tickets (even an empty list), otherwise the ten seed tickets |
| DataService.MergeField | services/dataService.ts:15-17 | a merge sets the named field and leaves every other field, present or absent, as it was |
| DataService.SeedComandas | services/dataService.ts:92-96 | ten tickets with ids 1..10, no client name and no lines |
| DataService.SaveThenLoad | services/dataService.ts:27-34 | for each of the six lists, loading right after saving gives the saved list back; energy uses field `energy` |
| DataService.SaveIsolation | services/dataService.ts:15-17 | saving one list leaves what every other load returns unchanged |
| DataService.LoadAbsent | services/dataService.ts:10-13 | a missing field or document loads as the empty list, and as the ten seed tickets for comandas |
| DataService.Store.constructor | services/dataService.ts:8 | the store starts with the given document, or none |
| DataService.Store.GetAllData | services/dataService.ts:10-13 | reads the document, or an empty one when it does not exist |
| DataService.Store.SetAllData | services/dataService.ts:15-17 | the new document is the old one with one field merged in |
| DataService.Store.SaveEntries | services/dataService.ts:27-29 | merges the `entries` field |
| DataService.Store.LoadEntries | services/dataService.ts:31-34 | the stored entries, or none |
| DataService.Store.GetCalculatedEntries | services/dataService.ts:36-41 | newest first, a permutation of the stored entries after calculation, each recalculated |
| DataService.Store.SaveBills | services/dataService.ts:44-46 | merges the `bills` field |
| DataService.Store.LoadBills | services/dataService.ts:48-51 | the stored bills, or none |
| DataService.Store.SaveDebts | services/dataService.ts:54-56 | merges the `debts` field |
| DataService.Store.LoadDebts | services/dataService.ts:58-61 | the stored tabs, or none |
| DataService.Store.SaveEnergy | services/dataService.ts:64-66 | merges the `energy` field |
| DataService.Store.LoadEnergy | services/dataService.ts:68-71 | the stored readings, or none |
| DataService.Store.SaveBudgets | services/dataService.ts:74-76 | merges the `budgets` field |
| DataService.Store.LoadBudgets | services/dataService.ts:78-81 | the stored products, or none |
| DataService.Store.SaveComandas | services/dataService.ts:84-86 | merges the `comandas` field |
| DataService.Store.LoadComandas | services/dataService.ts:88-97 | the stored tickets (even an empty list), or ten new ones when the field is missing |
| EntryForm.TodayIndex | components/EntryForm.tsx:17 | the first index dated today, or -1 exactly when no entry is |
| EntryForm.CurrentEntry | components/EntryForm.tsx:19-30 | today's first entry, or a new one with zero channels and 40% markup, always dated today |
| EntryForm.AddValue | components/EntryForm.tsx:55-76 | emits nothing for NaN or non-positive amounts; otherwise the amount is added to exactly the chosen field, and today's row is replaced in place or put first |
| EntryForm.UpdateMarkup | components/EntryForm.tsx:35-53 | emits nothing for NaN; otherwise only the percentage changes, to the value over 100, with the same replace-or-prepend rule |
| EntryForm.UpsertKeepsOtherDays | components/EntryForm.tsx:66-72 | rows of other days keep their place and content, and the list grows by at most one |
| EntryForm.LiquidValue | components/EntryForm.tsx:78-82 | cash + pix + card - exit, and NaN exactly when one of the four is missing |
| EntryForm.MarkupValue | components/EntryForm.tsx:84-85 | liquid value × percentage, NaN exactly when either is |
| EntryForm.RealBalance | components/EntryForm.tsx:87 | liquid value × (1 - percentage), NaN exactly when the markup value is |
| EntryForm.ConsoleAgreesWithCalculator | components/EntryForm.tsx:78-87 | on a complete entry, liquid and markup equal the calculator's balance and markup, and real balance = liquid × (1 - percentage) |
| EntryForm.ConsoleMissingField | components/EntryForm.tsx:78-82 | a missing money field shows NaN on the console, while the calculator counts it as 0 |
| EntryForm.AddedAmountMovesBalance | components/EntryForm.tsx:59-64 | adding to an inflow raises total and balance by the amount; adding to the exit lowers the balance by it |
| EntryForm.AddToMissingChannelIsLost | components/EntryForm.tsx:61 | `+=` on a missing field gives NaN, so the calculator's figures do not change |
| EntryForm.UpdatedMarkupIsApplied | components/EntryForm.tsx:39-42 | after a markup update the calculated markup is balance × typed value / 100 |
| Orders.UpdateActive | App.tsx:239 | only tickets with the active id are transformed; the others are kept in place |
| Orders.CurrentItems | App.tsx:230 | the first active ticket's lines, or none when no ticket has the id |
| Orders.TicketTotal | App.tsx:230-231 | 0 when no ticket has the id; a number exactly when every line price is one |
| Orders.UpdateClient | App.tsx:238-240 | renames the active ticket and changes nothing else |
| Orders.Clear | App.tsx:266-270 | unconfirmed, nothing changes; confirmed, the active ticket loses its lines and client name and the others are kept |
| Orders.ClearedTicketTotalsZero | App.tsx:266-270 | after a confirmed clear, the ticket totals 0 |
| Orders.NoItemsNoLines | App.tsx:230 | tickets without lines show no lines |
| Orders.Bump | App.tsx:245-246 | each line with the id gets `max(0, quantity + delta)`; other lines are kept |
| Orders.Max0 | App.tsx:246 | `Math.max(0, q)` is at least `q` and is either 0 or `q` |
| Orders.ModifyQty | App.tsx:242-250 | other tickets are identical; in the active one a line survives exactly when it is in the bumped list with a positive quantity |
| Orders.ModifyQtyLines | App.tsx:245-247 | untouched lines stay exactly when in stock; the edited line stays with its new quantity when above 0 |
| Orders.DecrementToZeroRemoves | App.tsx:245-247 | taking a line down to 0 or below removes every line with its id |
| Orders.FindLine | App.tsx:255 | the first line whose lower-cased name equals the lower-cased name, or -1 exactly when none does |
| Orders.AddLine | App.tsx:255-261 | the first same-named line gets one more unit and every other line is kept; with no match a line of 1 is appended |
| Orders.AddItem | App.tsx:252-262 | increments the first matching line, keeping the line count, or appends one line of quantity 1; other tickets unchanged |
| Orders.AddLineRaisesTotal | App.tsx:255-261 | adding an item raises the lines total by one unit price of the line it lands on |
| Orders.IncrementRaisesTotal | App.tsx:258 | one more of a line raises the total by that line's price |
| Orders.AppendRaisesTotal | App.tsx:261 | a new line of 1 raises the total by its price |
| Orders.ActionsKeepQuantitiesPositive | App.tsx:238-270 | add, change quantity, rename and clear all keep every line's quantity above 0 |
| Orders.Matches | App.tsx:235 | keeps exactly the products whose lower-cased name contains the lower-cased query |
| Orders.FilteredCatalogue | App.tsx:233-236 | empty query gives nothing; else the first `min(5, n)` case-insensitive matches, in catalogue order |
| Vault.LexLeReflexive | App.tsx:345 | every string is `<=` itself |
| Vault.LexLeTransitive | App.tsx:345 | string order is transitive |
| Vault.LexLeAntisymmetric | App.tsx:345 | strings ordered both ways are equal |
| Vault.VaultFilter | App.tsx:343-346 | with either bound empty all entries are kept; otherwise exactly those with start ≤ date ≤ end |
| Vault.Summary | App.tsx:347-349 | each card is a number exactly when every selected entry has that field; on calculated entries with exits recorded, the total is total in minus total out |
| Vault.VaultEmptyRange | App.tsx:343-349 | a range no entry falls in gives 0 on all three cards |
| Vault.VaultInvertedRange | App.tsx:343-349 | a start after the end selects nothing, so all three cards show 0 |
| Vault.VaultSingleDay | App.tsx:343-346 | a range from a day to the same day selects exactly that day's entries |
| Catalogue.Priced | App.tsx:167-170 | profit = price - cost, and margin × price = profit × 100 when both are numbers |
| Catalogue.AddBudget | App.tsx:165-173 | ignored while any box is empty; otherwise a new record with the parsed cost and price, its profit and margin, is put first |
| Catalogue.MarginBand | App.tsx:175-180 | thresholds 20, 40 and 60; NaN lands in the top band |
| Catalogue.MarginBandMonotone | App.tsx:175-180 | a higher margin never gets a lower band |
| Bills.AddBill | App.tsx:377-381 | ignored while any box is empty; otherwise an unpaid bill with value `Number(val)` is put first |
| Bills.ToggleBill | App.tsx:400 | flips `paid` on the bills with the id only; every other field and bill is kept |
| Bills.ToggleTwice | App.tsx:400 | toggling twice restores the list |
| Debts.AddDebt | App.tsx:416-420 | ignored while the name or value is empty; otherwise a tab dated today is put first |
| App.AppState.constructor | App.tsx:23-28 | all six lists start empty |
| App.AppState.LoadData | App.tsx:33-44 | afterwards the entries shown are the stored ones, recalculated and newest first, and every other list equals its stored one |
| App.AppState.HandleUpdateEntries | App.tsx:46-49 | saves the list as given, then shows it recalculated and newest first; the other lists are unchanged |
| App.AppState.DeleteEntry | App.tsx:76-79 | saves the list without the id; no row shown has the id, every other row is still shown, and the other lists are unchanged |
| App.AppState.ConsoleAddValue | App.tsx:84-87 | the console's list, if any, is saved and shown; an invalid amount leaves the store and the entries as they were; the other lists never change |
| App.AppState.ConsoleUpdateMarkup | App.tsx:84-87 | the console's markup edit, if any, is saved and shown; NaN leaves the store and the entries as they were; the other lists never change |
| App.AppState.SetBills | App.tsx:91 | shows and saves the bills, and keeps the other lists and the shown-equals-stored invariant |
| App.AppState.SetBudgets | App.tsx:92 | shows and saves the catalogue; the other lists are unchanged and still equal to what is stored |
| App.AppState.SetComandas | App.tsx:93 | shows and saves the tickets; the other lists are unchanged and still equal to what is stored |
| App.AppState.SetDebts | App.tsx:94 | shows and saves the tabs; the other lists are unchanged and still equal to what is stored |
| App.AppState.SetEnergyReadings | App.tsx:95 | shows and saves the readings; the other lists are unchanged and still equal to what is stored |
| Dashboard.TotalsOf | components/Dashboard.tsx:26-35 | each total is a number exactly when every entry's source field is one |
| Dashboard.TotalsAreSums | components/Dashboard.tsx:26-35 | each total is the sum over all entries of its own source field |
| Dashboard.Net | components/Dashboard.tsx:69 | net is a number exactly when total entry and total exit are |
| Dashboard.NetIsSumOfBalances | components/Dashboard.tsx:69 | on calculated entries with exits recorded, net is the sum of the day balances |
| Dashboard.AverageMarkupPercent | components/Dashboard.tsx:78 | total markup over total entry, times 100; 0 or NaN total entry divides by 1 instead |
| Dashboard.ChartData | components/Dashboard.tsx:17-24 | same length as the entries, in reverse order |
| Dashboard.ChartRunsForward | components/Dashboard.tsx:17-24 | entries shown newest first give a chart running oldest to newest |
| Dashboard.PieData | components/Dashboard.tsx:37-41 | three slices: cash, PIX, card, with their channel totals |
| Dashboard.PieAddsUpToTotalEntry | components/Dashboard.tsx:37-41 | on complete calculated entries, the slices add up to the total entry card |
| Dashboard.Render | components/Dashboard.tsx:43-50 | the empty state exactly when there are no entries; otherwise the totals, net, average, the chart of `ChartData` and the pie of `PieData` |

## Left out

- Firestore I/O (`doc`, `getDoc`, `setDoc` and the `./firebase` module) is not modelled. The document is an in-memory value held by `Store`, and network failure is not modelled.
- A stored field of the wrong shape is read as absent, which stands in for JavaScript's untyped data.
- The Gemini insight call is not modelled: it is a networked, free-text collaborator.
- Async ordering is not modelled. Each save and reload runs to completion before the next action, so races between un-awaited saves are outside the model.
- Rendering is not modelled: JSX, menus, `HistoryTable.tsx`, `StatCard.tsx` and the chart configuration. Colour class names are reduced to the four `Band` values. HistoryTable only forwards `onDelete`, which is `AppState.DeleteEntry`.
- `formatCurrency`, `formatPercent` and every `toFixed` call are not modelled: they format through the locale library.
- IEEE floating point is not modelled. Money is exact `real`, Infinity is not modelled, and NaN and `undefined` are one value, `None`.
- Catalogue.Priced: requires a non-zero price (when the price is a number), for the same reason as `Catalogue.AddBudget` below.
- Catalogue.AddBudget: requires a non-zero price when all boxes are filled. With price 0 the source stores an infinite or NaN margin, which the model does not represent.
- `parseFloat` and `Number` are the `parse` parameter, so their exact coercion rules are not modelled.
- The dates the sort compares go through the `time` parameter. Invalid dates (NaN times) are not modelled.
- DataService.SortByDateDesc: is proved sorted and a permutation, but stability is not stated. The source's `Array.prototype.sort` is stable, and so is this insertion sort: it moves an entry only past a strictly older one. The contract just does not say so.
- Formatters.ToLower: handles ASCII letters only. Unicode case mapping is not modelled.
- Vault.VaultFilter: JavaScript compares strings by UTF-16 code units, while the model compares Dafny characters. The two agree on the ASCII dates the app stores.
- Orders.AddItem: `items[exists].quantity += 1` also mutates the line object shared with the previous state. The model produces a new list, so that aliasing is not represented.
- The energy and scale screens are not modelled: they are one-line arithmetic on typed strings.
- The clock (`new Date()`, `Date.now()`), `crypto.randomUUID()` and the `confirm` dialog are parameters: `today`, `todayIso`, `freshId` and `confirmed`.
- The `find(...) || { items: [] }` default in `Orders.CurrentItems` cannot be told apart from a ticket with no lines, and both are modelled as the empty list.
