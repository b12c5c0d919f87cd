# MV site stores — a Dafny model

The MV site is a single-page website for a barbershop and a car-care shop. It has
an administrator login, editable page content, and a small financial ledger for each
business. This project models the state and the rules behind those features:

- **Ledger store** (`Finance`, from `src/contexts/FinancialContext.tsx`). There is one
  list of transactions and one list of inventory items, each entry tagged with its
  business. Each list has add, update-by-id and delete-by-id. The store also answers
  per-business queries and computes a summary: total income, total expenses, profit,
  and this month's income and expenses. Every change writes the whole new list to
  browser storage.
  - The `FinancialStore` class holds the two lists and a storage map.
  - The new lists are computed by pure functions, and the lemmas are stated about
    those functions.
- **Content store** (`Contents`, from `src/contexts/ContentContext.tsx`). This is one
  record of page texts, a service catalogue and social contacts. It supports a
  shallow-merge update, plus add, update-by-id and delete-by-id on the services. The
  `ContentStore` class holds the record. It starts from the default content and owns
  no storage.
- **Admin session** (`Admin`, from `src/contexts/AdminContext.tsx`). The class
  `AdminSession` holds the `isAuthenticated` and `isEditMode` flags and the stored
  login flag. It provides login (password `admin123`), logout and the edit-mode toggle.
- **Dashboard rules** (`Dashboard`, from `src/components/FinancialDashboard.tsx`).
  These are the low-stock alert, the three-way stock status and its badge colour,
  the category options, and the submit handlers. Each submit handler updates the
  entry being edited, or adds a new one.
- **Generic list layer** (`Seqs`). A filter and a map-where-selected, with their
  lemmas: order-preserving subsequence, multiplicities, concatenation, idempotence.
  Every store is built from these two.

Modelling conventions:
- Amounts and prices are whole cents (`int`).
- A transaction date is already decoded into year, month (1–12) and day.
- Generated ids, the "now" timestamp and the current month are parameters.
- Browser storage is a key-to-value map field. The stored values are the lists
  themselves; JSON text is not modelled.

Two facts about the code shape the model:
- The content store keeps one record for the whole site and never writes to storage
  (`src/contexts/ContentContext.tsx:92-127`).
- Ids come from the clock and are not guaranteed unique, so equal entries can occur.
  No lemma assumes uniqueness, and every filter result states the multiplicity of
  each entry. The two lemmas that need a fresh id ask for it in `requires`.

## Model

| member | source | states |
|---|---|---|
| Seqs.Filter | src/contexts/FinancialContext.tsx:101 | every kept entry comes from the input and satisfies the predicate; every input entry that satisfies it is kept; never longer than the input |
| Seqs.MapWhere | src/contexts/FinancialContext.tsx:94-96 | same length; position i holds the rewritten entry when selected, the old entry otherwise |
| Seqs.FilterIsSubsequence | src/contexts/FinancialContext.tsx:127 | a filter result is an order-preserving subsequence of its input |
| Seqs.FilterMultisets | src/contexts/FinancialContext.tsx:101 | the multiplicity law for every value at once |
| Seqs.FilterMultiset | src/contexts/FinancialContext.tsx:127 | a kept value occurs exactly as often as in the input, a dropped value not at all |
| Seqs.FilterAppend | src/contexts/FinancialContext.tsx:101 | filtering a concatenation is the concatenation of the filtered parts |
| Seqs.FilterKeepsAll | src/contexts/FinancialContext.tsx:101 | if every entry passes, the filter returns its input |
| Seqs.FilterIdempotent | src/contexts/FinancialContext.tsx:101 | filtering twice by one predicate equals filtering once |
| Seqs.FilterFilter | src/contexts/FinancialContext.tsx:139-141 | two successive filters equal one filter by the conjunction |
| Seqs.MapWhereMissesAll | src/contexts/FinancialContext.tsx:94-96 | a map that selects nothing returns its input |
| Finance.NewTransaction | src/contexts/FinancialContext.tsx:85-88 | the stored transaction carries the generated id, and dropping that id gives back the caller's draft |
| Finance.NewInventoryItem | src/contexts/FinancialContext.tsx:105-109 | the stored item carries the generated id and `lastUpdated = now`; dropping both gives back the caller's draft |
| Finance.MergeTransaction | src/contexts/FinancialContext.tsx:95 | every field the patch carries wins, every field it omits keeps its stored value; the merge changes nothing iff the transaction already agrees with the patch |
| Finance.MergeInventoryItem | src/contexts/FinancialContext.tsx:116 | the patch wins on every field except `lastUpdated`, which is always `now`; every other field it omits keeps its stored value; the merge changes nothing iff the item already agrees with the patch and carries `now` |
| Finance.MergeTransactionLaws | src/contexts/FinancialContext.tsx:95 | shallow merge: the empty patch is the identity, a patch is idempotent, two patches compose with the later winning |
| Finance.MergeInventoryStamps | src/contexts/FinancialContext.tsx:116 | a merged item always carries `now`, even when the patch has its own `lastUpdated`; that patch field is ignored |
| Finance.UpdateTransactions | src/contexts/FinancialContext.tsx:93-98 | length and order kept; entries with another id untouched; matching entries are old entry merged with the patch; an unknown id leaves the list unchanged |
| Finance.RemoveTransaction | src/contexts/FinancialContext.tsx:100-103 | result is an order-preserving subsequence holding exactly the entries whose id differs, each as often as in the input; an unknown id is a no-op |
| Finance.RemoveTransactionIdempotent | src/contexts/FinancialContext.tsx:100-103 | deleting the same id twice equals deleting it once |
| Finance.AddThenDeleteTransaction | src/contexts/FinancialContext.tsx:85-103 | adding under a fresh id and then deleting that id restores the list |
| Finance.UpdateInventory | src/contexts/FinancialContext.tsx:114-119 | same length and order; other ids untouched; matching items merged and stamped `now`; an unknown id is a no-op |
| Finance.RemoveInventoryItem | src/contexts/FinancialContext.tsx:121-124 | order-preserving subsequence of exactly the items whose id differs, each as often as in the input; an unknown id is a no-op |
| Finance.RemoveInventoryItemIdempotent | src/contexts/FinancialContext.tsx:121-124 | deleting the same item id twice equals deleting it once |
| Finance.BusinessTransactions | src/contexts/FinancialContext.tsx:126-128 | order-preserving subsequence whose members are exactly that business's transactions, each with its full multiplicity |
| Finance.BusinessInventory | src/contexts/FinancialContext.tsx:130-132 | the same for inventory items |
| Finance.ObservedPeriod | src/contexts/FinancialContext.tsx:149-152 | the month a date-only string reads as in the local zone: the written month when the zone is not west of UTC, and otherwise never more than one month earlier |
| Finance.ObservedPeriodShift | src/contexts/FinancialContext.tsx:149-152 | the month the browser reports for a date-only string equals the calendar month iff the zone is not west of UTC or the day is not the 1st |
| Finance.ObservedPeriodFirstOfMarch | src/contexts/FinancialContext.tsx:149-152 | at UTC-3 the date 2024-03-01 is reported as February 2024 |
| Finance.ReduceAmounts | src/contexts/FinancialContext.tsx:141 | the running total of `reduce((sum, t) => sum + t.amount, acc)`; with no negative amount it never ends below its start |
| Finance.ReduceIsSum | src/contexts/FinancialContext.tsx:141 | the left-to-right reduction from `acc` equals `acc` plus the sum of the amounts |
| Finance.SumOfFilter | src/contexts/FinancialContext.tsx:139-145 | summing the filter result equals the one-pass conditional sum |
| Finance.SummedPipeline | src/contexts/FinancialContext.tsx:135-163 | filter by business, filter by kind/month, then reduce from 0: this gives the selected sum |
| Finance.FinancialSummary | src/contexts/FinancialContext.tsx:134-172 | totalIncome/totalExpenses are the business's income/expense sums; profit = income − expenses; monthly figures are the same sums restricted to the current month |
| Finance.SumSelectedAppend | src/contexts/FinancialContext.tsx:139-163 | a selected sum is additive over concatenation |
| Finance.SumSelectedNone | src/contexts/FinancialContext.tsx:139-163 | a list with nothing selected sums to 0 |
| Finance.OtherBusinessIgnored | src/contexts/FinancialContext.tsx:135 | inserting another business's transaction anywhere changes no summary field |
| Finance.SummaryOfOwnTransactions | src/contexts/FinancialContext.tsx:135 | summarising only the business's own transactions gives the same summary |
| Finance.OwnTransactionsSum | src/contexts/FinancialContext.tsx:135-145 | a selected sum is unchanged by first keeping only that business |
| Finance.MonthlyAtMostTotal | src/contexts/FinancialContext.tsx:147-163 | with non-negative amounts, a month's sum is at most the all-time sum |
| Finance.SummaryMonthlyBounded | src/contexts/FinancialContext.tsx:139-163 | with non-negative amounts, monthlyIncome ≤ totalIncome and monthlyExpenses ≤ totalExpenses |
| Finance.AppendOne | src/contexts/FinancialContext.tsx:139-163 | appending one transaction adds its amount to exactly the sums that select it |
| Finance.AddedIncome | src/contexts/FinancialContext.tsx:139-171 | a new income moves totalIncome and profit by its amount; monthlyIncome moves iff it is dated in the current month; expenses unchanged |
| Finance.AddedExpense | src/contexts/FinancialContext.tsx:139-171 | a new expense moves totalExpenses by its amount and profit by minus it; monthlyExpenses moves iff current month; income unchanged |
| Finance.SummaryExample | src/contexts/FinancialContext.tsx:165-171 | income 100 and expense 40 give totals 100/40 and profit 60 |
| Finance.FinancialStore.Load | src/contexts/FinancialContext.tsx:60-73 | both lists start empty; a saved list under its key replaces the empty one and is then in sync with storage |
| Finance.FinancialStore.SaveTransactions | src/contexts/FinancialContext.tsx:75-78 | sets the list and writes it under `financial_transactions`; nothing else changes |
| Finance.FinancialStore.SaveInventory | src/contexts/FinancialContext.tsx:80-83 | sets the list and writes it under `inventory_items`; nothing else changes |
| Finance.FinancialStore.AddTransaction | src/contexts/FinancialContext.tsx:85-91 | new list = old list + the draft with the supplied id; earlier entries unchanged; persisted |
| Finance.FinancialStore.UpdateTransaction | src/contexts/FinancialContext.tsx:93-98 | new list = update-by-id of the old one; inventory unchanged; persisted |
| Finance.FinancialStore.DeleteTransaction | src/contexts/FinancialContext.tsx:100-103 | new list = old minus the entries with that id; persisted |
| Finance.FinancialStore.AddInventoryItem | src/contexts/FinancialContext.tsx:105-112 | one item appended with the supplied id and `lastUpdated = now`; persisted |
| Finance.FinancialStore.UpdateInventoryItem | src/contexts/FinancialContext.tsx:114-119 | every matched item merged and stamped `now`; others unchanged; persisted |
| Finance.FinancialStore.DeleteInventoryItem | src/contexts/FinancialContext.tsx:121-124 | new inventory = old minus the items with that id; persisted |
| Finance.FinancialStore.GetBusinessTransactions | src/contexts/FinancialContext.tsx:126-128 | order-preserving subsequence of exactly that business's transactions, each with its full multiplicity |
| Finance.FinancialStore.GetBusinessInventory | src/contexts/FinancialContext.tsx:130-132 | order-preserving subsequence of exactly that business's items, each with its full multiplicity |
| Finance.FinancialStore.GetFinancialSummary | src/contexts/FinancialContext.tsx:134-172 | the summary fields as selected sums of the current list, profit = income − expenses |
| Contents.DefaultCatalogue | src/contexts/ContentContext.tsx:36-80 | the default content has four services, ids "1".."4" in order, one per category |
| Contents.MergeContentLaws | src/contexts/ContentContext.tsx:95-100 | top-level shallow merge: the empty patch is the identity, a full patch replaces the record, a patch is idempotent, two patches compose with the later winning |
| Contents.MergeContent | src/contexts/ContentContext.tsx:95-100 | every top-level field the patch carries replaces the stored one, every field it omits keeps its value; the merge changes nothing iff the record already agrees with the patch |
| Contents.NewService | src/contexts/ContentContext.tsx:102-106 | the stored service carries the generated id, and dropping it gives back the caller's draft |
| Contents.MergeService | src/contexts/ContentContext.tsx:117 | every field the patch carries wins, the id included, every field it omits keeps its value; the merge changes nothing iff the service already agrees with the patch |
| Contents.PriceOnlyPatch | src/contexts/ContentContext.tsx:117 | a price-only patch changes the price and nothing else |
| Contents.AppendService | src/contexts/ContentContext.tsx:102-111 | one service with the supplied id at the end; earlier services and all other fields unchanged |
| Contents.UpdateServices | src/contexts/ContentContext.tsx:113-120 | same length and order; matching services merged (id included); others untouched; an unknown id is a no-op; other fields unchanged |
| Contents.RemoveService | src/contexts/ContentContext.tsx:122-127 | order-preserving subsequence of exactly the services with another id, each as often as before; an unknown id is a no-op; other fields unchanged |
| Contents.RemoveServiceIdempotent | src/contexts/ContentContext.tsx:122-127 | deleting a service id twice equals deleting it once |
| Contents.UpdateAfterRemove | src/contexts/ContentContext.tsx:113-127 | after a delete, updating the deleted id is a no-op |
| Contents.AddThenDeleteService | src/contexts/ContentContext.tsx:102-127 | adding under a fresh id and then deleting it restores the record |
| Contents.ContentStore.constructor | src/contexts/ContentContext.tsx:93 | the store starts with the default content |
| Contents.ContentStore.UpdateContent | src/contexts/ContentContext.tsx:95-100 | new content = old content shallow-merged with the patch: the patch's fields replaced, every other field unchanged |
| Contents.ContentStore.AddService | src/contexts/ContentContext.tsx:102-111 | new content = old content with the new service appended |
| Contents.ContentStore.UpdateService | src/contexts/ContentContext.tsx:113-120 | new content = old content with matching services merged |
| Contents.ContentStore.DeleteService | src/contexts/ContentContext.tsx:122-127 | new content = old content without the matching services |
| Admin.AdminSession.Load | src/contexts/AdminContext.tsx:26-34 | both flags start false; authenticated iff the stored flag is exactly "true"; storage untouched |
| Admin.AdminSession.Login | src/contexts/AdminContext.tsx:36-44 | returns true iff the password is "admin123", then sets authenticated and stores "true"; otherwise changes nothing |
| Admin.AdminSession.Logout | src/contexts/AdminContext.tsx:46-50 | both flags false; the stored flag removed, so a reload does not restore the session |
| Admin.AdminSession.ToggleEditMode | src/contexts/AdminContext.tsx:52-54 | edit mode negated regardless of authentication; authentication and storage unchanged |
| Admin.ToggleTwice | src/contexts/AdminContext.tsx:52-54 | toggling twice restores the session |
| Dashboard.StatusOf | src/components/FinancialDashboard.tsx:593-597 | Crítico iff quantity ≤ minimum; Baixo iff minimum < quantity ≤ 2·minimum; Normal iff above both |
| Dashboard.StatusLabel | src/components/FinancialDashboard.tsx:593-597 | the badge reads "Crítico", "Baixo" or "Normal" iff the status is critical, low or normal |
| Dashboard.BadgeColour | src/components/FinancialDashboard.tsx:587-591 | red iff quantity ≤ minimum; yellow iff minimum < quantity ≤ 2·minimum; green iff above both |
| Dashboard.BadgeMatchesStatus | src/components/FinancialDashboard.tsx:586-597 | the badge's colour classes always match its label |
| Dashboard.StatusLabelsDistinct | src/components/FinancialDashboard.tsx:593-597 | the three labels are distinct |
| Dashboard.LowStockItems | src/components/FinancialDashboard.tsx:49 | order-preserving subsequence of exactly the items with quantity ≤ minimum (the Crítico ones), each as often as in the inventory |
| Dashboard.AlertOfBusiness | src/components/FinancialDashboard.tsx:46-49 | an item is in a dashboard's alert iff it belongs to that business and its badge reads Crítico |
| Dashboard.IncomeCategories | src/components/FinancialDashboard.tsx:60-62 | four income categories for the barbershop, five for the car-care shop, ending in "Outros" |
| Dashboard.CategoryOptions | src/components/FinancialDashboard.tsx:133 | expense options are the fixed five-item list whatever the business; income options depend on it |
| Dashboard.InventoryCategories | src/components/FinancialDashboard.tsx:204-206 | five inventory categories for the barbershop, six for the car-care shop |
| Dashboard.SubmitTransaction | src/components/FinancialDashboard.tsx:66-81 | update of the edited id iff editing, add otherwise; both carry the dashboard's business; the patch carries no id |
| Dashboard.SubmitInventory | src/components/FinancialDashboard.tsx:208-227 | the same for the inventory form; the patch carries no id and no timestamp |
| Dashboard.EditedTransactionIsForm | src/components/FinancialDashboard.tsx:68-73 | an edited transaction keeps only its id; every other field comes from the form and the business |
| Dashboard.EditedItemIsForm | src/components/FinancialDashboard.tsx:210-217 | an edited item keeps only its id; fields come from the form, the timestamp from the clock |
| Dashboard.SubmitTransactionForm | src/components/FinancialDashboard.tsx:66-81 | against the ledger: appends the form's transaction with the new id, or rewrites every entry with the edited id to the form's values; inventory unchanged; storage changes only under `financial_transactions` |
| Dashboard.SubmitInventoryForm | src/components/FinancialDashboard.tsx:208-227 | the same for inventory, with `lastUpdated = now`; transactions unchanged; storage changes only under `inventory_items` |

## Findings

| source | as written | input that shows it | evidently intended | confidence | as-written member | corrected member |
|---|---|---|---|---|---|---|
| src/contexts/FinancialContext.tsx:149-152 | a date-only string such as "2024-03-01" is parsed as midnight UTC, but `getMonth()`/`getFullYear()` read it in local time | a sale dated 2024-03-01, viewed at UTC-3 (Brasília): its month reads as February, so March's monthly income leaves it out | a transaction counts in the month written on it, whatever the zone | high for zones west of UTC; not executed | Finance.ObservedPeriodFirstOfMarch | Finance.AddedIncome |

The summary uses the corrected `PeriodOf` (the month written in the date). With it,
`AddedIncome` and `AddedExpense` prove that a transaction dated on any day of the
current month, the 1st included, moves the monthly figure. The as-written month is
`ObservedPeriod`. `ObservedPeriodShift` says exactly when the two disagree: on the
1st of a month, in a zone west of UTC.

## Left out

- Browser storage is a map field per store. `localStorage` is shared by the whole page, but the stores use disjoint keys (`financial_transactions`, `inventory_items`, `admin_authenticated`).
- JSON is not modelled: no serialisation round trip. A stored value under a ledger key that is not a list of the right kind is treated as absent. The real code passes whatever the key holds to `JSON.parse`, unguarded.
- The clock is a parameter: generated ids (`Date.now()`), `lastUpdated` timestamps and the current month. The model says nothing about whether ids are unique or timestamps increase.
- Date parsing is reduced to a decoded (year, month, day). The time-zone effect is captured only as `ObservedPeriod` (see Findings).
- Floating point is replaced by whole cents. This covers `parseFloat`/`parseInt` of form strings, possible `NaN` values, float rounding in the running sums, and two-decimal display.
- A partial update whose key is present but `undefined` is not modelled: in JavaScript it overwrites the field with `undefined`. A patch field is either present with a value or absent.
- React machinery is out of scope: hooks, context objects, the `use*` guards that throw outside a provider, and re-rendering. Stale closures over the previous render's state are also out; operations run one after another on the current state.
- Dashboard view state is out of scope: the active tab, opening and closing the forms, resetting the form fields after submit, and loading an edited entry into the form.
- The login form passes a username as well as a password to `login`. Only `login(password)` as the admin context defines it is modelled.
- The page components, the admin panel, the editable text/image widgets, the colour picker, routing and the build configuration are UI. The content API the page components expect per business is not part of this model.
