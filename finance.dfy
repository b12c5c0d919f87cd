/**
 * The financial ledger of the site: a list of transactions and a list of
 * inventory items, each tagged with the business it belongs to, with
 * add / update-by-id / delete-by-id, the per-business queries and the
 * income/expense summary. Every change is written to browser storage.
 *
 * Amounts and prices are whole cents. A transaction's date is kept already
 * decoded into year, month (1-12) and day; the reference month of the summary,
 * generated ids and the "now" timestamp are parameters.
 */
module Finance {
  import opened Wrappers
  import opened Seqs

  datatype Business = Barbershop | Automotive
  datatype Kind = Income | Expense

  datatype CalendarDate = CalendarDate(year: int, month: int, day: int)

  /** A calendar month: the reference month of the monthly sums. */
  datatype Period = Period(year: int, month: int)

  datatype Transaction = Transaction(
    id: string,
    kind: Kind,
    category: string,
    description: string,
    amount: int,
    date: CalendarDate,
    businessType: Business)

  /** What a caller hands to `addTransaction`: a transaction without its id. */
  datatype TransactionDraft = TransactionDraft(
    kind: Kind,
    category: string,
    description: string,
    amount: int,
    date: CalendarDate,
    businessType: Business)

  /** A partial transaction: the fields present overwrite the stored ones (the id included). */
  datatype TransactionPatch = TransactionPatch(
    id: Option<string>,
    kind: Option<Kind>,
    category: Option<string>,
    description: Option<string>,
    amount: Option<int>,
    date: Option<CalendarDate>,
    businessType: Option<Business>)

  datatype InventoryItem = InventoryItem(
    id: string,
    name: string,
    category: string,
    quantity: int,
    minQuantity: int,
    unitPrice: int,
    supplier: string,
    lastUpdated: string,
    businessType: Business)

  /** What a caller hands to `addInventoryItem`: an item without id and timestamp. */
  datatype InventoryDraft = InventoryDraft(
    name: string,
    category: string,
    quantity: int,
    minQuantity: int,
    unitPrice: int,
    supplier: string,
    businessType: Business)

  datatype InventoryPatch = InventoryPatch(
    id: Option<string>,
    name: Option<string>,
    category: Option<string>,
    quantity: Option<int>,
    minQuantity: Option<int>,
    unitPrice: Option<int>,
    supplier: Option<string>,
    lastUpdated: Option<string>,
    businessType: Option<Business>)

  /** A value held in browser storage (its JSON text is not modelled). */
  datatype Saved = SavedTransactions(transactions: seq<Transaction>) | SavedInventory(items: seq<InventoryItem>)

  const TransactionsKey: string := "financial_transactions"
  const InventoryKey: string := "inventory_items"

  const EmptyTransactionPatch := TransactionPatch(None, None, None, None, None, None, None)
  const EmptyInventoryPatch := InventoryPatch(None, None, None, None, None, None, None, None, None)

  // ---------------------------------------------------------------------------
  // Building and merging records

  /** A stored transaction with its id dropped: the inverse of `NewTransaction`. */
  function DraftOf(t: Transaction): TransactionDraft {
    TransactionDraft(t.kind, t.category, t.description, t.amount, t.date, t.businessType)
  }

  /** A stored item with its id and timestamp dropped: the inverse of `NewInventoryItem`. */
  function ItemDraftOf(it: InventoryItem): InventoryDraft {
    InventoryDraft(it.name, it.category, it.quantity, it.minQuantity, it.unitPrice, it.supplier, it.businessType)
  }

  /** The transaction `addTransaction` stores: the caller's fields plus the generated id. */
  function NewTransaction(d: TransactionDraft, id: string): (t: Transaction)
    ensures t.id == id && DraftOf(t) == d
  {
    Transaction(id, d.kind, d.category, d.description, d.amount, d.date, d.businessType)
  }

  /** The item `addInventoryItem` stores: the caller's fields, the generated id and the current time. */
  function NewInventoryItem(d: InventoryDraft, id: string, now: string): (it: InventoryItem)
    ensures it.id == id && it.lastUpdated == now && ItemDraftOf(it) == d
  {
    InventoryItem(id, d.name, d.category, d.quantity, d.minQuantity, d.unitPrice, d.supplier, now, d.businessType)
  }

  /** `t` already holds every field the patch carries. */
  predicate CarriesTransaction(t: Transaction, p: TransactionPatch) {
    p.id.GetOr(t.id) == t.id && p.kind.GetOr(t.kind) == t.kind &&
    p.category.GetOr(t.category) == t.category && p.description.GetOr(t.description) == t.description &&
    p.amount.GetOr(t.amount) == t.amount && p.date.GetOr(t.date) == t.date &&
    p.businessType.GetOr(t.businessType) == t.businessType
  }

  /** `it` already holds every field the patch carries. */
  predicate CarriesItem(it: InventoryItem, p: InventoryPatch) {
    p.id.GetOr(it.id) == it.id && p.name.GetOr(it.name) == it.name &&
    p.category.GetOr(it.category) == it.category && p.quantity.GetOr(it.quantity) == it.quantity &&
    p.minQuantity.GetOr(it.minQuantity) == it.minQuantity && p.unitPrice.GetOr(it.unitPrice) == it.unitPrice &&
    p.supplier.GetOr(it.supplier) == it.supplier && p.lastUpdated.GetOr(it.lastUpdated) == it.lastUpdated &&
    p.businessType.GetOr(it.businessType) == it.businessType
  }

  /** `r` has every field the patch does not carry as `t` has it. */
  predicate KeepsOmittedTransaction(t: Transaction, r: Transaction, p: TransactionPatch) {
    (p.id.None? ==> r.id == t.id) && (p.kind.None? ==> r.kind == t.kind) &&
    (p.category.None? ==> r.category == t.category) && (p.description.None? ==> r.description == t.description) &&
    (p.amount.None? ==> r.amount == t.amount) && (p.date.None? ==> r.date == t.date) &&
    (p.businessType.None? ==> r.businessType == t.businessType)
  }

  /** `r` has every field the patch does not carry, the timestamp aside, as `it` has it. */
  predicate KeepsOmittedItem(it: InventoryItem, r: InventoryItem, p: InventoryPatch) {
    (p.id.None? ==> r.id == it.id) && (p.name.None? ==> r.name == it.name) &&
    (p.category.None? ==> r.category == it.category) && (p.quantity.None? ==> r.quantity == it.quantity) &&
    (p.minQuantity.None? ==> r.minQuantity == it.minQuantity) && (p.unitPrice.None? ==> r.unitPrice == it.unitPrice) &&
    (p.supplier.None? ==> r.supplier == it.supplier) && (p.businessType.None? ==> r.businessType == it.businessType)
  }

  /**
   * Shallow merge of a partial transaction into a stored one: every field the
   * patch carries wins, every other field keeps its stored value, and the merge
   * changes nothing exactly when the stored transaction already agrees with the patch.
   */
  function MergeTransaction(t: Transaction, p: TransactionPatch): (r: Transaction)
    ensures CarriesTransaction(r, p)
    ensures KeepsOmittedTransaction(t, r, p)
    ensures r == t <==> CarriesTransaction(t, p)
    ensures p.id.None? ==> r.id == t.id
  {
    Transaction(
      p.id.GetOr(t.id), p.kind.GetOr(t.kind), p.category.GetOr(t.category),
      p.description.GetOr(t.description), p.amount.GetOr(t.amount),
      p.date.GetOr(t.date), p.businessType.GetOr(t.businessType))
  }

  /**
   * Shallow merge of a partial item, after which the timestamp is overwritten
   * with the current time: the patch wins everywhere except on `lastUpdated`,
   * and every other field the patch does not carry keeps its stored value.
   */
  function MergeInventoryItem(item: InventoryItem, p: InventoryPatch, now: string): (r: InventoryItem)
    ensures r.lastUpdated == now && CarriesItem(r, p.(lastUpdated := None))
    ensures KeepsOmittedItem(item, r, p)
    ensures r == item <==> CarriesItem(item, p.(lastUpdated := Some(now)))
    ensures p.id.None? ==> r.id == item.id
  {
    InventoryItem(
      p.id.GetOr(item.id), p.name.GetOr(item.name), p.category.GetOr(item.category),
      p.quantity.GetOr(item.quantity), p.minQuantity.GetOr(item.minQuantity),
      p.unitPrice.GetOr(item.unitPrice), p.supplier.GetOr(item.supplier),
      now, p.businessType.GetOr(item.businessType))
  }

  /** The patch in which `q` wins over `p` wherever both carry a field. */
  function ThenTransactionPatch(p: TransactionPatch, q: TransactionPatch): TransactionPatch {
    TransactionPatch(
      if q.id.Some? then q.id else p.id,
      if q.kind.Some? then q.kind else p.kind,
      if q.category.Some? then q.category else p.category,
      if q.description.Some? then q.description else p.description,
      if q.amount.Some? then q.amount else p.amount,
      if q.date.Some? then q.date else p.date,
      if q.businessType.Some? then q.businessType else p.businessType)
  }

  /** An empty patch changes nothing, a patch applied twice acts once, and two patches in a row act as their combination. */
  lemma MergeTransactionLaws(t: Transaction, p: TransactionPatch, q: TransactionPatch)
    ensures MergeTransaction(t, EmptyTransactionPatch) == t
    ensures MergeTransaction(MergeTransaction(t, p), p) == MergeTransaction(t, p)
    ensures MergeTransaction(MergeTransaction(t, p), q) == MergeTransaction(t, ThenTransactionPatch(p, q))
  {
  }

  /** Whatever the patch says about `lastUpdated`, a merged item carries `now`; every other field follows the patch when present. */
  lemma MergeInventoryStamps(item: InventoryItem, p: InventoryPatch, now: string)
    ensures MergeInventoryItem(item, p, now).lastUpdated == now
    ensures MergeInventoryItem(item, p.(lastUpdated := None), now) == MergeInventoryItem(item, p, now)
    ensures MergeInventoryItem(item, EmptyInventoryPatch, now) == item.(lastUpdated := now)
  {
  }

  // ---------------------------------------------------------------------------
  // The list operations behind the mutators

  /** The list `updateTransaction` saves: every transaction with the given id is merged with the patch. */
  function UpdateTransactions(ts: seq<Transaction>, id: string, p: TransactionPatch): (r: seq<Transaction>)
    ensures |r| == |ts|
    ensures forall i :: 0 <= i < |ts| && ts[i].id != id ==> r[i] == ts[i]
    ensures forall i :: 0 <= i < |ts| && ts[i].id == id ==> r[i] == MergeTransaction(ts[i], p)
    ensures (forall t :: t in ts ==> t.id != id) ==> r == ts
  {
    MapWhere(ts, (t: Transaction) => t.id == id, (t: Transaction) => MergeTransaction(t, p))
  }

  /** The list `deleteTransaction` saves: every transaction with the given id is dropped. */
  function RemoveTransaction(ts: seq<Transaction>, id: string): (r: seq<Transaction>)
    ensures IsSubsequence(r, ts)
    ensures forall t :: t in r <==> t in ts && t.id != id
    ensures forall t :: multiset(r)[t] == if t.id != id then multiset(ts)[t] else 0
    ensures (forall t :: t in ts ==> t.id != id) ==> r == ts
  {
    var keep := (t: Transaction) => t.id != id;
    FilterIsSubsequence(ts, keep);
    FilterMultisets(ts, keep);
    FilterKeepsAll(ts, keep);
    Filter(ts, keep)
  }

  /** Deleting the same id a second time changes nothing. */
  lemma RemoveTransactionIdempotent(ts: seq<Transaction>, id: string)
    ensures RemoveTransaction(RemoveTransaction(ts, id), id) == RemoveTransaction(ts, id)
  {
  }

  /** Adding a transaction under an id no transaction has, then deleting that id, gives back the original list. */
  lemma AddThenDeleteTransaction(ts: seq<Transaction>, d: TransactionDraft, id: string)
    requires forall t :: t in ts ==> t.id != id
    ensures RemoveTransaction(ts + [NewTransaction(d, id)], id) == ts
  {
    var keep := (t: Transaction) => t.id != id;
    FilterAppend(ts, [NewTransaction(d, id)], keep);
    FilterKeepsAll(ts, keep);
    assert Filter([NewTransaction(d, id)], keep) == [];
  }

  /** The list `updateInventoryItem` saves: every item with the given id is merged and re-stamped. */
  function UpdateInventory(items: seq<InventoryItem>, id: string, p: InventoryPatch, now: string): (r: seq<InventoryItem>)
    ensures |r| == |items|
    ensures forall i :: 0 <= i < |items| && items[i].id != id ==> r[i] == items[i]
    ensures forall i :: 0 <= i < |items| && items[i].id == id ==> r[i] == MergeInventoryItem(items[i], p, now)
    ensures forall i :: 0 <= i < |items| && items[i].id == id ==> r[i].lastUpdated == now
    ensures (forall it :: it in items ==> it.id != id) ==> r == items
  {
    MapWhere(items, (it: InventoryItem) => it.id == id, (it: InventoryItem) => MergeInventoryItem(it, p, now))
  }

  /** The list `deleteInventoryItem` saves: every item with the given id is dropped. */
  function RemoveInventoryItem(items: seq<InventoryItem>, id: string): (r: seq<InventoryItem>)
    ensures IsSubsequence(r, items)
    ensures forall it :: it in r <==> it in items && it.id != id
    ensures forall it :: multiset(r)[it] == if it.id != id then multiset(items)[it] else 0
    ensures (forall it :: it in items ==> it.id != id) ==> r == items
  {
    var keep := (it: InventoryItem) => it.id != id;
    FilterIsSubsequence(items, keep);
    FilterMultisets(items, keep);
    FilterKeepsAll(items, keep);
    Filter(items, keep)
  }

  /** Deleting the same id a second time changes nothing. */
  lemma RemoveInventoryItemIdempotent(items: seq<InventoryItem>, id: string)
    ensures RemoveInventoryItem(RemoveInventoryItem(items, id), id) == RemoveInventoryItem(items, id)
  {
  }

  /** The transactions of one business, as `getBusinessTransactions` returns them. */
  function BusinessTransactions(ts: seq<Transaction>, b: Business): (r: seq<Transaction>)
    ensures IsSubsequence(r, ts)
    ensures forall t :: t in r <==> t in ts && t.businessType == b
    ensures forall t :: multiset(r)[t] == if t.businessType == b then multiset(ts)[t] else 0
  {
    FilterIsSubsequence(ts, (t: Transaction) => t.businessType == b);
    forall t ensures multiset(Filter(ts, (t: Transaction) => t.businessType == b))[t] == if t.businessType == b then multiset(ts)[t] else 0 {
      FilterMultiset(ts, (t: Transaction) => t.businessType == b, t);
    }
    Filter(ts, (t: Transaction) => t.businessType == b)
  }

  /** The inventory of one business, as `getBusinessInventory` returns it. */
  function BusinessInventory(items: seq<InventoryItem>, b: Business): (r: seq<InventoryItem>)
    ensures IsSubsequence(r, items)
    ensures forall it :: it in r <==> it in items && it.businessType == b
    ensures forall it :: multiset(r)[it] == if it.businessType == b then multiset(items)[it] else 0
  {
    FilterIsSubsequence(items, (it: InventoryItem) => it.businessType == b);
    forall it ensures multiset(Filter(items, (it: InventoryItem) => it.businessType == b))[it] == if it.businessType == b then multiset(items)[it] else 0 {
      FilterMultiset(items, (it: InventoryItem) => it.businessType == b, it);
    }
    Filter(items, (it: InventoryItem) => it.businessType == b)
  }

  // ---------------------------------------------------------------------------
  // The financial summary

  /** The calendar month a date falls in. */
  function PeriodOf(d: CalendarDate): Period {
    Period(d.year, d.month)
  }

  /** The calendar month after `p`. */
  function NextMonth(p: Period): Period {
    if p.month == 12 then Period(p.year + 1, 1) else Period(p.year, p.month + 1)
  }

  /**
   * The month the browser reports for a transaction's date-only string: the
   * string is parsed as midnight UTC and read back in the local zone, whose
   * offset from UTC is `offsetMinutes`. West of Greenwich the first of a month
   * reads as the last day of the previous month.
   */
  function ObservedPeriod(d: CalendarDate, offsetMinutes: int): (p: Period)
    requires -1440 < offsetMinutes < 1440
    ensures offsetMinutes >= 0 ==> p == PeriodOf(d)
    ensures 1 <= d.month <= 12 ==> 1 <= p.month <= 12 && (p == PeriodOf(d) || NextMonth(p) == PeriodOf(d))
  {
    if offsetMinutes < 0 && d.day == 1 then
      (if d.month == 1 then Period(d.year - 1, 12) else Period(d.year, d.month - 1))
    else PeriodOf(d)
  }

  /** The observed month is the calendar month exactly when the zone is not west of UTC or the day is not the first. */
  lemma ObservedPeriodShift(d: CalendarDate, offsetMinutes: int)
    requires -1440 < offsetMinutes < 1440
    requires 1 <= d.month <= 12
    ensures ObservedPeriod(d, offsetMinutes) == PeriodOf(d) <==> offsetMinutes >= 0 || d.day != 1
  {
  }

  /** In Brasilia time (UTC-3) a sale dated 2024-03-01 is counted as a February sale. */
  lemma ObservedPeriodFirstOfMarch()
    ensures ObservedPeriod(CalendarDate(2024, 3, 1), -180) == Period(2024, 2)
    ensures PeriodOf(CalendarDate(2024, 3, 1)) == Period(2024, 3)
  {
  }

  /** Which transactions one summary figure adds up: one business, one kind, optionally one month. */
  datatype Selector = Selector(business: Business, kind: Kind, period: Option<Period>) {
    predicate Selects(t: Transaction) {
      t.businessType == business && t.kind == kind && (period.None? || PeriodOf(t.date) == period.value)
    }
  }

  /** Reference definition: the amounts of the selected transactions, added up in one pass. */
  function SumSelected(ts: seq<Transaction>, sel: Selector): int {
    if ts == [] then 0
    else (if sel.Selects(ts[0]) then ts[0].amount else 0) + SumSelected(ts[1..], sel)
  }

  /** Reference definition: all amounts of a list added up. */
  function SumAmounts(ts: seq<Transaction>): int {
    if ts == [] then 0 else ts[0].amount + SumAmounts(ts[1..])
  }

  /** How the provider adds up a list of amounts: a left-to-right running total started at `acc`. */
  function ReduceAmounts(acc: int, ts: seq<Transaction>): (total: int)
    ensures (forall i :: 0 <= i < |ts| ==> ts[i].amount >= 0) ==> total >= acc
    decreases |ts|
  {
    if ts == [] then acc else ReduceAmounts(acc + ts[0].amount, ts[1..])
  }

  /** The running total started at `acc` is `acc` plus the sum of the amounts. */
  lemma {:induction false} ReduceIsSum(acc: int, ts: seq<Transaction>)
    ensures ReduceAmounts(acc, ts) == acc + SumAmounts(ts)
    decreases |ts|
  {
    if ts != [] {
      ReduceIsSum(acc + ts[0].amount, ts[1..]);
    }
  }

  /** Summing what a filter keeps is the one-pass conditional sum. */
  lemma {:induction false} SumOfFilter(ts: seq<Transaction>, keep: Transaction -> bool, sel: Selector)
    requires forall t :: keep(t) == sel.Selects(t)
    ensures SumAmounts(Filter(ts, keep)) == SumSelected(ts, sel)
  {
    if ts != [] {
      SumOfFilter(ts[1..], keep, sel);
    }
  }

  /** The provider's way to a summary figure: filter by business, filter by `keep`, then reduce from 0. */
  lemma SummedPipeline(ts: seq<Transaction>, b: Business, keep: Transaction -> bool, sel: Selector)
    requires forall t: Transaction :: (t.businessType == b && keep(t)) == sel.Selects(t)
    ensures ReduceAmounts(0, Filter(Filter(ts, (t: Transaction) => t.businessType == b), keep)) == SumSelected(ts, sel)
  {
    var both := (t: Transaction) => sel.Selects(t);
    FilterFilter(ts, (t: Transaction) => t.businessType == b, keep, both);
    ReduceIsSum(0, Filter(ts, both));
    SumOfFilter(ts, both, sel);
  }

  datatype Summary = Summary(
    totalIncome: int,
    totalExpenses: int,
    profit: int,
    monthlyIncome: int,
    monthlyExpenses: int)

  /**
   * The summary `getFinancialSummary` reports for one business, with the current month passed in as
   * `current`: each figure is computed the way the provider computes it, by
   * filtering the business's transactions and reducing their amounts.
   */
  function FinancialSummary(ts: seq<Transaction>, b: Business, current: Period): (s: Summary)
    ensures s.totalIncome == SumSelected(ts, Selector(b, Income, None))
    ensures s.totalExpenses == SumSelected(ts, Selector(b, Expense, None))
    ensures s.profit == s.totalIncome - s.totalExpenses
    ensures s.monthlyIncome == SumSelected(ts, Selector(b, Income, Some(current)))
    ensures s.monthlyExpenses == SumSelected(ts, Selector(b, Expense, Some(current)))
  {
    var isIncome := (t: Transaction) => t.kind == Income;
    var isExpense := (t: Transaction) => t.kind == Expense;
    var incomeNow := (t: Transaction) => t.kind == Income && PeriodOf(t.date) == current;
    var expenseNow := (t: Transaction) => t.kind == Expense && PeriodOf(t.date) == current;
    SummedPipeline(ts, b, isIncome, Selector(b, Income, None));
    SummedPipeline(ts, b, isExpense, Selector(b, Expense, None));
    SummedPipeline(ts, b, incomeNow, Selector(b, Income, Some(current)));
    SummedPipeline(ts, b, expenseNow, Selector(b, Expense, Some(current)));
    var business := Filter(ts, (t: Transaction) => t.businessType == b);
    var totalIncome := ReduceAmounts(0, Filter(business, isIncome));
    var totalExpenses := ReduceAmounts(0, Filter(business, isExpense));
    Summary(
      totalIncome,
      totalExpenses,
      totalIncome - totalExpenses,
      ReduceAmounts(0, Filter(business, incomeNow)),
      ReduceAmounts(0, Filter(business, expenseNow)))
  }

  /** The selected sum of a concatenation is the sum of the parts' selected sums. */
  lemma {:induction false} SumSelectedAppend(a: seq<Transaction>, b: seq<Transaction>, sel: Selector)
    ensures SumSelected(a + b, sel) == SumSelected(a, sel) + SumSelected(b, sel)
  {
    if a == [] {
      assert a + b == b;
    } else {
      assert (a + b)[1..] == a[1..] + b;
      SumSelectedAppend(a[1..], b, sel);
    }
  }

  /** A list of transactions none of which is selected sums to zero. */
  lemma {:induction false} SumSelectedNone(ts: seq<Transaction>, sel: Selector)
    requires forall t :: t in ts ==> !sel.Selects(t)
    ensures SumSelected(ts, sel) == 0
  {
    if ts != [] {
      SumSelectedNone(ts[1..], sel);
    }
  }

  /** A transaction of another business, inserted anywhere, changes no figure of the summary. */
  lemma OtherBusinessIgnored(a: seq<Transaction>, t: Transaction, c: seq<Transaction>, b: Business, current: Period)
    requires t.businessType != b
    ensures FinancialSummary(a + [t] + c, b, current) == FinancialSummary(a + c, b, current)
  {
    forall sel: Selector | sel.business == b
      ensures SumSelected(a + [t] + c, sel) == SumSelected(a + c, sel)
    {
      SumSelectedAppend(a + [t], c, sel);
      SumSelectedAppend(a, [t], sel);
      SumSelectedAppend(a, c, sel);
    }
  }

  /** Only the business's own transactions matter: summarising its list alone gives the same figures. */
  lemma {:induction false} SummaryOfOwnTransactions(ts: seq<Transaction>, b: Business, current: Period)
    ensures FinancialSummary(BusinessTransactions(ts, b), b, current) == FinancialSummary(ts, b, current)
  {
    forall sel: Selector | sel.business == b
      ensures SumSelected(BusinessTransactions(ts, b), sel) == SumSelected(ts, sel)
    {
      OwnTransactionsSum(ts, b, sel);
    }
  }

  lemma {:induction false} OwnTransactionsSum(ts: seq<Transaction>, b: Business, sel: Selector)
    requires sel.business == b
    ensures SumSelected(Filter(ts, (t: Transaction) => t.businessType == b), sel) == SumSelected(ts, sel)
  {
    if ts != [] {
      OwnTransactionsSum(ts[1..], b, sel);
    }
  }

  /** With non-negative amounts, what came in (went out) this month never exceeds the total. */
  lemma {:induction false} MonthlyAtMostTotal(ts: seq<Transaction>, k: Kind, b: Business, current: Period)
    requires forall t :: t in ts ==> t.amount >= 0
    ensures SumSelected(ts, Selector(b, k, Some(current))) <= SumSelected(ts, Selector(b, k, None))
  {
    if ts != [] {
      MonthlyAtMostTotal(ts[1..], k, b, current);
    }
  }

  /** Both monthly figures of a summary are bounded by the matching totals when no amount is negative. */
  lemma SummaryMonthlyBounded(ts: seq<Transaction>, b: Business, current: Period)
    requires forall t :: t in ts ==> t.amount >= 0
    ensures FinancialSummary(ts, b, current).monthlyIncome <= FinancialSummary(ts, b, current).totalIncome
    ensures FinancialSummary(ts, b, current).monthlyExpenses <= FinancialSummary(ts, b, current).totalExpenses
  {
    MonthlyAtMostTotal(ts, Income, b, current);
    MonthlyAtMostTotal(ts, Expense, b, current);
  }

  /** Appending one transaction adds its amount to exactly the sums that select it. */
  lemma AppendOne(ts: seq<Transaction>, t: Transaction, sel: Selector)
    ensures SumSelected(ts + [t], sel) == SumSelected(ts, sel) + (if sel.Selects(t) then t.amount else 0)
  {
    SumSelectedAppend(ts, [t], sel);
    assert [t][1..] == [];
  }

  /**
   * Adding one income of the business moves the total income (and the profit)
   * by its amount; the monthly income moves too exactly when it is dated in
   * the current month. Expenses are untouched.
   */
  lemma AddedIncome(ts: seq<Transaction>, t: Transaction, b: Business, current: Period)
    requires t.businessType == b && t.kind == Income
    ensures var before, after := FinancialSummary(ts, b, current), FinancialSummary(ts + [t], b, current);
      after.totalIncome == before.totalIncome + t.amount &&
      after.profit == before.profit + t.amount &&
      after.totalExpenses == before.totalExpenses &&
      after.monthlyExpenses == before.monthlyExpenses &&
      after.monthlyIncome == before.monthlyIncome + (if PeriodOf(t.date) == current then t.amount else 0)
  {
    AppendOne(ts, t, Selector(b, Income, None));
    AppendOne(ts, t, Selector(b, Expense, None));
    AppendOne(ts, t, Selector(b, Income, Some(current)));
    AppendOne(ts, t, Selector(b, Expense, Some(current)));
  }

  /** Adding one expense of the business is the mirror image: the profit drops by its amount. */
  lemma AddedExpense(ts: seq<Transaction>, t: Transaction, b: Business, current: Period)
    requires t.businessType == b && t.kind == Expense
    ensures var before, after := FinancialSummary(ts, b, current), FinancialSummary(ts + [t], b, current);
      after.totalExpenses == before.totalExpenses + t.amount &&
      after.profit == before.profit - t.amount &&
      after.totalIncome == before.totalIncome &&
      after.monthlyIncome == before.monthlyIncome &&
      after.monthlyExpenses == before.monthlyExpenses + (if PeriodOf(t.date) == current then t.amount else 0)
  {
    AppendOne(ts, t, Selector(b, Income, None));
    AppendOne(ts, t, Selector(b, Expense, None));
    AppendOne(ts, t, Selector(b, Income, Some(current)));
    AppendOne(ts, t, Selector(b, Expense, Some(current)));
  }

  /** An income of 100 and an expense of 40 give a profit of 60. */
  lemma SummaryExample(d: CalendarDate, b: Business)
    ensures var ts := [Transaction("1", Income, "Cortes", "", 100, d, b), Transaction("2", Expense, "Aluguel", "", 40, d, b)];
      var s := FinancialSummary(ts, b, PeriodOf(d));
      s.totalIncome == 100 && s.totalExpenses == 40 && s.profit == 60 &&
      s.monthlyIncome == 100 && s.monthlyExpenses == 40
  {
    var income := Transaction("1", Income, "Cortes", "", 100, d, b);
    var expense := Transaction("2", Expense, "Aluguel", "", 40, d, b);
    assert [income, expense] == [income] + [expense];
    AddedExpense([income], expense, b, PeriodOf(d));
    AddedIncome([], income, b, PeriodOf(d));
    assert [] + [income] == [income];
  }

  // ---------------------------------------------------------------------------
  // The provider's state

  /**
   * The ledger provider: its two lists and the part of browser storage it
   * owns. Each mutator computes the new list, keeps it in memory and writes
   * it under its storage key.
   */
  class FinancialStore {
    var transactions: seq<Transaction>
    var inventory: seq<InventoryItem>
    var storage: map<string, Saved>

    /** The stored transaction list is the one in memory. */
    ghost predicate TransactionsPersisted()
      reads this
    {
      TransactionsKey in storage && storage[TransactionsKey] == SavedTransactions(transactions)
    }

    /** The stored inventory list is the one in memory. */
    ghost predicate InventoryPersisted()
      reads this
    {
      InventoryKey in storage && storage[InventoryKey] == SavedInventory(inventory)
    }

    /** Mounting: both lists start empty and a saved list, when present, replaces the empty one. */
    constructor Load(saved: map<string, Saved>)
      ensures storage == saved
      ensures transactions == if TransactionsKey in saved && saved[TransactionsKey].SavedTransactions?
                              then saved[TransactionsKey].transactions else []
      ensures inventory == if InventoryKey in saved && saved[InventoryKey].SavedInventory?
                           then saved[InventoryKey].items else []
      ensures TransactionsKey in saved && saved[TransactionsKey].SavedTransactions? ==> TransactionsPersisted()
      ensures InventoryKey in saved && saved[InventoryKey].SavedInventory? ==> InventoryPersisted()
    {
      transactions := [];
      inventory := [];
      storage := saved;
      if TransactionsKey in saved && saved[TransactionsKey].SavedTransactions? {
        transactions := saved[TransactionsKey].transactions;
      }
      if InventoryKey in saved && saved[InventoryKey].SavedInventory? {
        inventory := saved[InventoryKey].items;
      }
    }

    /** Replace the transaction list and write it to storage. */
    method SaveTransactions(ts: seq<Transaction>)
      modifies this
      ensures transactions == ts && inventory == old(inventory)
      ensures storage == old(storage)[TransactionsKey := SavedTransactions(ts)]
      ensures TransactionsPersisted()
    {
      transactions := ts;
      storage := storage[TransactionsKey := SavedTransactions(ts)];
    }

    /** Replace the inventory list and write it to storage. */
    method SaveInventory(items: seq<InventoryItem>)
      modifies this
      ensures inventory == items && transactions == old(transactions)
      ensures storage == old(storage)[InventoryKey := SavedInventory(items)]
      ensures InventoryPersisted()
    {
      inventory := items;
      storage := storage[InventoryKey := SavedInventory(items)];
    }

    /** `addTransaction` with the generated id `id`: one new transaction at the end. */
    method AddTransaction(d: TransactionDraft, id: string)
      modifies this
      ensures transactions == old(transactions) + [NewTransaction(d, id)]
      ensures |transactions| == |old(transactions)| + 1
      ensures transactions[..|old(transactions)|] == old(transactions)
      ensures inventory == old(inventory)
      ensures storage == old(storage)[TransactionsKey := SavedTransactions(transactions)]
    {
      SaveTransactions(transactions + [NewTransaction(d, id)]);
    }

    method UpdateTransaction(id: string, p: TransactionPatch)
      modifies this
      ensures transactions == UpdateTransactions(old(transactions), id, p)
      ensures |transactions| == |old(transactions)|
      ensures forall i :: 0 <= i < |transactions| ==>
        transactions[i] == if old(transactions)[i].id == id then MergeTransaction(old(transactions)[i], p) else old(transactions)[i]
      ensures inventory == old(inventory)
      ensures storage == old(storage)[TransactionsKey := SavedTransactions(transactions)]
    {
      SaveTransactions(UpdateTransactions(transactions, id, p));
    }

    method DeleteTransaction(id: string)
      modifies this
      ensures transactions == RemoveTransaction(old(transactions), id)
      ensures forall t :: t in transactions <==> t in old(transactions) && t.id != id
      ensures inventory == old(inventory)
      ensures storage == old(storage)[TransactionsKey := SavedTransactions(transactions)]
    {
      SaveTransactions(RemoveTransaction(transactions, id));
    }

    /** `addInventoryItem` with the generated id `id` at time `now`. */
    method AddInventoryItem(d: InventoryDraft, id: string, now: string)
      modifies this
      ensures inventory == old(inventory) + [NewInventoryItem(d, id, now)]
      ensures inventory[|old(inventory)|].lastUpdated == now
      ensures transactions == old(transactions)
      ensures storage == old(storage)[InventoryKey := SavedInventory(inventory)]
    {
      SaveInventory(inventory + [NewInventoryItem(d, id, now)]);
    }

    /** `updateInventoryItem` at time `now`. */
    method UpdateInventoryItem(id: string, p: InventoryPatch, now: string)
      modifies this
      ensures inventory == UpdateInventory(old(inventory), id, p, now)
      ensures forall i :: 0 <= i < |inventory| && old(inventory)[i].id == id ==> inventory[i].lastUpdated == now
      ensures transactions == old(transactions)
      ensures storage == old(storage)[InventoryKey := SavedInventory(inventory)]
    {
      SaveInventory(UpdateInventory(inventory, id, p, now));
    }

    method DeleteInventoryItem(id: string)
      modifies this
      ensures inventory == RemoveInventoryItem(old(inventory), id)
      ensures forall it :: it in inventory <==> it in old(inventory) && it.id != id
      ensures transactions == old(transactions)
      ensures storage == old(storage)[InventoryKey := SavedInventory(inventory)]
    {
      SaveInventory(RemoveInventoryItem(inventory, id));
    }

    /** The transactions of one business, in insertion order. */
    function GetBusinessTransactions(b: Business): (r: seq<Transaction>)
      reads this
      ensures IsSubsequence(r, transactions)
      ensures forall t :: t in r <==> t in transactions && t.businessType == b
      ensures forall t :: multiset(r)[t] == if t.businessType == b then multiset(transactions)[t] else 0
    {
      BusinessTransactions(transactions, b)
    }

    /** The inventory items of one business, in insertion order. */
    function GetBusinessInventory(b: Business): (r: seq<InventoryItem>)
      reads this
      ensures IsSubsequence(r, inventory)
      ensures forall it :: it in r <==> it in inventory && it.businessType == b
      ensures forall it :: multiset(r)[it] == if it.businessType == b then multiset(inventory)[it] else 0
    {
      BusinessInventory(inventory, b)
    }

    /** The summary of one business for the current month `current`. */
    function GetFinancialSummary(b: Business, current: Period): (s: Summary)
      reads this
      ensures s.profit == s.totalIncome - s.totalExpenses
      ensures s.totalIncome == SumSelected(transactions, Selector(b, Income, None))
      ensures s.totalExpenses == SumSelected(transactions, Selector(b, Expense, None))
      ensures s.monthlyIncome == SumSelected(transactions, Selector(b, Income, Some(current)))
      ensures s.monthlyExpenses == SumSelected(transactions, Selector(b, Expense, Some(current)))
    {
      FinancialSummary(transactions, b, current)
    }
  }
}
