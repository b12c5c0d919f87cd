/**
 * The rules of the financial dashboard of one business: which inventory items
 * raise a low-stock alert, the status badge of each item, the category
 * options of the forms, and which ledger operation a form submission calls.
 */
module Dashboard {
  import opened Wrappers
  import opened Seqs
  import opened Finance

  // ---------------------------------------------------------------------------
  // Stock status

  datatype StockStatus = Critical | Low | Normal

  /** The status column: critical at or below the minimum, low up to twice the minimum, normal above. */
  function StatusOf(item: InventoryItem): (s: StockStatus)
    ensures s == Critical <==> item.quantity <= item.minQuantity
    ensures s == Low <==> item.minQuantity < item.quantity <= 2 * item.minQuantity
    ensures s == Normal <==> item.minQuantity < item.quantity && 2 * item.minQuantity < item.quantity
  {
    if item.quantity <= item.minQuantity then Critical
    else if item.quantity <= item.minQuantity * 2 then Low
    else Normal
  }

  /** The text of the status badge. */
  function StatusLabel(s: StockStatus): (text: string)
    ensures text == "Crítico" <==> s == Critical
    ensures text == "Baixo" <==> s == Low
    ensures text == "Normal" <==> s == Normal
  {
    match s
    case Critical => "Crítico"
    case Low => "Baixo"
    case Normal => "Normal"
  }

  /** The colour classes each status is drawn with. */
  function StatusColour(s: StockStatus): string {
    match s
    case Critical => "bg-red-100 text-red-800"
    case Low => "bg-yellow-100 text-yellow-800"
    case Normal => "bg-green-100 text-green-800"
  }

  /** The badge's colour classes, chosen by their own comparison of quantity and minimum. */
  function BadgeColour(item: InventoryItem): (colour: string)
    ensures colour == "bg-red-100 text-red-800" <==> item.quantity <= item.minQuantity
    ensures colour == "bg-yellow-100 text-yellow-800" <==> item.minQuantity < item.quantity <= 2 * item.minQuantity
    ensures colour == "bg-green-100 text-green-800" <==> 2 * item.minQuantity < item.quantity && item.minQuantity < item.quantity
  {
    if item.quantity <= item.minQuantity then "bg-red-100 text-red-800"
    else if item.quantity <= item.minQuantity * 2 then "bg-yellow-100 text-yellow-800"
    else "bg-green-100 text-green-800"
  }

  /** The badge's colour always matches its label: both are the same three-way decision. */
  lemma BadgeMatchesStatus(item: InventoryItem)
    ensures BadgeColour(item) == StatusColour(StatusOf(item))
  {
  }

  /** The three labels are distinct, so the label alone tells the status. */
  lemma StatusLabelsDistinct(s: StockStatus, u: StockStatus)
    ensures StatusLabel(s) == StatusLabel(u) <==> s == u
  {
  }

  /** The items of the low-stock alert: those at or below their minimum, in inventory order. */
  function LowStockItems(inventory: seq<InventoryItem>): (r: seq<InventoryItem>)
    ensures IsSubsequence(r, inventory)
    ensures forall it :: it in r <==> it in inventory && it.quantity <= it.minQuantity
    ensures forall it :: it in r <==> it in inventory && StatusOf(it) == Critical
    ensures forall it :: multiset(r)[it] == if it.quantity <= it.minQuantity then multiset(inventory)[it] else 0
  {
    var critical := (it: InventoryItem) => it.quantity <= it.minQuantity;
    FilterIsSubsequence(inventory, critical);
    FilterMultisets(inventory, critical);
    Filter(inventory, critical)
  }

  /** On the dashboard of business `b`, an item is in the alert exactly when it is one of b's items and its badge says critical. */
  lemma AlertOfBusiness(all: seq<InventoryItem>, b: Business, it: InventoryItem)
    ensures it in LowStockItems(BusinessInventory(all, b)) <==>
            it in all && it.businessType == b && StatusLabel(StatusOf(it)) == "Crítico"
  {
  }

  // ---------------------------------------------------------------------------
  // Category options of the forms

  /** Income categories offered for each business. */
  function IncomeCategories(b: Business): (r: seq<string>)
    ensures |r| == if b == Barbershop then 4 else 5
    ensures "Produtos" in r && "Outros" in r && r[|r| - 1] == "Outros"
  {
    if b == Barbershop then ["Cortes", "Barba", "Produtos", "Outros"]
    else ["Lavagem", "Enceramento", "Troca de Óleo", "Produtos", "Outros"]
  }

  /** Expense categories, the same for both businesses. */
  const ExpenseCategories: seq<string> := ["Aluguel", "Produtos", "Equipamentos", "Marketing", "Outros"]

  /** The options of the category select: income categories of the business, or the expense list. */
  function CategoryOptions(b: Business, k: Kind): (r: seq<string>)
    ensures k == Expense ==> r == ExpenseCategories && |r| == 5
    ensures k == Income ==> |r| == (if b == Barbershop then 4 else 5)
    ensures "Outros" in r
  {
    if k == Income then IncomeCategories(b) else ExpenseCategories
  }

  /** Inventory categories offered for each business. */
  function InventoryCategories(b: Business): (r: seq<string>)
    ensures |r| == if b == Barbershop then 5 else 6
    ensures "Ferramentas" in r && r[|r| - 1] == "Outros"
  {
    if b == Barbershop then ["Produtos para Cabelo", "Produtos para Barba", "Ferramentas", "Higiene", "Outros"]
    else ["Produtos de Limpeza", "Óleos", "Filtros", "Ceras", "Ferramentas", "Outros"]
  }

  // ---------------------------------------------------------------------------
  // Form submission

  /** The transaction form's fields, the amount already parsed. */
  datatype TransactionForm = TransactionForm(
    kind: Kind,
    category: string,
    description: string,
    amount: int,
    date: CalendarDate)

  /** The inventory form's fields, the numbers already parsed. */
  datatype InventoryForm = InventoryForm(
    name: string,
    category: string,
    quantity: int,
    minQuantity: int,
    unitPrice: int,
    supplier: string)

  /** The ledger operation a submission calls. */
  datatype LedgerCall =
    | AddTransactionCall(draft: TransactionDraft)
    | UpdateTransactionCall(transactionId: string, patch: TransactionPatch)
    | AddInventoryCall(itemDraft: InventoryDraft)
    | UpdateInventoryCall(itemId: string, itemPatch: InventoryPatch)

  /** Submitting the transaction form: update the transaction being edited, or add a new one; both tagged with the dashboard's business. */
  function SubmitTransaction(editing: Option<Transaction>, form: TransactionForm, b: Business): (c: LedgerCall)
    ensures c.UpdateTransactionCall? <==> editing.Some?
    ensures c.AddTransactionCall? <==> editing.None?
    ensures c.UpdateTransactionCall? ==> c.transactionId == editing.value.id && c.patch.businessType == Some(b) && c.patch.id.None?
    ensures c.AddTransactionCall? ==> c.draft.businessType == b && c.draft.amount == form.amount && c.draft.kind == form.kind
  {
    match editing
    case Some(t) =>
      UpdateTransactionCall(t.id, TransactionPatch(None, Some(form.kind), Some(form.category),
        Some(form.description), Some(form.amount), Some(form.date), Some(b)))
    case None =>
      AddTransactionCall(TransactionDraft(form.kind, form.category, form.description, form.amount, form.date, b))
  }

  /** Submitting the inventory form: update the item being edited, or add a new one; both tagged with the dashboard's business. */
  function SubmitInventory(editing: Option<InventoryItem>, form: InventoryForm, b: Business): (c: LedgerCall)
    ensures c.UpdateInventoryCall? <==> editing.Some?
    ensures c.AddInventoryCall? <==> editing.None?
    ensures c.UpdateInventoryCall? ==> c.itemId == editing.value.id && c.itemPatch.businessType == Some(b) && c.itemPatch.id.None? && c.itemPatch.lastUpdated.None?
    ensures c.AddInventoryCall? ==> c.itemDraft.businessType == b && c.itemDraft.quantity == form.quantity && c.itemDraft.minQuantity == form.minQuantity
  {
    match editing
    case Some(it) =>
      UpdateInventoryCall(it.id, InventoryPatch(None, Some(form.name), Some(form.category), Some(form.quantity),
        Some(form.minQuantity), Some(form.unitPrice), Some(form.supplier), None, Some(b)))
    case None =>
      AddInventoryCall(InventoryDraft(form.name, form.category, form.quantity, form.minQuantity, form.unitPrice, form.supplier, b))
  }

  /** The transaction a submission leaves behind: the form's fields and the business, under the edited id or the new one. */
  function FormTransaction(id: string, form: TransactionForm, b: Business): Transaction {
    Transaction(id, form.kind, form.category, form.description, form.amount, form.date, b)
  }

  /** The item a submission leaves behind at time `now`. */
  function FormItem(id: string, form: InventoryForm, b: Business, now: string): InventoryItem {
    InventoryItem(id, form.name, form.category, form.quantity, form.minQuantity, form.unitPrice, form.supplier, now, b)
  }

  /** Editing keeps only the id of the old transaction: every other field comes from the form. */
  lemma EditedTransactionIsForm(t: Transaction, form: TransactionForm, b: Business)
    ensures MergeTransaction(t, SubmitTransaction(Some(t), form, b).patch) == FormTransaction(t.id, form, b)
  {
  }

  /** Editing keeps only the id of the old item: every other field comes from the form, the timestamp from the clock. */
  lemma EditedItemIsForm(it: InventoryItem, form: InventoryForm, b: Business, now: string)
    ensures MergeInventoryItem(it, SubmitInventory(Some(it), form, b).itemPatch, now) == FormItem(it.id, form, b, now)
  {
  }

  /**
   * The transaction form's submit handler, run against the ledger: `freshId`
   * is the id generated for a new transaction.
   */
  method SubmitTransactionForm(store: FinancialStore, editing: Option<Transaction>, form: TransactionForm, b: Business, freshId: string)
    modifies store
    ensures editing.None? ==> store.transactions == old(store.transactions) + [FormTransaction(freshId, form, b)]
    ensures editing.Some? ==> |store.transactions| == |old(store.transactions)|
    ensures editing.Some? ==> forall i :: 0 <= i < |store.transactions| ==>
      store.transactions[i] == if old(store.transactions)[i].id == editing.value.id
                               then FormTransaction(editing.value.id, form, b) else old(store.transactions)[i]
    ensures store.inventory == old(store.inventory)
    ensures store.storage == old(store.storage)[TransactionsKey := SavedTransactions(store.transactions)]
    ensures store.TransactionsPersisted()
  {
    var call := SubmitTransaction(editing, form, b);
    match call
    case UpdateTransactionCall(id, patch) =>
      store.UpdateTransaction(id, patch);
    case AddTransactionCall(draft) =>
      store.AddTransaction(draft, freshId);
  }

  /**
   * The inventory form's submit handler, run against the ledger at time `now`:
   * `freshId` is the id generated for a new item.
   */
  method SubmitInventoryForm(store: FinancialStore, editing: Option<InventoryItem>, form: InventoryForm, b: Business, freshId: string, now: string)
    modifies store
    ensures editing.None? ==> store.inventory == old(store.inventory) + [FormItem(freshId, form, b, now)]
    ensures editing.Some? ==> |store.inventory| == |old(store.inventory)|
    ensures editing.Some? ==> forall i :: 0 <= i < |store.inventory| ==>
      store.inventory[i] == if old(store.inventory)[i].id == editing.value.id
                            then FormItem(editing.value.id, form, b, now) else old(store.inventory)[i]
    ensures store.transactions == old(store.transactions)
    ensures store.storage == old(store.storage)[InventoryKey := SavedInventory(store.inventory)]
    ensures store.InventoryPersisted()
  {
    var call := SubmitInventory(editing, form, b);
    match call
    case UpdateInventoryCall(id, patch) =>
      store.UpdateInventoryItem(id, patch, now);
    case AddInventoryCall(draft) =>
      store.AddInventoryItem(draft, freshId, now);
  }
}
