/** The invoice list of the accounting page: the status tabs and their counts,
    the mobile filter chips, the buttons each invoice offers, what each button
    handler does, and the status badge colour. */
module InvoiceList {
  import opened Common
  import opened Text

  /** The fields of an invoice the list reads. */
  datatype Invoice = Invoice(id: string, number: string, client: string, status: string, amount: real, date: string)

  /** The rows shown under a tab: every invoice for `'all'`, otherwise those whose status equals the tab key. */
  function FilteredInvoices(invoices: seq<Invoice>, activeTab: string): (r: seq<Invoice>)
    ensures activeTab == "all" ==> r == invoices
    ensures |r| <= |invoices|
  {
    if activeTab == "all" then invoices else Filter(invoices, (i: Invoice) => i.status == activeTab)
  }

  /** A tab shows, in list order, exactly the invoices it selects. */
  lemma FilteredInvoicesSpec(invoices: seq<Invoice>, activeTab: string)
    ensures IsSubsequence(FilteredInvoices(invoices, activeTab), invoices)
    ensures forall i :: i in FilteredInvoices(invoices, activeTab) <==>
      i in invoices && (activeTab == "all" || i.status == activeTab)
  {
    if activeTab == "all" {
      SubsequenceReflexive(invoices);
    } else {
      FilterSubsequence(invoices, (i: Invoice) => i.status == activeTab);
      FilterMembership(invoices, (i: Invoice) => i.status == activeTab);
    }
  }

  /** The number of invoices with exactly this status. */
  function StatusCount(invoices: seq<Invoice>, status: string): nat {
    |Filter(invoices, (i: Invoice) => i.status == status)|
  }

  /** One entry of `filterOptions` (the icon is left out; `caption` is the option's label). */
  datatype FilterOption = FilterOption(key: string, caption: string, count: nat)

  function FilterOptions(invoices: seq<Invoice>): (r: seq<FilterOption>)
    ensures |r| == 4
    ensures [r[0].key, r[1].key, r[2].key, r[3].key] == ["all", "pending", "paid", "overdue"]
    ensures [r[0].caption, r[1].caption, r[2].caption, r[3].caption] == ["All Invoices", "Pending", "Paid", "Overdue"]
  {
    [ FilterOption("all", "All Invoices", |invoices|),
      FilterOption("pending", "Pending", StatusCount(invoices, "pending")),
      FilterOption("paid", "Paid", StatusCount(invoices, "paid")),
      FilterOption("overdue", "Overdue", StatusCount(invoices, "overdue")) ]
  }

  /** Each tab's badge count is the number of rows that tab shows. */
  lemma FilterOptionCountsMatchRows(invoices: seq<Invoice>)
    ensures forall o :: o in FilterOptions(invoices) ==> o.count == |FilteredInvoices(invoices, o.key)|
  {
  }

  /** The three status counts never exceed the total, and reach it exactly when every
      invoice is pending, paid or overdue (a draft, or a status in another letter case,
      is counted only under 'All Invoices'). */
  lemma StatusCountsWithinTotal(invoices: seq<Invoice>)
    ensures var o := FilterOptions(invoices); o[1].count + o[2].count + o[3].count <= o[0].count
    ensures var o := FilterOptions(invoices); o[1].count + o[2].count + o[3].count == o[0].count <==>
      forall i :: i in invoices ==> i.status in {"pending", "paid", "overdue"}
  {
    FilterDisjointLength(invoices,
      (i: Invoice) => i.status == "pending", (i: Invoice) => i.status == "paid", (i: Invoice) => i.status == "overdue");
  }

  // ---------------------------------------------------------------------------
  // Tab and chip state

  /** The expanded chip after a tap on chip `key`: on mobile a tap on the expanded chip
      collapses it and a tap on any other chip expands that one; off mobile nothing changes. */
  function NextExpanded(expanded: Option<string>, key: string, isMobile: bool): (r: Option<string>)
    ensures !isMobile ==> r == expanded
    ensures isMobile ==> (r == None <==> expanded == Some(key))
    ensures isMobile && r.Some? ==> r.value == key
  {
    if !isMobile then expanded
    else if expanded == Some(key) then None
    else Some(key)
  }

  /** Two taps on the same chip leave it expanded only if it was expanded before. */
  lemma TwoTapsOnOneChip(expanded: Option<string>, key: string)
    ensures NextExpanded(NextExpanded(expanded, key, true), key, true) ==
      (if expanded == Some(key) then expanded else None)
  {
  }

  /** The list's component state: the active tab, the expanded chip, the invoice in the view dialog. */
  class InvoiceListState {
    var activeTab: string
    var expandedFilter: Option<string>
    var selectedInvoice: Option<Invoice>
    var viewDialogOpen: bool

    /** On mobile, the expanded chip (if any) is the active tab's. */
    predicate ExpandedIsActive()
      reads this
    {
      expandedFilter.None? || expandedFilter.value == activeTab
    }

    constructor ()
      ensures activeTab == "all" && expandedFilter == None
      ensures selectedInvoice == None && !viewDialogOpen
      ensures ExpandedIsActive()
    {
      activeTab := "all";
      expandedFilter := None;
      selectedInvoice := None;
      viewDialogOpen := false;
    }

    /** `handleFilterClick`: the tapped key becomes the active tab; on mobile the chip toggles. */
    method HandleFilterClick(key: string, isMobile: bool)
      modifies this
      ensures activeTab == key
      ensures expandedFilter == NextExpanded(old(expandedFilter), key, isMobile)
      ensures selectedInvoice == old(selectedInvoice) && viewDialogOpen == old(viewDialogOpen)
      ensures isMobile ==> ExpandedIsActive()
    {
      activeTab := key;
      if isMobile {
        if expandedFilter == Some(key) {
          expandedFilter := None;
        } else {
          expandedFilter := Some(key);
        }
      }
    }

    /** A desktop tab button: only the active tab changes. */
    method SelectTab(key: string)
      modifies this
      ensures activeTab == key
      ensures expandedFilter == old(expandedFilter)
      ensures selectedInvoice == old(selectedInvoice) && viewDialogOpen == old(viewDialogOpen)
    {
      activeTab := key;
    }

    /** `handleViewInvoice`: the invoice is selected, the dialog opens and the parent is told. */
    method HandleViewInvoice(invoice: Invoice) returns (callback: Callback)
      modifies this
      ensures selectedInvoice == Some(invoice) && viewDialogOpen
      ensures activeTab == old(activeTab) && expandedFilter == old(expandedFilter)
      ensures callback == OnView(invoice)
    {
      selectedInvoice := Some(invoice);
      viewDialogOpen := true;
      callback := OnView(invoice);
    }
  }

  // ---------------------------------------------------------------------------
  // Buttons and handlers

  /** The buttons an invoice row or card can show. */
  datatype Action = View | Download | MarkPaid | Edit | Print | Send | Delete

  /** The 'Mark as Paid' button: admins only, and only for a pending or overdue invoice. */
  predicate ShowMarkAsPaid(invoice: Invoice, isAdmin: bool)
    ensures ShowMarkAsPaid(invoice, isAdmin) ==> isAdmin && invoice.status != "paid" && invoice.status != "draft"
  {
    isAdmin && (invoice.status == "pending" || invoice.status == "overdue")
  }

  /** The buttons of a row in the list view. */
  function RowActions(invoice: Invoice, isAdmin: bool): (r: seq<Action>)
    ensures |r| >= 2 && r[..2] == [View, Download]
    ensures Print !in r && Send !in r && Delete !in r
    ensures Edit in r <==> isAdmin
  {
    [View, Download]
      + (if ShowMarkAsPaid(invoice, isAdmin) then [MarkPaid] else [])
      + (if isAdmin then [Edit] else [])
  }

  /** The buttons and menu items of a card in the grid view. */
  function CardActions(invoice: Invoice, isAdmin: bool): (r: seq<Action>)
    ensures View in r && Download in r && Print in r
    ensures Send in r <==> isAdmin
    ensures Delete in r <==> isAdmin
  {
    [View, Download]
      + (if ShowMarkAsPaid(invoice, isAdmin) then [MarkPaid] else [])
      + (if isAdmin then [Edit] else [])
      + [View, Download, Print]
      + (if isAdmin then [Send, Edit, Delete] else [])
  }

  /** Non-admins are offered only viewing, downloading and printing; admins also editing,
      sending and deleting; and 'Mark as Paid' is offered exactly when `ShowMarkAsPaid` holds. */
  lemma OfferedActions(invoice: Invoice, isAdmin: bool)
    ensures forall a :: a in RowActions(invoice, isAdmin) ==> a in CardActions(invoice, isAdmin)
    ensures !isAdmin ==> forall a :: a in CardActions(invoice, isAdmin) ==> a in {View, Download, Print}
    ensures isAdmin ==> forall a :: a != MarkPaid ==> a in CardActions(invoice, isAdmin)
    ensures MarkPaid in RowActions(invoice, isAdmin) <==> ShowMarkAsPaid(invoice, isAdmin)
    ensures MarkPaid in CardActions(invoice, isAdmin) <==> ShowMarkAsPaid(invoice, isAdmin)
    ensures ShowMarkAsPaid(invoice, isAdmin) <==>
      isAdmin && invoice.status in {"pending", "overdue"}
  {
  }

  /** A call to one of the parent's callbacks. */
  datatype Callback = OnView(invoice: Invoice) | OnEdit(invoice: Invoice) | OnDownload(invoice: Invoice) | OnPay(invoice: Invoice)

  datatype Toast = Toast(title: string, description: string, destructive: bool)

  /** What a handler does: the toasts it raises and the callbacks it makes, in order. */
  datatype Effects = Effects(toasts: seq<Toast>, callbacks: seq<Callback>)

  const NoEffects := Effects([], [])

  function DownloadEffects(invoice: Invoice): (r: Effects)
    ensures |r.toasts| == 1 && !r.toasts[0].destructive && Includes(r.toasts[0].description, invoice.number)
    ensures r.callbacks == [OnDownload(invoice)]
  {
    IncludesMiddle("Invoice #", invoice.number, " has been downloaded.");
    Effects([Toast("Invoice downloaded", "Invoice #" + invoice.number + " has been downloaded.", false)],
      [OnDownload(invoice)])
  }

  function PrintEffects(invoice: Invoice): (r: Effects)
    ensures |r.toasts| == 1 && !r.toasts[0].destructive && Includes(r.toasts[0].description, invoice.number)
    ensures r.callbacks == []
  {
    IncludesMiddle("Invoice #", invoice.number, " sent to printer.");
    Effects([Toast("Printing invoice", "Invoice #" + invoice.number + " sent to printer.", false)], [])
  }

  function SendEffects(invoice: Invoice, isAdmin: bool): (r: Effects)
    ensures !isAdmin ==> r == NoEffects
    ensures isAdmin ==> |r.toasts| == 1 && !r.toasts[0].destructive && r.callbacks == []
    ensures isAdmin ==> Includes(r.toasts[0].description, invoice.number) && Includes(r.toasts[0].description, invoice.client)
  {
    if !isAdmin then NoEffects
    else
      var front := "Invoice #" + invoice.number + " has been sent to ";
      IncludesMiddle("Invoice #", invoice.number, " has been sent to " + invoice.client + ".");
      assert "Invoice #" + invoice.number + " has been sent to " + invoice.client + "."
        == "Invoice #" + invoice.number + (" has been sent to " + invoice.client + ".");
      IncludesMiddle(front, invoice.client, ".");
      Effects([Toast("Invoice sent", "Invoice #" + invoice.number + " has been sent to " + invoice.client + ".", false)], [])
  }

  function EditEffects(invoice: Invoice, isAdmin: bool): (r: Effects)
    ensures !isAdmin ==> r == NoEffects
    ensures isAdmin ==> |r.toasts| == 1 && !r.toasts[0].destructive && Includes(r.toasts[0].description, invoice.number)
    ensures isAdmin ==> r.callbacks == [OnEdit(invoice)]
  {
    if !isAdmin then NoEffects
    else
      IncludesMiddle("Edit mode for invoice #", invoice.number, ".");
      Effects([Toast("Edit invoice", "Edit mode for invoice #" + invoice.number + ".", false)], [OnEdit(invoice)])
  }

  function DeleteEffects(invoice: Invoice, isAdmin: bool): (r: Effects)
    ensures !isAdmin ==> r == NoEffects
    ensures isAdmin ==> |r.toasts| == 1 && r.toasts[0].destructive && Includes(r.toasts[0].description, invoice.number)
    ensures isAdmin ==> r.callbacks == []
  {
    if !isAdmin then NoEffects
    else
      IncludesMiddle("Invoice #", invoice.number, " has been deleted.");
      Effects([Toast("Invoice deleted", "Invoice #" + invoice.number + " has been deleted.", true)], [])
  }

  /** The admin guards: a non-admin's send, edit or delete does nothing at all. For an
      admin each raises one toast, only edit reaches the parent, and delete (the only
      destructive toast) removes nothing: no handler changes the invoice list. */
  lemma AdminGuards(invoice: Invoice, isAdmin: bool)
    ensures !isAdmin ==> SendEffects(invoice, isAdmin) == NoEffects
    ensures !isAdmin ==> EditEffects(invoice, isAdmin) == NoEffects
    ensures !isAdmin ==> DeleteEffects(invoice, isAdmin) == NoEffects
    ensures isAdmin ==> |SendEffects(invoice, isAdmin).toasts| == 1 && SendEffects(invoice, isAdmin).callbacks == []
    ensures isAdmin ==> |EditEffects(invoice, isAdmin).toasts| == 1 && EditEffects(invoice, isAdmin).callbacks == [OnEdit(invoice)]
    ensures isAdmin ==> |DeleteEffects(invoice, isAdmin).toasts| == 1 && DeleteEffects(invoice, isAdmin).callbacks == []
    ensures isAdmin ==> DeleteEffects(invoice, isAdmin).toasts[0].destructive
    ensures isAdmin ==> !SendEffects(invoice, isAdmin).toasts[0].destructive && !EditEffects(invoice, isAdmin).toasts[0].destructive
  {
  }

  /** Every toast a handler raises names the invoice's number. */
  lemma ToastsNameTheInvoice(invoice: Invoice, isAdmin: bool)
    ensures forall t :: t in DownloadEffects(invoice).toasts ==> Includes(t.description, invoice.number)
    ensures forall t :: t in PrintEffects(invoice).toasts ==> Includes(t.description, invoice.number)
    ensures forall t :: t in SendEffects(invoice, isAdmin).toasts ==> Includes(t.description, invoice.number)
    ensures forall t :: t in EditEffects(invoice, isAdmin).toasts ==> Includes(t.description, invoice.number)
    ensures forall t :: t in DeleteEffects(invoice, isAdmin).toasts ==> Includes(t.description, invoice.number)
  {
  }

  // ---------------------------------------------------------------------------
  // The status badge

  const PaidClass := "bg-green-100 text-green-800 dark:bg-green-900 dark:text-green-200"
  const OverdueClass := "bg-red-100 text-red-800 dark:bg-red-900 dark:text-red-200"
  const PendingClass := "bg-yellow-100 text-yellow-800 dark:bg-yellow-900 dark:text-yellow-200"
  const DraftClass := "bg-gray-100 text-gray-800 dark:bg-gray-800 dark:text-gray-200"
  const DefaultClass := "bg-blue-100 text-blue-800 dark:bg-blue-900 dark:text-blue-200"

  /** `getStatusColor`: the badge classes of the lower-cased status. */
  function StatusColor(status: string): (r: string)
    ensures r == DefaultClass <==> Lower(status) !in {"paid", "overdue", "pending", "draft"}
  {
    match Lower(status)
    case "paid" => PaidClass
    case "overdue" => OverdueClass
    case "pending" => PendingClass
    case "draft" => DraftClass
    case _ => DefaultClass
  }

  /** The badge colour ignores letter case. */
  lemma StatusColorIgnoresCase(a: string, b: string)
    requires Lower(a) == Lower(b)
    ensures StatusColor(a) == StatusColor(b)
  {
  }

  /** An invoice whose status is `"Paid"` gets the paid badge but is neither counted
      under nor shown by the 'Paid' tab, whose match is case-sensitive. */
  lemma CapitalisedStatusBadgedButNotCounted(invoice: Invoice)
    requires invoice.status == "Paid"
    ensures StatusColor(invoice.status) == PaidClass
    ensures FilteredInvoices([invoice], "paid") == [] && FilterOptions([invoice])[2].count == 0
    ensures FilteredInvoices([invoice], "all") == [invoice]
  {
    assert Lower("Paid") == "paid";
  }
}
