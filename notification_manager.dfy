/** The reminder panel (src/components/NotificationManager.jsx): the list of
    notifications built from the upcoming bills, rebuilt whenever the expense
    list changes, with dismiss-one and dismiss-all. `formatAmount` stands for
    `amount.toFixed(2)`. */
module NotificationManager {
  import opened Common
  import opened FinanceState
  import opened FinanceReducer
  import opened FinanceViews
  import ImportExpensesDialog

  const BillTitle: string := "Conta próxima do vencimento"
  const BillPrefix: string := "bill-"

  /** A template literal renders a missing id as "undefined". */
  function IdText(id: Option<string>): string {
    match id
    case Some(text) => text
    case None => "undefined"
  }

  /** The notification for one bill. */
  function BillNotification(bill: Expense, formatAmount: real -> string): (n: Notification)
    ensures n.id == BillPrefix + IdText(bill.id)
    ensures n.kind == "warning" && n.title == BillTitle && n.dueDate == bill.dueDate
    ensures n.message == bill.description + " - R$ " + formatAmount(bill.amount)
  {
    Notification(BillPrefix + IdText(bill.id), "warning", BillTitle,
                 bill.description + " - R$ " + formatAmount(bill.amount), bill.dueDate)
  }

  /** `upcomingBills.map(...)`: one notification per bill, in the bills'
      order. */
  function BillNotifications(bills: seq<Expense>, formatAmount: real -> string): (ns: seq<Notification>)
    ensures |ns| == |bills|
    ensures forall i :: 0 <= i < |bills| ==> ns[i] == BillNotification(bills[i], formatAmount)
  {
    if bills == [] then []
    else [BillNotification(bills[0], formatAmount)] + BillNotifications(bills[1..], formatAmount)
  }

  /** Bills with different ids get different notification ids, so
      dismissing one leaves the other. */
  lemma DistinctBillIds(a: Expense, b: Expense, formatAmount: real -> string)
    requires a.id.Some? && b.id.Some? && a.id != b.id
    ensures BillNotification(a, formatAmount).id != BillNotification(b, formatAmount).id
  {
    var na, nb := BillNotification(a, formatAmount).id, BillNotification(b, formatAmount).id;
    assert na[|BillPrefix|..] == a.id.value;
    assert nb[|BillPrefix|..] == b.id.value;
  }

  /** Bills without an id (which only storage the app did not write can
      hold) all get the notification id "bill-undefined": dismissing one of
      them dismisses them all. */
  lemma IdlessBillsShareDismissal(bills: seq<Expense>, formatAmount: real -> string)
    ensures var ns := BillNotifications(bills, formatAmount);
      forall i :: 0 <= i < |bills| && bills[i].id.None? ==>
        ns[i] !in Filter(NotificationIdDiffers(BillPrefix + "undefined"), ns)
  {
  }

  /** The panel's state. */
  class Panel {
    var notifications: seq<Notification>
    var showNotifications: bool

    constructor ()
      ensures notifications == [] && showNotifications
    {
      notifications, showNotifications := [], true;
    }

    /** The effect that runs whenever the expense list changes: the list is
        rebuilt from the upcoming bills alone, so earlier dismissals are
        forgotten. */
    method Refresh(expenses: seq<Expense>, today: int, parseDate: string -> Option<int>, formatAmount: real -> string)
      modifies this
      ensures notifications == BillNotifications(UpcomingBills(expenses, today, parseDate), formatAmount)
      ensures Rendered() <==> exists e :: e in expenses && DueSoon(today, parseDate)(e)
      ensures showNotifications == old(showNotifications)
    {
      RenderedIffBillDue(expenses, today, parseDate, formatAmount);
      var upcomingBills := UpcomingBills(expenses, today, parseDate);
      notifications := BillNotifications(upcomingBills, formatAmount);
    }

    /** `dismissNotification`: exactly the notifications with that id go,
        the others stay in order. */
    method DismissNotification(id: string)
      modifies this
      ensures notifications == Filter(NotificationIdDiffers(id), old(notifications))
      ensures forall n :: n in notifications <==> n in old(notifications) && n.id != id
      ensures showNotifications == old(showNotifications)
    {
      notifications := Filter(NotificationIdDiffers(id), notifications);
    }

    /** `dismissAll`: the list becomes empty. */
    method DismissAll()
      modifies this
      ensures notifications == [] && showNotifications == old(showNotifications)
    {
      notifications := [];
    }

    /** The bell toggles the panel. */
    method ToggleShow()
      modifies this
      ensures showNotifications == !old(showNotifications) && notifications == old(notifications)
    {
      showNotifications := !showNotifications;
    }

    /** The panel's close button hides it; the list stays. */
    method Close()
      modifies this
      ensures !showNotifications && notifications == old(notifications)
    {
      showNotifications := false;
    }

    /** The component renders nothing while the list is empty. */
    predicate Rendered()
      reads this
    {
      |notifications| > 0
    }
  }

  /** Imported records carry no due date, so no imported row ever becomes a
      bill: the id-less notifications above never come from an import. */
  lemma ImportedRowsAreNeverBills(rows: seq<ImportExpensesDialog.Row>, todayIso: string,
                                  parseNumber: string -> Option<real>, today: int,
                                  parseDate: string -> Option<int>)
    ensures UpcomingBills(ImportExpensesDialog.ValidData(rows, todayIso, parseNumber), today, parseDate) == []
  {
    var imported := ImportExpensesDialog.ValidData(rows, todayIso, parseNumber);
    assert forall e :: e in imported ==> !HasDueDate(e);
    FilterNone(DueSoon(today, parseDate), imported);
  }

  /** After a refresh the panel shows something exactly when some expense
      is due within the next three days. */
  lemma RenderedIffBillDue(expenses: seq<Expense>, today: int, parseDate: string -> Option<int>, formatAmount: real -> string)
    ensures |BillNotifications(UpcomingBills(expenses, today, parseDate), formatAmount)| > 0 <==>
      exists e :: e in expenses && DueSoon(today, parseDate)(e)
  {
    var bills := UpcomingBills(expenses, today, parseDate);
    if |bills| > 0 {
      assert bills[0] in bills;
    }
  }
}
