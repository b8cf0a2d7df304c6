/**
 * The bill row: month heading, amount and due date, the payment status,
 * and the one button that fits the bill.
 */
module BillScreen {
  import opened Wrappers
  import opened Calendar
  import opened Storage
  import opened BaseScreen
  import BillViewModel

  const PaidOnPrefix := "Paid on: "

  /** A bill is shown as overdue when it is unpaid and its due date lies strictly before today. */
  predicate IsOverdue(bill: BillData, today: Date)
  {
    !bill.isPaid && bill.dueDate.IsBefore(today)
  }

  /** The third line: the payment day when a paid bill has one, otherwise "Paid" or "Pending". */
  function StatusText(bill: BillData, fmt: Formats): (s: string)
    ensures (|s| >= |PaidOnPrefix| && s[..|PaidOnPrefix|] == PaidOnPrefix) <==> bill.isPaid && bill.paymentDate.Some?
    ensures bill.isPaid && bill.paymentDate.Some? ==> s[|PaidOnPrefix|..] == fmt.formatDate(bill.paymentDate.value)
    ensures bill.isPaid && bill.paymentDate.None? ==> s == "Paid"
    ensures !bill.isPaid ==> s == "Pending"
  {
    var statusDesc := if bill.isPaid then "Paid" else "Pending";
    if bill.isPaid && bill.paymentDate.Some? then PaidOnPrefix + fmt.formatDate(bill.paymentDate.value)
    else statusDesc
  }

  /**
   * `BillItem`: an unpaid bill carries the unread dot; the heading is the
   * bill type and the month; the due date is tinted as an alert exactly
   * when the bill is overdue; a paid bill offers "Receipt" and an unpaid
   * one "Pay Now".
   */
  function BillItem(bill: BillData, today: Date, fmt: Formats): (r: Row)
    ensures r.ClickedId() == bill.id
    ensures r.isUnread <==> !bill.isPaid
    ensures r.heading == bill.billType + " - " + fmt.formatMonthYear(bill.monthYear)
    ensures r.line2Start == Some(fmt.formatAmount(bill.amount))
    ensures r.line2End == Some("Due: " + fmt.formatDate(bill.dueDate))
    ensures r.line2EndTone == Some(Alert) <==> IsOverdue(bill, today)
    ensures r.line2EndTone != Some(Subdued)
    ensures r.line3 == Some(StatusText(bill, fmt))
    ensures bill.isPaid ==> r.Actions() == [DownloadReceipt(bill.id)]
    ensures !bill.isPaid ==> r.Actions() == [PayBill(bill.id)]
  {
    var tone := if !bill.isPaid && bill.dueDate.IsBefore(today) then Some(Alert) else None;
    var button := if bill.isPaid then Button("Receipt", DownloadReceipt(bill.id))
                  else Button("Pay Now", PayBill(bill.id));
    var r := Row(bill.id, !bill.isPaid, bill.billType + " - " + fmt.formatMonthYear(bill.monthYear),
                 Some(fmt.formatAmount(bill.amount)), Some("Due: " + fmt.formatDate(bill.dueDate)), tone,
                 Some(StatusText(bill, fmt)), [button]);
    assert r.Actions() == [button.action];
    r
  }

  /**
   * The rows of the sample bills: only the newest offers "Pay Now", every
   * other shows the fifteenth of its month as its payment day, and only the
   * newest can be overdue, which it is exactly once today is past its due
   * date.
   */
  lemma {:induction false} SampleBillRows(currentMonth: YearMonth, ids: seq<string>, today: Date, fmt: Formats)
    requires |ids| == 11
    ensures var bills := BillViewModel.SampleBills(currentMonth, ids);
      forall k :: 0 <= k < 11 ==>
        var r := BillItem(bills[k], today, fmt);
        && (k == 0 ==> r.Actions() == [PayBill(ids[10])])
        && (k > 0 ==> r.Actions() == [DownloadReceipt(ids[k - 1])])
        && (k > 0 ==> r.line3 == Some(PaidOnPrefix + fmt.formatDate(AtDay(currentMonth - k, 15))))
        && (r.line2EndTone == Some(Alert) <==> k == 0 && BillViewModel.DueDate(currentMonth).IsBefore(today))
  {
    var bills := BillViewModel.SampleBills(currentMonth, ids);
    forall k | 0 <= k < 11
      ensures var r := BillItem(bills[k], today, fmt);
        && (k == 0 ==> r.Actions() == [PayBill(ids[10])])
        && (k > 0 ==> r.Actions() == [DownloadReceipt(ids[k - 1])])
        && (k > 0 ==> r.line3 == Some(PaidOnPrefix + fmt.formatDate(AtDay(currentMonth - k, 15))))
        && (r.line2EndTone == Some(Alert) <==> k == 0 && BillViewModel.DueDate(currentMonth).IsBefore(today))
    {
      BillViewModel.SampleBillAt(currentMonth, ids, k);
    }
  }
}
