/**
 * The bill screen's state holder and its sample bills: ten paid monthly
 * maintenance bills for the months before the current one and one unpaid
 * bill for the current month, newest first. `YearMonth.now()` is the
 * parameter `currentMonth`, and the bills' random UUIDs are `ids`, in the
 * order the generator draws them.
 */
module BillViewModel {
  import opened Wrappers
  import opened Calendar
  import opened Storage
  import opened Lists
  import opened ListContract

  const SampleBillType := "Maintenance"
  const SampleBillAmount := 500

  /** Due five days before the end of the bill's month. */
  function DueDate(month: YearMonth): Date
  {
    AtEndOfMonth(month).PlusDays(-5)
  }

  function PaidSampleBill(month: YearMonth, id: string): BillData
  {
    BillData(id, SampleBillType, month, SampleBillAmount, DueDate(month), true, Some(AtDay(month, 15)))
  }

  function UnpaidSampleBill(month: YearMonth, id: string): BillData
  {
    BillData(id, SampleBillType, month, SampleBillAmount, DueDate(month), false, None)
  }

  /**
   * The sample bills as the generator returns them: the current month's
   * unpaid bill (the eleventh id), then the paid bills of the ten months
   * before, most recent first (the first to the tenth id).
   */
  function SampleBills(currentMonth: YearMonth, ids: seq<string>): seq<BillData>
    requires |ids| == 11
  {
    [UnpaidSampleBill(currentMonth, ids[10])]
      + seq(10, k requires 0 <= k < 10 => PaidSampleBill(currentMonth - 1 - k, ids[k]))
  }

  function MonthKey(b: BillData): int
  {
    b.monthYear
  }

  predicate IsUnpaid(b: BillData)
  {
    !b.isPaid
  }

  /** The k-th sample bill. */
  lemma SampleBillAt(currentMonth: YearMonth, ids: seq<string>, k: nat)
    requires |ids| == 11 && k < 11
    ensures |SampleBills(currentMonth, ids)| == 11
    ensures SampleBills(currentMonth, ids)[k]
            == if k == 0 then UnpaidSampleBill(currentMonth, ids[10]) else PaidSampleBill(currentMonth - k, ids[k - 1])
  {
  }

  /** Eleven bills, one month each from the current month back, newest first, only the first unpaid. */
  lemma SampleBillsShape(currentMonth: YearMonth, ids: seq<string>)
    requires |ids| == 11
    ensures var bills := SampleBills(currentMonth, ids);
      && |bills| == 11
      && (forall k :: 0 <= k < 11 ==> (!bills[k].isPaid <==> k == 0))
      && (forall k :: 0 <= k < 11 ==> bills[k].monthYear == currentMonth - k)
      && StrictlyDescendingBy(bills, MonthKey)
      && (forall k :: 0 <= k < 11 ==> bills[k].billType == "Maintenance" && bills[k].amount == 500)
  {
    forall k | 0 <= k < 11 {
      SampleBillAt(currentMonth, ids, k);
    }
  }

  /** Exactly one of the sample bills is unpaid. */
  lemma ExactlyOneUnpaidSampleBill(currentMonth: YearMonth, ids: seq<string>)
    requires |ids| == 11
    ensures Count(SampleBills(currentMonth, ids), IsUnpaid) == 1
  {
    var bills := SampleBills(currentMonth, ids);
    SampleBillsShape(currentMonth, ids);
    var paid := bills[1..];
    assert bills[1..] == paid;
    assert forall k :: 0 <= k < |paid| ==> paid[k].isPaid;
    NoneUnpaid(paid);
  }

  /** A list of paid bills has no unpaid bill. */
  lemma {:induction false} NoneUnpaid(bills: seq<BillData>)
    requires forall k :: 0 <= k < |bills| ==> bills[k].isPaid
    ensures Count(bills, IsUnpaid) == 0
  {
    if bills != [] {
      NoneUnpaid(bills[1..]);
    }
  }

  /**
   * The dates of the sample bills: each is due on the last day of its
   * month minus five, a paid bill was paid on the fifteenth of its own
   * month, before it fell due, and the unpaid bill has no payment date.
   */
  lemma SampleBillDates(currentMonth: YearMonth, ids: seq<string>)
    requires |ids| == 11
    ensures var bills := SampleBills(currentMonth, ids);
      forall k :: 0 <= k < 11 ==> BillDatesAsGenerated(bills[k])
  {
    forall k | 0 <= k < 11 {
      SampleBillDatesAt(currentMonth, ids, k);
    }
  }

  /** The dates of the k-th sample bill. */
  lemma SampleBillDatesAt(currentMonth: YearMonth, ids: seq<string>, k: nat)
    requires |ids| == 11 && k < 11
    ensures |SampleBills(currentMonth, ids)| == 11
    ensures BillDatesAsGenerated(SampleBills(currentMonth, ids)[k])
  {
    if k == 0 {
      assert SampleBills(currentMonth, ids)[0] == UnpaidSampleBill(currentMonth, ids[10]);
      DueDateInMonth(currentMonth);
    } else {
      PaidSampleBillAt(currentMonth, ids, k);
      PaidBillDates(currentMonth - k, ids[k - 1]);
    }
  }

  /** The sample bills after the first are the paid bills of the months before. */
  lemma PaidSampleBillAt(currentMonth: YearMonth, ids: seq<string>, k: nat)
    requires |ids| == 11 && 0 < k < 11
    ensures |SampleBills(currentMonth, ids)| == 11
    ensures SampleBills(currentMonth, ids)[k] == PaidSampleBill(currentMonth - k, ids[k - 1])
  {
    SampleBillAt(currentMonth, ids, k);
  }

  /** The date rules of a generated bill. */
  predicate BillDatesAsGenerated(b: BillData)
  {
    && b.dueDate == AtEndOfMonth(b.monthYear).PlusDays(-5)
    && b.dueDate == AtDay(b.monthYear, MonthLength(b.monthYear) - 5)
    && (b.isPaid ==> b.paymentDate == Some(AtDay(b.monthYear, 15)) && b.paymentDate.value.IsBefore(b.dueDate))
    && (!b.isPaid ==> b.paymentDate == None)
  }

  /** A paid bill is paid on the fifteenth of its month, before it falls due. */
  lemma PaidBillDates(month: YearMonth, id: string)
    ensures BillDatesAsGenerated(PaidSampleBill(month, id))
  {
    DueDateInMonth(month);
    AtDayShift(month, 15, MonthLength(month) - 20);
  }

  /** A bill's due date is a day of its own month. */
  lemma DueDateInMonth(month: YearMonth)
    ensures DueDate(month) == AtDay(month, MonthLength(month) - 5)
  {
    AtDayShift(month, MonthLength(month), -5);
  }

  /** The k-th sample bill is for the k-th month back, and falls due in it. */
  lemma SampleBillDue(currentMonth: YearMonth, ids: seq<string>, k: nat)
    requires |ids| == 11 && k < 11
    ensures |SampleBills(currentMonth, ids)| == 11
    ensures SampleBills(currentMonth, ids)[k].dueDate == DueDate(currentMonth - k)
  {
    SampleBillAt(currentMonth, ids, k);
  }

  /** Newer sample bills fall due strictly later. */
  lemma SampleBillDueDatesDescending(currentMonth: YearMonth, ids: seq<string>)
    requires |ids| == 11
    ensures var bills := SampleBills(currentMonth, ids);
      forall i, j :: 0 <= i < j < 11 ==> bills[j].dueDate.IsBefore(bills[i].dueDate)
  {
    var bills := SampleBills(currentMonth, ids);
    forall i, j | 0 <= i < j < 11 ensures bills[j].dueDate.IsBefore(bills[i].dueDate) {
      SampleBillDue(currentMonth, ids, i);
      SampleBillDue(currentMonth, ids, j);
      LaterMonthFallsDueLater(currentMonth - j, currentMonth - i);
    }
  }

  /** A bill for a later month falls due strictly later. */
  lemma LaterMonthFallsDueLater(earlier: YearMonth, later: YearMonth)
    requires earlier < later
    ensures DueDate(earlier).IsBefore(DueDate(later))
  {
    DueDateInMonth(earlier);
    DueDateInMonth(later);
    LaterMonthLaterDay(earlier, MonthLength(earlier) - 5, later, MonthLength(later) - 5);
  }

  /** The paid bills of the ten past months, most recent first, are the sample bills after the first. */
  lemma PastBillsAreSampleTail(currentMonth: YearMonth, ids: seq<string>, past: seq<BillData>)
    requires |ids| == 11 && |past| == 10
    requires forall k :: 0 <= k < 10 ==> past[k] == PaidSampleBill(currentMonth - 1 - k, ids[k])
    ensures [UnpaidSampleBill(currentMonth, ids[10])] + past == SampleBills(currentMonth, ids)
  {
    var tail := seq(10, k requires 0 <= k < 10 => PaidSampleBill(currentMonth - 1 - k, ids[k]));
    assert past == tail;
  }

  /**
   * Sorting the paid bills of the ten past months, most recent first, with
   * the current month's unpaid bill appended gives the sample bills.
   */
  lemma SortingThePastBills(currentMonth: YearMonth, ids: seq<string>, past: seq<BillData>)
    requires |ids| == 11 && |past| == 10
    requires forall k :: 0 <= k < 10 ==> past[k] == PaidSampleBill(currentMonth - 1 - k, ids[k])
    ensures SortedByDescending(past + [UnpaidSampleBill(currentMonth, ids[10])], MonthKey)
            == SampleBills(currentMonth, ids)
  {
    var upcoming := UnpaidSampleBill(currentMonth, ids[10]);
    PastBillsDescending(currentMonth, ids, past);
    SortMovesNewestToFront(past, upcoming, MonthKey);
    PastBillsAreSampleTail(currentMonth, ids, past);
  }

  /** The paid bills of the ten past months, most recent first, are strictly descending by month, all before the current one. */
  lemma PastBillsDescending(currentMonth: YearMonth, ids: seq<string>, past: seq<BillData>)
    requires |ids| == 11 && |past| == 10
    requires forall k :: 0 <= k < 10 ==> past[k] == PaidSampleBill(currentMonth - 1 - k, ids[k])
    ensures StrictlyDescendingBy(past, MonthKey)
    ensures forall k :: 0 <= k < |past| ==> MonthKey(past[k]) < MonthKey(UnpaidSampleBill(currentMonth, ids[10]))
  {
    assert forall k :: 0 <= k < |past| ==> past[k].monthYear == currentMonth - 1 - k;
  }

  class BillViewModel {
    var items: seq<BillData>
    var isLoading: bool
    var error: Option<string>

    static const ErrorPrefix := "Failed to load bills: "

    /** A new holder has no items and no error, and `init` has begun its first load. */
    constructor ()
      ensures items == [] && isLoading && error == None
    {
      items, isLoading, error := [], false, None;
      new;
      BeginLoad();
    }

    /** The part of `loadItems` before the simulated delay. */
    method BeginLoad()
      modifies this
      ensures isLoading && error == None && items == old(items)
    {
      isLoading := true;
      error := None;
    }

    /** The rest of `loadItems`: the generated bills, or the failure message; `finally` clears the loading flag. */
    method CompleteLoad(currentMonth: YearMonth, ids: seq<string>, outcome: LoadOutcome)
      requires |ids| == 11
      modifies this
      ensures !isLoading
      ensures outcome.Loaded? ==> items == SampleBills(currentMonth, ids) && error == old(error)
      ensures outcome.Failed? ==> items == old(items) && error == Some(FailureMessage(ErrorPrefix, outcome.cause))
    {
      match outcome {
        case Loaded =>
          items := GenerateSampleBills(currentMonth, ids);
        case Failed(e) =>
          error := Some(FailureMessage(ErrorPrefix, e));
      }
      isLoading := false;
    }

    method OnItemClick(id: string) returns (dispatched: ListItemAction)
      modifies this
      ensures dispatched == ViewDetails(id, "Bill")
      ensures items == old(items) && isLoading == old(isLoading) && error == old(error)
    {
      dispatched := ViewDetails(id, "Bill");
      OnAction(dispatched);
    }

    /**
     * `PayBill` and `DownloadReceipt` put a simulated status message in
     * `error`; `ViewDetails` and the other actions only log.
     */
    method OnAction(action: ListItemAction)
      modifies this`error
      ensures action.PayBill? ==> error == Some("Payment for bill " + action.billId + " initiated (simulation).")
      ensures action.DownloadReceipt? ==>
                error == Some("Receipt download for bill " + action.billId + " requested (simulation).")
      ensures !action.PayBill? && !action.DownloadReceipt? ==> error == old(error)
    {
      match action {
        case PayBill(billId) =>
          error := Some("Payment for bill " + billId + " initiated (simulation).");
        case DownloadReceipt(billId) =>
          error := Some("Receipt download for bill " + billId + " requested (simulation).");
        case ViewDetails(_, _) =>
        case _ =>
      }
    }

    method ConsumeError()
      modifies this`error
      ensures error == None
    {
      error := None;
    }

    /**
     * `generateSampleBills`: a loop over the ten past months adds their paid
     * bills, then the current month's unpaid bill is appended, and the list
     * is sorted by month, newest first.
     */
    method GenerateSampleBills(currentMonth: YearMonth, ids: seq<string>) returns (bills: seq<BillData>)
      requires |ids| == 11
      ensures bills == SampleBills(currentMonth, ids)
    {
      var acc: seq<BillData> := [];
      for i := 1 to 11
        invariant |acc| == i - 1
        invariant forall k :: 0 <= k < i - 1 ==> acc[k] == PaidSampleBill(currentMonth - 1 - k, ids[k])
      {
        var month := currentMonth - i;
        acc := acc + [BillData(ids[i - 1], SampleBillType, month, SampleBillAmount,
                               AtEndOfMonth(month).PlusDays(-5), true, Some(AtDay(month, 15)))];
      }
      var upcoming := BillData(ids[10], SampleBillType, currentMonth, SampleBillAmount,
                               AtEndOfMonth(currentMonth).PlusDays(-5), false, None);
      SortingThePastBills(currentMonth, ids, acc);
      bills := SortedByDescending(acc + [upcoming], MonthKey);
    }
  }
}
