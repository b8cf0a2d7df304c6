/**
 * The records of a housing society's notices, deliveries, events, bills and
 * lost-and-found reports, and the closed set of actions a list row can
 * raise. Defaults are those of the Kotlin data classes; no constructor
 * checks anything (a paid bill without a payment date, or an event ending
 * before it starts, can be built), and neither does this model.
 */
module Storage {
  import opened Wrappers
  import opened Calendar

  datatype NoticeData = NoticeData(
    id: string,
    heading: string,
    issueDate: Date,
    expiryDate: Option<Date>,
    issuer: string,
    isUnread: bool)

  const DefaultDeliveryLocation := "At Security Room"

  datatype DeliveryData = DeliveryData(
    id: string,
    productName: string,
    receivedDate: Date,
    location: string := DefaultDeliveryLocation,
    isUnread: bool)

  datatype EventData = EventData(
    id: string,
    eventName: string,
    eventDate: Date,
    organizer: string,
    isUnread: bool,
    eventEndDate: Option<Date> := None)

  /**
   * A bill for one month. The source's `Double` amount is a whole number
   * of rupees here: the only amount the core produces is 500.00.
   */
  datatype BillData = BillData(
    id: string,
    billType: string,
    monthYear: YearMonth,
    amount: int,
    dueDate: Date,
    isPaid: bool,
    paymentDate: Option<Date> := None)

  datatype LostFoundStatus = LOST | FOUND

  const DefaultContactInfo := "Contact Security Desk"

  datatype LostFoundItemData = LostFoundItemData(
    id: string,
    name: string,
    description: Option<string>,
    imageUrl: Option<string>,
    status: LostFoundStatus,
    dateReported: Date,
    location: string,
    contactInfo: string := DefaultContactInfo)

  /** What a row asks its list's state holder to do. */
  datatype ListItemAction =
    | Track(deliveryId: string, trackingUrl: Option<string>)
    | Rsvp(eventId: string, attending: bool)
    | ViewDetails(itemId: string, itemType: string)
    | PayBill(billId: string)
    | DownloadReceipt(billId: string)

  /** The omitted arguments of the records take the source's defaults. */
  lemma Defaults(id: string, name: string, d: Date, unread: bool, s: LostFoundStatus)
    ensures DeliveryData(id, name, d, isUnread := unread).location == "At Security Room"
    ensures EventData(id, name, d, name, unread).eventEndDate == None
    ensures BillData(id, name, 0, 0, d, unread).paymentDate == None
    ensures LostFoundItemData(id, name, None, None, s, d, name).contactInfo == "Contact Security Desk"
  {
  }

  /**
   * The record constructors enforce nothing: a paid bill without a payment
   * date, an unpaid bill with one, and an event that ends before it starts
   * are all values.
   */
  lemma NoConstructorInvariants(d: Date)
    ensures BillData("b", "Maintenance", 0, 500, d, true).paymentDate.None?
    ensures BillData("b", "Maintenance", 0, 500, d, false, Some(d)).paymentDate.Some?
    ensures var e := EventData("e", "Meeting", d, "Committee", false, Some(d.PlusDays(-1)));
            e.eventEndDate.value.IsBefore(e.eventDate)
  {
  }
}
