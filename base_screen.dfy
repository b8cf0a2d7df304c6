/**
 * The decisions the list screens make, taken out of their layout code:
 * which body a list screen shows, and what each kind of row displays and
 * offers. The date, month and amount formatters (locale-dependent
 * `DateTimeFormatter` and `String.format` calls) are parameters.
 */
module BaseScreen {
  import opened Wrappers
  import opened Calendar
  import opened Storage
  import BaseViewModel

  /** The formatters rows use, left uninterpreted. */
  datatype Formats = Formats(
    formatDate: Date -> string,
    formatMonthYear: YearMonth -> string,
    formatAmount: int -> string)

  /** What a list screen shows in its body. */
  datatype Body = Spinner | ItemList | EmptyText | Blank

  /**
   * `BaseListScreen`'s if/else-if chain: the spinner only while the first
   * load runs, the list whenever there are items, "No items found." only
   * after a load that ended without items and without error.
   */
  function SelectBody<T>(items: seq<T>, isLoading: bool, error: Option<string>): (b: Body)
    ensures b == Spinner <==> isLoading && |items| == 0
    ensures b == ItemList <==> |items| > 0
    ensures b == EmptyText <==> !isLoading && |items| == 0 && error == None
    ensures b == Blank <==> !isLoading && |items| == 0 && error.Some?
  {
    if isLoading && |items| == 0 then Spinner
    else if |items| > 0 then ItemList
    else if !isLoading && error == None then EmptyText
    else Blank
  }

  /** How the end of a row's second line is tinted: as an alert, or subdued. */
  datatype Tone = Alert | Subdued

  /** A button in a row's action area, with its caption and the action it raises. */
  datatype Button = Button(caption: string, action: ListItemAction)

  /**
   * What `BaseListItem` is given: the id a click passes on, the unread dot,
   * the heading, the two ends of the second line and the tint of its end,
   * the third line, and the buttons.
   */
  datatype Row = Row(
    id: string,
    isUnread: bool,
    heading: string,
    line2Start: Option<string>,
    line2End: Option<string>,
    line2EndTone: Option<Tone>,
    line3: Option<string>,
    buttons: seq<Button>)
  {
    /** The second line is laid out when either of its ends has text. */
    predicate HasLine2()
    {
      line2Start.Some? || line2End.Some?
    }

    /** A click on the row hands its own id to `onItemClick`. */
    function ClickedId(): string
    {
      id
    }

    /** The actions the row's buttons dispatch, one per button, in order. */
    function Actions(): (a: seq<ListItemAction>)
      ensures |a| == |buttons|
      ensures forall k :: 0 <= k < |buttons| ==> a[k] == buttons[k].action
    {
      seq(|buttons|, k requires 0 <= k < |buttons| => buttons[k].action)
    }
  }

  /**
   * `NoticeItem`: issue date and (when there is one) expiry date on the
   * second line, the expiry tinted as an alert once it lies strictly before
   * today, the issuer on the third line, and no buttons.
   */
  function NoticeItem(notice: NoticeData, today: Date, fmt: Formats): (r: Row)
    ensures r.ClickedId() == notice.id && r.isUnread == notice.isUnread && r.heading == notice.heading
    ensures r.HasLine2() && r.line2Start == Some(fmt.formatDate(notice.issueDate))
    ensures r.line2End.Some? <==> notice.expiryDate.Some?
    ensures notice.expiryDate.Some? ==> r.line2End == Some(fmt.formatDate(notice.expiryDate.value))
    ensures r.line2EndTone.Some? <==> notice.expiryDate.Some?
    ensures r.line2EndTone == Some(Alert) <==> notice.expiryDate.Some? && notice.expiryDate.value.IsBefore(today)
    ensures r.line3 == Some(notice.issuer)
    ensures r.Actions() == []
  {
    var tone := match notice.expiryDate
      case None => None
      case Some(expiry) => Some(if expiry.IsBefore(today) then Alert else Subdued);
    var end := match notice.expiryDate
      case None => None
      case Some(expiry) => Some(fmt.formatDate(expiry));
    Row(notice.id, notice.isUnread, notice.heading, Some(fmt.formatDate(notice.issueDate)), end, tone,
        Some(notice.issuer), [])
  }

  /** `DeliveryItem`: received date, location, and one "Track" button without a tracking URL. */
  function DeliveryItem(delivery: DeliveryData, fmt: Formats): (r: Row)
    ensures r.ClickedId() == delivery.id && r.isUnread == delivery.isUnread && r.heading == delivery.productName
    ensures r.line2Start == Some(fmt.formatDate(delivery.receivedDate)) && r.line2End == None
    ensures r.line2EndTone == None
    ensures r.line3 == Some(delivery.location)
    ensures r.Actions() == [Track(delivery.id, None)]
  {
    Row(delivery.id, delivery.isUnread, delivery.productName, Some(fmt.formatDate(delivery.receivedDate)),
        None, None, Some(delivery.location), [Button("Track", Track(delivery.id, None))])
  }

  /**
   * `EventItem`: event date, "Ends: " and the end date when there is one,
   * the organizer, and the buttons "Maybe" (not attending) then "Attend".
   */
  function EventItem(event: EventData, fmt: Formats): (r: Row)
    ensures r.ClickedId() == event.id && r.isUnread == event.isUnread && r.heading == event.eventName
    ensures r.line2Start == Some(fmt.formatDate(event.eventDate))
    ensures r.line2End.Some? <==> event.eventEndDate.Some?
    ensures event.eventEndDate.Some? ==> r.line2End == Some("Ends: " + fmt.formatDate(event.eventEndDate.value))
    ensures r.line2EndTone == None
    ensures r.line3 == Some(event.organizer)
    ensures r.Actions() == [Rsvp(event.id, false), Rsvp(event.id, true)]
    ensures [r.buttons[0].caption, r.buttons[1].caption] == ["Maybe", "Attend"]
  {
    var end := match event.eventEndDate
      case None => None
      case Some(endDate) => Some("Ends: " + fmt.formatDate(endDate));
    var r := Row(event.id, event.isUnread, event.eventName, Some(fmt.formatDate(event.eventDate)), end, None,
        Some(event.organizer), [Button("Maybe", Rsvp(event.id, false)), Button("Attend", Rsvp(event.id, true))]);
    assert r.Actions() == [Rsvp(event.id, false), Rsvp(event.id, true)];
    r
  }

  /**
   * The sample notices on screen: the water-supply notice, which expires
   * the day after its sample day, is tinted as expired exactly from two
   * days after the sample day on, so not on the day it expires; the
   * meeting minutes have no expiry line at all.
   */
  lemma SampleNoticeRows(sampleDay: Date, today: Date, fmt: Formats)
    ensures NoticeItem(BaseViewModel.SampleNotice1(sampleDay), today, fmt).line2EndTone == Some(Alert)
            <==> today.epochDay >= sampleDay.epochDay + 2
    ensures NoticeItem(BaseViewModel.SampleNotice1(sampleDay), sampleDay.PlusDays(1), fmt).line2EndTone == Some(Subdued)
    ensures NoticeItem(BaseViewModel.SampleNotice2(sampleDay), today, fmt).line2End == None
  {
  }
}
