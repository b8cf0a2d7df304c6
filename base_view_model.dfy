/**
 * The four list state holders of the notice, delivery, personal-notice and
 * event screens, and the sample records they load. The sample records are
 * top-level values computed from `LocalDate.now()` when they are first
 * used; here that day is the parameter `sampleDay`.
 */
module BaseViewModel {
  import opened Wrappers
  import opened Calendar
  import opened Storage
  import opened ListContract

  function SampleNotice1(sampleDay: Date): NoticeData
  {
    NoticeData("N001", "Water Supply Disruption Tomorrow", sampleDay.PlusDays(-1),
               Some(sampleDay.PlusDays(1)), "Maintenance Dept.", true)
  }

  function SampleNotice2(sampleDay: Date): NoticeData
  {
    NoticeData("N002", "Monthly Meeting Minutes", sampleDay.PlusDays(-7), None, "Society Secretary", false)
  }

  function SampleDelivery1(sampleDay: Date): DeliveryData
  {
    DeliveryData("D101", "Amazon Package", sampleDay, isUnread := true)
  }

  function SampleDelivery2(sampleDay: Date): DeliveryData
  {
    DeliveryData("D102", "Courier Document", sampleDay.PlusDays(-3), "Collected by Resident", false)
  }

  function SampleEvent1(sampleDay: Date): EventData
  {
    EventData("E201", "Annual General Meeting", sampleDay.PlusDays(14), "Managing Committee", true)
  }

  function SampleEvent2(sampleDay: Date): EventData
  {
    EventData("E202", "Community Cleanup Drive", sampleDay.PlusDays(5), "Volunteer Group", false,
              Some(sampleDay.PlusDays(5)))
  }

  function SamplePersonalNotice1(sampleDay: Date): NoticeData
  {
    NoticeData("PN001", "Your Maintenance Request Approved", sampleDay.PlusDays(-2), None, "Maintenance Team", true)
  }

  function SamplePersonalNotice2(sampleDay: Date): NoticeData
  {
    NoticeData("PN002", "Monthly Fees are pending", sampleDay.PlusDays(-1), Some(sampleDay.PlusDays(3)),
               "Accounts", false)
  }

  /** What the sample records are: their ids in order, and the one delivery that keeps the default location. */
  lemma SampleRecords(d: Date)
    ensures [SampleNotice1(d).id, SampleNotice2(d).id] == ["N001", "N002"]
    ensures [SampleDelivery1(d).id, SampleDelivery2(d).id] == ["D101", "D102"]
    ensures [SamplePersonalNotice1(d).id, SamplePersonalNotice2(d).id] == ["PN001", "PN002"]
    ensures [SampleEvent1(d).id, SampleEvent2(d).id] == ["E201", "E202"]
    ensures SampleDelivery1(d).location == DefaultDeliveryLocation
    ensures SampleEvent1(d).eventEndDate == None && SampleEvent2(d).eventEndDate == Some(SampleEvent2(d).eventDate)
  {
  }

  /*
   * The four list holders below share one shape: the same three fields, the
   * same load, failure and error-consuming steps.  They differ only in the
   * prefix of the failure message, the sample records a load yields, and the
   * `OnAction` variants each one answers besides `ViewDetails` (`Track` for
   * deliveries, `Rsvp` for events, none for the two notice holders).
   */
  class NoticeViewModel {
    var items: seq<NoticeData>
    var isLoading: bool
    var error: Option<string>

    static const ErrorPrefix := "Failed to load notices: "

    /** A new holder has no items and no error, and `init` has begun its first load. */
    constructor ()
      ensures items == [] && isLoading && error == None
    {
      items, isLoading, error := [], false, None;
      new;
      BeginLoad();
    }

    /** The part of `loadItems` before the simulated delay. */
    method BeginLoad()
      modifies this
      ensures isLoading && error == None && items == old(items)
    {
      isLoading := true;
      error := None;
    }

    /** The rest of `loadItems`: the sample list, or the failure message; `finally` clears the loading flag. */
    method CompleteLoad(sampleDay: Date, outcome: LoadOutcome)
      modifies this
      ensures !isLoading
      ensures outcome.Loaded? ==> items == [SampleNotice1(sampleDay), SampleNotice2(sampleDay)] && error == old(error)
      ensures outcome.Failed? ==> items == old(items) && error == Some(FailureMessage(ErrorPrefix, outcome.cause))
    {
      match outcome {
        case Loaded =>
          items := [SampleNotice1(sampleDay), SampleNotice2(sampleDay)];
        case Failed(e) =>
          error := Some(FailureMessage(ErrorPrefix, e));
      }
      isLoading := false;
    }

    method OnItemClick(id: string) returns (dispatched: ListItemAction)
      ensures dispatched == ViewDetails(id, "Notice")
    {
      dispatched := ViewDetails(id, "Notice");
      var _ := OnAction(dispatched);
    }

    /** Only `ViewDetails` has a branch of its own; every branch only logs, so no state changes. */
    method OnAction(action: ListItemAction) returns (branch: Branch)
      ensures branch == Handled <==> action.ViewDetails?
    {
      match action
      case ViewDetails(_, _) => branch := Handled;
      case _ => branch := Unhandled;
    }

    method ConsumeError()
      modifies this`error
      ensures error == None
    {
      error := None;
    }
  }

  class DeliveryViewModel {
    var items: seq<DeliveryData>
    var isLoading: bool
    var error: Option<string>

    static const ErrorPrefix := "Failed to load deliveries: "

    /** A new holder has no items and no error, and `init` has begun its first load. */
    constructor ()
      ensures items == [] && isLoading && error == None
    {
      items, isLoading, error := [], false, None;
      new;
      BeginLoad();
    }

    /** The part of `loadItems` before the simulated delay. */
    method BeginLoad()
      modifies this
      ensures isLoading && error == None && items == old(items)
    {
      isLoading := true;
      error := None;
    }

    /** The rest of `loadItems`: the sample list, or the failure message; `finally` clears the loading flag. */
    method CompleteLoad(sampleDay: Date, outcome: LoadOutcome)
      modifies this
      ensures !isLoading
      ensures outcome.Loaded? ==> items == [SampleDelivery1(sampleDay), SampleDelivery2(sampleDay)] && error == old(error)
      ensures outcome.Failed? ==> items == old(items) && error == Some(FailureMessage(ErrorPrefix, outcome.cause))
    {
      match outcome {
        case Loaded =>
          items := [SampleDelivery1(sampleDay), SampleDelivery2(sampleDay)];
        case Failed(e) =>
          error := Some(FailureMessage(ErrorPrefix, e));
      }
      isLoading := false;
    }

    method OnItemClick(id: string) returns (dispatched: ListItemAction)
      ensures dispatched == ViewDetails(id, "Delivery")
    {
      dispatched := ViewDetails(id, "Delivery");
      var _ := OnAction(dispatched);
    }

    /** `Track` and `ViewDetails` have branches of their own; every branch only logs, so no state changes. */
    method OnAction(action: ListItemAction) returns (branch: Branch)
      ensures branch == Handled <==> action.Track? || action.ViewDetails?
    {
      match action
      case Track(_, _) => branch := Handled;
      case ViewDetails(_, _) => branch := Handled;
      case _ => branch := Unhandled;
    }

    method ConsumeError()
      modifies this`error
      ensures error == None
    {
      error := None;
    }
  }

  class PersonalNoticeViewModel {
    var items: seq<NoticeData>
    var isLoading: bool
    var error: Option<string>

    static const ErrorPrefix := "Failed to load personal notices: "

    /** A new holder has no items and no error, and `init` has begun its first load. */
    constructor ()
      ensures items == [] && isLoading && error == None
    {
      items, isLoading, error := [], false, None;
      new;
      BeginLoad();
    }

    /** The part of `loadItems` before the simulated delay. */
    method BeginLoad()
      modifies this
      ensures isLoading && error == None && items == old(items)
    {
      isLoading := true;
      error := None;
    }

    /** The rest of `loadItems`: the sample list, or the failure message; `finally` clears the loading flag. */
    method CompleteLoad(sampleDay: Date, outcome: LoadOutcome)
      modifies this
      ensures !isLoading
      ensures outcome.Loaded? ==> items == [SamplePersonalNotice1(sampleDay), SamplePersonalNotice2(sampleDay)] && error == old(error)
      ensures outcome.Failed? ==> items == old(items) && error == Some(FailureMessage(ErrorPrefix, outcome.cause))
    {
      match outcome {
        case Loaded =>
          items := [SamplePersonalNotice1(sampleDay), SamplePersonalNotice2(sampleDay)];
        case Failed(e) =>
          error := Some(FailureMessage(ErrorPrefix, e));
      }
      isLoading := false;
    }

    method OnItemClick(id: string) returns (dispatched: ListItemAction)
      ensures dispatched == ViewDetails(id, "Personal Notice")
    {
      dispatched := ViewDetails(id, "Personal Notice");
      var _ := OnAction(dispatched);
    }

    /** Only `ViewDetails` has a branch of its own; every branch only logs, so no state changes. */
    method OnAction(action: ListItemAction) returns (branch: Branch)
      ensures branch == Handled <==> action.ViewDetails?
    {
      match action
      case ViewDetails(_, _) => branch := Handled;
      case _ => branch := Unhandled;
    }

    method ConsumeError()
      modifies this`error
      ensures error == None
    {
      error := None;
    }
  }

  class EventViewModel {
    var items: seq<EventData>
    var isLoading: bool
    var error: Option<string>

    static const ErrorPrefix := "Failed to load events: "

    /** A new holder has no items and no error, and `init` has begun its first load. */
    constructor ()
      ensures items == [] && isLoading && error == None
    {
      items, isLoading, error := [], false, None;
      new;
      BeginLoad();
    }

    /** The part of `loadItems` before the simulated delay. */
    method BeginLoad()
      modifies this
      ensures isLoading && error == None && items == old(items)
    {
      isLoading := true;
      error := None;
    }

    /** The rest of `loadItems`: the sample list, or the failure message; `finally` clears the loading flag. */
    method CompleteLoad(sampleDay: Date, outcome: LoadOutcome)
      modifies this
      ensures !isLoading
      ensures outcome.Loaded? ==> items == [SampleEvent1(sampleDay), SampleEvent2(sampleDay)] && error == old(error)
      ensures outcome.Failed? ==> items == old(items) && error == Some(FailureMessage(ErrorPrefix, outcome.cause))
    {
      match outcome {
        case Loaded =>
          items := [SampleEvent1(sampleDay), SampleEvent2(sampleDay)];
        case Failed(e) =>
          error := Some(FailureMessage(ErrorPrefix, e));
      }
      isLoading := false;
    }

    method OnItemClick(id: string) returns (dispatched: ListItemAction)
      ensures dispatched == ViewDetails(id, "Event")
    {
      dispatched := ViewDetails(id, "Event");
      var _ := OnAction(dispatched);
    }

    /** `Rsvp` and `ViewDetails` have branches of their own; every branch only logs, so no state changes. */
    method OnAction(action: ListItemAction) returns (branch: Branch)
      ensures branch == Handled <==> action.Rsvp? || action.ViewDetails?
    {
      match action
      case Rsvp(_, _) => branch := Handled;
      case ViewDetails(_, _) => branch := Handled;
      case _ => branch := Unhandled;
    }

    method ConsumeError()
      modifies this`error
      ensures error == None
    {
      error := None;
    }
  }
}
