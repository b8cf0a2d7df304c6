/**
 * The lost-and-found screen's state holder and its five sample reports.
 * `LocalDate.now()` is the parameter `today`, the reports' random UUIDs are
 * `ids`, and the order `shuffled()` leaves them in is whatever permutation
 * the method picks.
 */
module LostFoundViewModel {
  import opened Wrappers
  import opened Calendar
  import opened Storage
  import opened Lists
  import opened ListContract

  const ImageBase := "https://placehold.co/600x400/E0E0E0/757575?text="

  function BottleReport(today: Date, id: string): LostFoundItemData
  {
    LostFoundItemData(id, "Blue Water Bottle", Some("Steel blue water bottle, slightly scratched near the bottom."),
                      Some(ImageBase + "Bottle"), FOUND, today.PlusDays(-1), "Clubhouse Gym")
  }

  function KeysReport(today: Date, id: string): LostFoundItemData
  {
    LostFoundItemData(id, "Set of Keys", Some("Bunch of 3 keys on a red keychain."),
                      Some(ImageBase + "Keys"), LOST, today.PlusDays(-3), "Near Block C Entrance")
  }

  function WalletReport(today: Date, id: string): LostFoundItemData
  {
    LostFoundItemData(id, "Black Wallet", Some("Leather wallet, contains ID card."),
                      Some(ImageBase + "Wallet"), FOUND, today.PlusDays(-5), "Security Desk")
  }

  function ToyCarReport(today: Date, id: string): LostFoundItemData
  {
    LostFoundItemData(id, "Child's Toy Car", Some("Small red toy car."),
                      None, FOUND, today.PlusDays(-7 * 1), "Children's Play Area")
  }

  function SpectaclesReport(today: Date, id: string): LostFoundItemData
  {
    LostFoundItemData(id, "Spectacles", Some("Black framed spectacles in a blue case."),
                      Some(ImageBase + "Specs"), LOST, today.PlusDays(-2), "Park Bench")
  }

  /** The five reports in the order they are listed, before shuffling. */
  function SampleLostFoundItems(today: Date, ids: seq<string>): (items: seq<LostFoundItemData>)
    requires |ids| == 5
    ensures |items| == 5
    ensures [items[0].id, items[1].id, items[2].id, items[3].id, items[4].id] == ids
  {
    [ BottleReport(today, ids[0]), KeysReport(today, ids[1]), WalletReport(today, ids[2]),
      ToyCarReport(today, ids[3]), SpectaclesReport(today, ids[4]) ]
  }

  predicate IsFound(item: LostFoundItemData)
  {
    item.status == FOUND
  }

  predicate IsLost(item: LostFoundItemData)
  {
    item.status == LOST
  }

  predicate HasNoImage(item: LostFoundItemData)
  {
    item.imageUrl.None?
  }

  /** In the listed order: three found items, two lost ones, and one report without an image. */
  lemma {:induction false} SampleCounts(today: Date, ids: seq<string>)
    requires |ids| == 5
    ensures Count(SampleLostFoundItems(today, ids), IsFound) == 3
    ensures Count(SampleLostFoundItems(today, ids), IsLost) == 2
    ensures Count(SampleLostFoundItems(today, ids), HasNoImage) == 1
  {
    var items := SampleLostFoundItems(today, ids);
    var s1, s2, s3, s4 := items[1..], items[2..], items[3..], items[4..];
    assert s1[1..] == s2 && s2[1..] == s3 && s3[1..] == s4 && s4[1..] == [];
    assert Count(s4, IsFound) == 0 && Count(s4, IsLost) == 1 && Count(s4, HasNoImage) == 0;
    assert Count(s3, IsFound) == 1 && Count(s3, IsLost) == 1 && Count(s3, HasNoImage) == 1;
    assert Count(s2, IsFound) == 2 && Count(s2, IsLost) == 1 && Count(s2, HasNoImage) == 1;
    assert Count(s1, IsFound) == 2 && Count(s1, IsLost) == 2 && Count(s1, HasNoImage) == 1;
  }

  /**
   * Whatever order the reports are shuffled into, three are found items and
   * two are lost ones, and exactly one has no image.
   */
  lemma ShuffledSampleCounts(today: Date, ids: seq<string>, shown: seq<LostFoundItemData>)
    requires |ids| == 5
    requires multiset(shown) == multiset(SampleLostFoundItems(today, ids))
    ensures Count(shown, IsFound) == 3
    ensures Count(shown, IsLost) == 2
    ensures Count(shown, HasNoImage) == 1
  {
    var items := SampleLostFoundItems(today, ids);
    SampleCounts(today, ids);
    CountOfPermutation(shown, items, IsFound);
    CountOfPermutation(shown, items, IsLost);
    CountOfPermutation(shown, items, HasNoImage);
  }

  /**
   * Every report, in any order: it carries the desk's default contact,
   * was reported within the last week, and is described; only the toy car
   * has no image.
   */
  lemma ShuffledSampleFields(today: Date, ids: seq<string>, shown: seq<LostFoundItemData>)
    requires |ids| == 5
    requires multiset(shown) == multiset(SampleLostFoundItems(today, ids))
    ensures |shown| == 5
    ensures forall k :: 0 <= k < |shown| ==>
              && shown[k].contactInfo == DefaultContactInfo
              && today.PlusDays(-7).epochDay <= shown[k].dateReported.epochDay < today.epochDay
              && shown[k].description.Some?
              && (shown[k].imageUrl.None? <==> shown[k].name == "Child's Toy Car")
  {
    var items := SampleLostFoundItems(today, ids);
    assert |shown| == |multiset(shown)| == |multiset(items)| == 5;
    forall k | 0 <= k < |shown|
      ensures shown[k].contactInfo == DefaultContactInfo
      ensures today.PlusDays(-7).epochDay <= shown[k].dateReported.epochDay < today.epochDay
      ensures shown[k].description.Some?
      ensures shown[k].imageUrl.None? <==> shown[k].name == "Child's Toy Car"
    {
      assert shown[k] in multiset(items);
      assert shown[k] in items;
    }
  }

  class LostFoundViewModel {
    var items: seq<LostFoundItemData>
    var isLoading: bool
    var error: Option<string>

    static const ErrorPrefix := "Failed to load lost & found items: "

    /** A new holder has no items and no error, and `init` has begun its first load. */
    constructor ()
      ensures items == [] && isLoading && error == None
    {
      items, isLoading, error := [], false, None;
      new;
      BeginLoad();
    }

    /**
     * The part of `loadItems` before the simulated delay: the loading flag
     * is raised only when there is nothing to show yet, and any error goes.
     */
    method BeginLoad()
      modifies this
      ensures error == None && items == old(items)
      ensures isLoading == (old(isLoading) || old(items) == [])
    {
      if items == [] {
        isLoading := true;
      }
      error := None;
    }

    /** The rest of `loadItems`: the shuffled reports, or the failure message; `finally` clears the loading flag. */
    method CompleteLoad(today: Date, ids: seq<string>, outcome: LoadOutcome)
      requires |ids| == 5
      modifies this
      ensures !isLoading
      ensures outcome.Loaded? ==> multiset(items) == multiset(SampleLostFoundItems(today, ids)) && error == old(error)
      ensures outcome.Failed? ==> items == old(items) && error == Some(FailureMessage(ErrorPrefix, outcome.cause))
    {
      match outcome {
        case Loaded =>
          var samples := SampleLostFoundItems(today, ids);
          items := Shuffled(samples);
        case Failed(e) =>
          error := Some(FailureMessage(ErrorPrefix, e));
      }
      isLoading := false;
    }

    method OnItemClick(id: string) returns (dispatched: ListItemAction)
      ensures dispatched == ViewDetails(id, "LostFoundItem")
    {
      dispatched := ViewDetails(id, "LostFoundItem");
      var _ := OnAction(dispatched);
    }

    /** Only `ViewDetails` has a branch of its own; every branch only logs, so no state changes. */
    method OnAction(action: ListItemAction) returns (branch: Branch)
      ensures branch == Handled <==> action.ViewDetails?
    {
      match action
      case ViewDetails(_, _) => branch := Handled;
      case _ => branch := Unhandled;
    }

    method ConsumeError()
      modifies this`error
      ensures error == None
    {
      error := None;
    }
  }
}
