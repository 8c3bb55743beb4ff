/**
 * The configurator's session state and the event handlers that change it. Most
 * handlers change one field or one map key; the first-stage select can move
 * `lastStage` along with `firstStage`.
 */
module Session {
  import opened Basics
  import opened Catalog
  import opened Itinerary
  import opened Pricing
  import opened Trip

  /** The options of the last-stage select: every stage index from `first` to the end of the route. */
  function LastStageChoices(first: nat, count: nat): (r: seq<nat>)
    ensures |r| == if first <= count then count - first else 0
    ensures forall i :: 0 <= i < |r| ==> r[i] == first + i
    decreases count - first
  {
    if first >= count then [] else [first] + LastStageChoices(first + 1, count)
  }

  /** A stage can be chosen as the last one exactly when it is not before the first one. */
  lemma LastStageChoicesExact(first: nat, count: nat, v: nat)
    ensures v in LastStageChoices(first, count) <==> first <= v < count
  {
    var r := LastStageChoices(first, count);
    if first <= v < count {
      assert r[v - first] == v;
    }
  }

  class Planner {
    const data: TourData
    var travelMode: Id
    var hotelCat: Id
    var startDate: string
    var firstStage: nat
    var lastStage: nat
    var rooms: Rooms
    var stageNights: NightOverrides
    var selectedAddons: seq<Toggle>
    var selectedBike: Id
    var transferIn: Transfer
    var transferOut: Transfer
    var form: Contact

    /** The state as one value, for the derived view. */
    function Snapshot(): Selection
      reads this
    {
      Selection(travelMode, hotelCat, startDate, firstStage, lastStage, rooms, stageNights,
                selectedAddons, selectedBike, transferIn, transferOut, form)
    }

    /** The stage range stays inside the route and non-empty; the add-on keys stay distinct. */
    ghost predicate Valid()
      reads this
    {
      Consistent(data, Snapshot())
    }

    constructor (data: TourData)
      requires |data.stages| > 0
      ensures this.data == data && Valid()
      ensures Snapshot() == Initial(data)
    {
      this.data := data;
      travelMode, hotelCat, startDate := "ebike", "ST", "";
      firstStage, lastStage := 0, |data.stages| - 1;
      rooms := Rooms(0, 0, 1);
      stageNights, selectedAddons := map[], [];
      selectedBike := "riese_nevo";
      transferIn, transferOut := Transfer(false, ""), Transfer(false, "");
      form := Contact("", "", "", "");
    }

    method SelectTravelMode(id: Id)
      requires Valid()
      modifies this
      ensures Valid()
      ensures Snapshot() == old(Snapshot()).(travelMode := id)
    {
      travelMode := id;
    }

    method SelectHotel(id: Id)
      requires Valid()
      modifies this
      ensures Valid()
      ensures Snapshot() == old(Snapshot()).(hotelCat := id)
    {
      hotelCat := id;
    }

    method SetStartDate(text: string)
      requires Valid()
      modifies this
      ensures Valid()
      ensures Snapshot() == old(Snapshot()).(startDate := text)
    {
      startDate := text;
    }

    /** The first-stage select: the last stage is pushed forward when passed. */
    method SelectFirstStage(v: nat)
      requires Valid() && v < |data.stages|
      modifies this
      ensures Valid()
      ensures Snapshot() == old(Snapshot()).(firstStage := v, lastStage := Max(old(lastStage), v))
      ensures Active(data, Snapshot())[0] == data.stages[v]
    {
      firstStage := v;
      if v > lastStage {
        lastStage := v;
      }
    }

    /** The last-stage select, which offers only the stages from the first one on. */
    method SelectLastStage(v: nat)
      requires Valid() && v in LastStageChoices(firstStage, |data.stages|)
      modifies this
      ensures Valid()
      ensures Snapshot() == old(Snapshot()).(lastStage := v)
    {
      LastStageChoicesExact(firstStage, |data.stages|, v);
      lastStage := v;
    }

    /** A room counter's minus button: the count never goes below zero. */
    method DecRoomCount(k: RoomKind)
      requires Valid()
      modifies this
      ensures Valid()
      ensures Snapshot() == old(Snapshot()).(rooms := DecRoom(old(rooms), k))
      ensures Count(rooms, k) == Max(0, old(Count(rooms, k)) - 1)
    {
      rooms := WithCount(rooms, k, Max(0, Count(rooms, k) - 1));
    }

    /** A room counter's plus button: never lowers the estimate. */
    method IncRoomCount(k: RoomKind)
      requires Valid()
      modifies this
      ensures Valid()
      ensures Snapshot() == old(Snapshot()).(rooms := IncRoom(old(rooms), k))
      ensures EstimatedTotal(data, Snapshot()) >= old(EstimatedTotal(data, Snapshot()))
    {
      AddingRoomNeverLowersEstimate(data, Snapshot(), k);
      rooms := WithCount(rooms, k, Count(rooms, k) + 1);
    }

    /** The minus button of the night counter on itinerary card `idx`. */
    method DecStageNights(idx: nat)
      requires Valid() && idx < |Active(data, Snapshot())|
      modifies this
      ensures Valid()
      ensures var a := old(Active(data, Snapshot()));
        Snapshot() == old(Snapshot()).(stageNights := DecOverride(old(stageNights), a[idx].id, idx == |a| - 1))
    {
      var a := Active(data, Snapshot());
      stageNights := DecOverride(stageNights, a[idx].id, idx == |a| - 1);
    }

    /** The plus button of the night counter on itinerary card `idx`: never lowers the estimate. */
    method IncStageNights(idx: nat)
      requires Valid() && idx < |Active(data, Snapshot())|
      modifies this
      ensures Valid()
      ensures var a := old(Active(data, Snapshot()));
        Snapshot() == old(Snapshot()).(stageNights := IncOverride(old(stageNights), a[idx].id, idx == |a| - 1))
      ensures EstimatedTotal(data, Snapshot()) >= old(EstimatedTotal(data, Snapshot()))
    {
      LongerStayNeverLowersEstimate(data, Snapshot(), idx);
      var a := Active(data, Snapshot());
      stageNights := IncOverride(stageNights, a[idx].id, idx == |a| - 1);
    }

    method SelectBike(id: Id)
      requires Valid()
      modifies this
      ensures Valid()
      ensures Snapshot() == old(Snapshot()).(selectedBike := id)
    {
      selectedBike := id;
    }

    /** An add-on checkbox: checking never lowers the estimate, unchecking never raises it. */
    method SetAddon(id: Id, checked: bool)
      requires Valid()
      modifies this
      ensures Valid()
      ensures Snapshot() == old(Snapshot()).(selectedAddons := SetToggle(old(selectedAddons), id, checked))
      ensures checked ==> EstimatedTotal(data, Snapshot()) >= old(EstimatedTotal(data, Snapshot()))
      ensures !checked ==> EstimatedTotal(data, Snapshot()) <= old(EstimatedTotal(data, Snapshot()))
    {
      if checked {
        CheckingAddonNeverLowersEstimate(data, Snapshot(), id);
      } else {
        UncheckingAddonNeverRaisesEstimate(data, Snapshot(), id);
      }
      SetToggleUnique(selectedAddons, id, checked);
      selectedAddons := SetToggle(selectedAddons, id, checked);
    }

    method SetTransferIn(enabled: bool)
      requires Valid()
      modifies this
      ensures Valid()
      ensures Snapshot() == old(Snapshot()).(transferIn := old(transferIn).(enabled := enabled))
    {
      transferIn := transferIn.(enabled := enabled);
    }

    method SetTransferInFrom(place: string)
      requires Valid()
      modifies this
      ensures Valid()
      ensures Snapshot() == old(Snapshot()).(transferIn := old(transferIn).(place := place))
    {
      transferIn := transferIn.(place := place);
    }

    method SetTransferOut(enabled: bool)
      requires Valid()
      modifies this
      ensures Valid()
      ensures Snapshot() == old(Snapshot()).(transferOut := old(transferOut).(enabled := enabled))
    {
      transferOut := transferOut.(enabled := enabled);
    }

    method SetTransferOutTo(place: string)
      requires Valid()
      modifies this
      ensures Valid()
      ensures Snapshot() == old(Snapshot()).(transferOut := old(transferOut).(place := place))
    {
      transferOut := transferOut.(place := place);
    }

    /** The contact form's inputs. */
    method EditForm(c: Contact)
      requires Valid()
      modifies this
      ensures Valid()
      ensures Snapshot() == old(Snapshot()).(form := c)
    {
      form := c;
    }
  }
}
