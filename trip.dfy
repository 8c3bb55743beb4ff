/**
 * The session's selection as one value, and the derived view recomputed from
 * it on every change: active stages, nights, dates, passengers and the
 * estimated total.
 */
module Trip {
  import opened Basics
  import opened Catalog
  import opened Itinerary
  import opened Pricing

  /** An optional transfer: `from` for the inbound one, `to` for the outbound one. */
  datatype Transfer = Transfer(enabled: bool, place: string)

  /** The contact form; its fields are free text. */
  datatype Contact = Contact(name: string, email: string, phone: string, notes: string)

  /** Everything the user has chosen so far. */
  datatype Selection = Selection(
    travelMode: Id,
    hotelCat: Id,
    startDate: string,
    firstStage: nat,
    lastStage: nat,
    rooms: Rooms,
    stageNights: NightOverrides,
    selectedAddons: seq<Toggle>,
    selectedBike: Id,
    transferIn: Transfer,
    transferOut: Transfer,
    form: Contact)

  /** The stage range is non-empty and inside the route. */
  predicate InRange(d: TourData, s: Selection)
  {
    s.firstStage <= s.lastStage < |d.stages|
  }

  /** What every reachable selection satisfies. */
  predicate Consistent(d: TourData, s: Selection)
  {
    InRange(d, s) && UniqueIds(s.selectedAddons)
  }

  /** The selection the page opens with: the whole route, one double room, e-bike mode. */
  function Initial(d: TourData): (s: Selection)
    requires |d.stages| > 0
    ensures Consistent(d, s)
    ensures Active(d, s) == d.stages
    ensures TotalPassengers(s.rooms) == 2 && TotalRooms(s.rooms) == 1
  {
    Selection("ebike", "ST", "", 0, |d.stages| - 1, Rooms(0, 0, 1), map[], [], "riese_nevo",
              Transfer(false, ""), Transfer(false, ""), Contact("", "", "", ""))
  }

  function Active(d: TourData, s: Selection): (a: seq<Stage>)
    requires InRange(d, s)
    ensures |a| >= 1
  {
    ActiveStages(d.stages, s.firstStage, s.lastStage)
  }

  /** `totalNights` of the active stages: at least one night per stage before the last. */
  function Nights(d: TourData, s: Selection): (r: nat)
    requires InRange(d, s)
    ensures r + 1 >= s.lastStage - s.firstStage + 1
  {
    TotalNights(Active(d, s), s.stageNights)
  }

  /**
   * `endDate` of the selection, the date input read as a day number by `dayOf`:
   * unknown without a start date, otherwise at least one day per stage before the last.
   */
  function EndDateOf(d: TourData, s: Selection, dayOf: string -> int): (r: Option<int>)
    requires InRange(d, s)
    ensures r.None? <==> s.startDate == ""
    ensures r.Some? ==> r.value == dayOf(s.startDate) + Nights(d, s)
    ensures r.Some? ==> r.value >= dayOf(s.startDate) + (s.lastStage - s.firstStage)
  {
    EndDate(StartDay(s.startDate, dayOf), Active(d, s), s.stageNights)
  }

  function Passengers(s: Selection): nat
  {
    TotalPassengers(s.rooms)
  }

  function QuantitiesOf(d: TourData, s: Selection): Quantities
    requires InRange(d, s)
  {
    Quantities(|Active(d, s)|, Nights(d, s), Passengers(s))
  }

  /** The hotel part of the estimate: rate times nights, billed for at least one room. */
  function AccommodationOf(d: TourData, s: Selection): (r: nat)
    requires InRange(d, s)
    ensures r >= HotelPrice(d.hotels, s.hotelCat) * Nights(d, s)
    ensures TotalRooms(s.rooms) <= 1 ==> r == HotelPrice(d.hotels, s.hotelCat) * Nights(d, s)
  {
    Accommodation(HotelPrice(d.hotels, s.hotelCat), Nights(d, s), TotalRooms(s.rooms))
  }

  /**
   * `estimatedTotal`: accommodation for at least one room, the e-bike rental,
   * and the add-ons. A trip of at least one night always has a positive price.
   */
  function EstimatedTotal(d: TourData, s: Selection): (r: nat)
    requires InRange(d, s)
    ensures r >= HotelPrice(d.hotels, s.hotelCat) * Nights(d, s)
    ensures Nights(d, s) > 0 ==> r > 0
    ensures r >= AddonTotal(d.addons, s.selectedAddons, QuantitiesOf(d, s))
  {
    AccommodationOf(d, s)
      + BikeCost(d.bikes, s.selectedBike, s.travelMode, Nights(d, s), Passengers(s))
      + AddonTotal(d.addons, s.selectedAddons, QuantitiesOf(d, s))
  }

  /** The per-person figure under the total, absent when no room is chosen. */
  function PerPersonPrice(d: TourData, s: Selection): (r: Option<nat>)
    requires InRange(d, s)
    ensures r.Some? <==> TotalRooms(s.rooms) > 0
  {
    PerPerson(EstimatedTotal(d, s), Passengers(s))
  }

  /** Checking an add-on never lowers the estimate. */
  lemma CheckingAddonNeverLowersEstimate(d: TourData, s: Selection, id: Id)
    requires InRange(d, s)
    ensures EstimatedTotal(d, s.(selectedAddons := SetToggle(s.selectedAddons, id, true)))
         >= EstimatedTotal(d, s)
  {
    var s' := s.(selectedAddons := SetToggle(s.selectedAddons, id, true));
    assert QuantitiesOf(d, s') == QuantitiesOf(d, s);
    CheckingNeverLowersAddonTotal(d.addons, s.selectedAddons, id, QuantitiesOf(d, s));
  }

  /** Unchecking an add-on never raises the estimate. */
  lemma UncheckingAddonNeverRaisesEstimate(d: TourData, s: Selection, id: Id)
    requires InRange(d, s)
    ensures EstimatedTotal(d, s.(selectedAddons := SetToggle(s.selectedAddons, id, false)))
         <= EstimatedTotal(d, s)
  {
    var s' := s.(selectedAddons := SetToggle(s.selectedAddons, id, false));
    assert QuantitiesOf(d, s') == QuantitiesOf(d, s);
    UncheckingNeverRaisesAddonTotal(d.addons, s.selectedAddons, id, QuantitiesOf(d, s));
  }

  /** The estimate grows with the stay, the room count and the passenger count. */
  lemma EstimateMonotone(d: TourData, s: Selection, s': Selection)
    requires InRange(d, s) && s' == s.(rooms := s'.rooms, stageNights := s'.stageNights)
    requires Nights(d, s) <= Nights(d, s')
    requires TotalRooms(s.rooms) <= TotalRooms(s'.rooms) && Passengers(s) <= Passengers(s')
    ensures EstimatedTotal(d, s) <= EstimatedTotal(d, s')
  {
    AccommodationMonotone(HotelPrice(d.hotels, s.hotelCat), Nights(d, s), Nights(d, s'),
                          TotalRooms(s.rooms), TotalRooms(s'.rooms));
    BikeCostMonotone(d.bikes, s.selectedBike, s.travelMode, Nights(d, s), Nights(d, s'), Passengers(s), Passengers(s'));
    AddonTotalMonotone(d.addons, s.selectedAddons, QuantitiesOf(d, s), QuantitiesOf(d, s'));
  }

  /** Another room of any kind never lowers the estimate. */
  lemma AddingRoomNeverLowersEstimate(d: TourData, s: Selection, k: RoomKind)
    requires InRange(d, s)
    ensures EstimatedTotal(d, s.(rooms := IncRoom(s.rooms, k))) >= EstimatedTotal(d, s)
  {
    EstimateMonotone(d, s, s.(rooms := IncRoom(s.rooms, k)));
  }

  /** Another night at any active stage never lowers the estimate. */
  lemma LongerStayNeverLowersEstimate(d: TourData, s: Selection, idx: nat)
    requires InRange(d, s) && idx < |Active(d, s)|
    ensures var a := Active(d, s);
      EstimatedTotal(d, s.(stageNights := IncOverride(s.stageNights, a[idx].id, idx == |a| - 1)))
      >= EstimatedTotal(d, s)
  {
    var a := Active(d, s);
    var s' := s.(stageNights := IncOverride(s.stageNights, a[idx].id, idx == |a| - 1));
    IncNeverShortens(s.stageNights, a[idx].id, idx == |a| - 1);
    TotalNightsMonotone(a, s.stageNights, s'.stageNights);
    EstimateMonotone(d, s, s');
  }

  /**
   * A three-stage route ridden end to end, with one
   * double room, no overrides and a 75-a-night hotel outside e-bike mode:
   * two nights and 150 in total.
   */
  lemma ThreeStageExample(d: TourData, s: Selection)
    requires d.stages == [Stage("A", "A", 0), Stage("B", "B", 10), Stage("C", "C", 15)]
    requires d.hotels == [HotelCategory("ST", "Standard", 75)]
    requires s.firstStage == 0 && s.lastStage == 2 && s.stageNights == map[]
    requires s.hotelCat == "ST" && s.rooms == Rooms(0, 0, 1) && s.travelMode == "walking"
    requires s.selectedAddons == []
    ensures Nights(d, s) == 2
    ensures TotalKm(Active(d, s)) == 25
    ensures EstimatedTotal(d, s) == 150
  {
    var a := Active(d, s);
    var m := s.stageNights;
    assert a == d.stages;
    assert FoldNights(a, m, 1) == 1;
    assert FoldNights(a, m, 2) == 2;
    assert FoldNights(a, m, 3) == 2;
    assert a[..2] == [Stage("A", "A", 0), Stage("B", "B", 10)];
    assert a[..2][..1] == [Stage("A", "A", 0)];
    assert a[..2][..1][..0] == [];
    assert TotalKm(a[..2][..1]) == 0;
    assert TotalKm(a[..2]) == 10;
    assert FindHotel(d.hotels, "ST") == Some(d.hotels[0]);
  }
}
