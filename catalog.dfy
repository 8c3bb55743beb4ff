/**
 * The read-only tour catalog: the route stages, travel modes, hotel categories,
 * e-bike models and add-ons. Its contents are not fixed by the model; every
 * derivation takes a `TourData` value as a parameter.
 */
module Catalog {
  import opened Basics

  type Id = string

  /** A waypoint of the route; `km` is the distance from the previous stage. */
  datatype Stage = Stage(id: Id, name: string, km: nat)

  datatype TravelMode = TravelMode(id: Id, caption: string)

  datatype HotelCategory = HotelCategory(id: Id, caption: string, priceBase: nat)

  datatype EBikeModel = EBikeModel(id: Id, name: string, price: nat)

  /**
   * What an add-on's price is multiplied by. The source tests the unit tag for
   * "stage" and "night"; every other tag is billed per passenger.
   */
  datatype BillingUnit = PerStage | PerNight | PerPassenger

  datatype Addon = Addon(id: Id, caption: string, price: nat, unit: BillingUnit)

  datatype TourData = TourData(
    stages: seq<Stage>,
    modes: seq<TravelMode>,
    hotels: seq<HotelCategory>,
    bikes: seq<EBikeModel>,
    addons: seq<Addon>)

  /** `Array.prototype.findIndex`: the position of the first element satisfying `p`, None for -1. */
  function FindIndex<T>(s: seq<T>, p: T -> bool): (r: Option<nat>)
    ensures r.Some? ==> r.value < |s| && p(s[r.value])
    ensures r.Some? ==> forall j :: 0 <= j < r.value ==> !p(s[j])
    ensures r.None? <==> forall j :: 0 <= j < |s| ==> !p(s[j])
  {
    if s == [] then None
    else if p(s[0]) then Some(0)
    else match FindIndex(s[1..], p)
      case None => None
      case Some(i) => Some(i + 1)
  }

  /** `Array.prototype.find`: the first element satisfying `p`, None for `undefined`. */
  function Find<T>(s: seq<T>, p: T -> bool): (r: Option<T>)
    ensures r.Some? ==> r.value in s && p(r.value)
    ensures r.None? <==> forall x :: x in s ==> !p(x)
    ensures forall i :: 0 <= i < |s| && p(s[i]) && (forall j :: 0 <= j < i ==> !p(s[j])) ==> r == Some(s[i])
  {
    match FindIndex(s, p)
    case None => None
    case Some(i) => Some(s[i])
  }

  function FindMode(modes: seq<TravelMode>, id: Id): Option<TravelMode>
  {
    Find(modes, (m: TravelMode) => m.id == id)
  }

  function FindHotel(hotels: seq<HotelCategory>, id: Id): Option<HotelCategory>
  {
    Find(hotels, (c: HotelCategory) => c.id == id)
  }

  function FindBike(bikes: seq<EBikeModel>, id: Id): Option<EBikeModel>
  {
    Find(bikes, (b: EBikeModel) => b.id == id)
  }

  function FindAddon(addons: seq<Addon>, id: Id): Option<Addon>
  {
    Find(addons, (a: Addon) => a.id == id)
  }
}
