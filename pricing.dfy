/**
 * The pieces of the price estimate: room and passenger counts, the add-on
 * toggles and their total, the hotel rate with its fallback, the e-bike rental
 * and the per-person figure.
 */
module Pricing {
  import opened Basics
  import opened Catalog

  datatype RoomKind = Single | Twin | Double

  /** The room counters. */
  datatype Rooms = Rooms(single: nat, twin: nat, double: nat)

  function Count(r: Rooms, k: RoomKind): nat
  {
    match k
    case Single => r.single
    case Twin => r.twin
    case Double => r.double
  }

  /** `{ ...r, [key]: v }`. */
  function WithCount(r: Rooms, k: RoomKind, v: nat): (r': Rooms)
    ensures Count(r', k) == v
    ensures forall k' :: k' != k ==> Count(r', k') == Count(r, k')
  {
    match k
    case Single => r.(single := v)
    case Twin => r.(twin := v)
    case Double => r.(double := v)
  }

  /** `totalRooms`: no rooms exactly when every counter is 0, and never fewer than any one kind. */
  function TotalRooms(r: Rooms): (t: nat)
    ensures t == 0 <==> r.single == 0 && r.twin == 0 && r.double == 0
    ensures forall k :: Count(r, k) <= t
  {
    r.single + r.twin + r.double
  }

  /** Travellers: one per single room, two per twin or double room. */
  function TotalPassengers(r: Rooms): (p: nat)
    ensures TotalRooms(r) <= p <= 2 * TotalRooms(r)
    ensures p == 0 <==> TotalRooms(r) == 0
    ensures p == TotalRooms(r) <==> r.twin == 0 && r.double == 0
  {
    r.single + r.twin * 2 + r.double * 2
  }

  /** The occupancy of one room of each kind. */
  function Occupancy(k: RoomKind): nat
  {
    if k == Single then 1 else 2
  }

  /** The room counter's minus button: never below zero. */
  function DecRoom(r: Rooms, k: RoomKind): (r': Rooms)
    ensures Count(r', k) == Max(0, Count(r, k) - 1)
    ensures forall k' :: k' != k ==> Count(r', k') == Count(r, k')
    ensures Count(r, k) == 0 ==> r' == r
    ensures Count(r, k) > 0 ==>
      TotalRooms(r') + 1 == TotalRooms(r) && TotalPassengers(r') + Occupancy(k) == TotalPassengers(r)
  {
    WithCount(r, k, if Count(r, k) == 0 then 0 else Count(r, k) - 1)
  }

  /** The room counter's plus button. */
  function IncRoom(r: Rooms, k: RoomKind): (r': Rooms)
    ensures Count(r', k) == Count(r, k) + 1
    ensures forall k' :: k' != k ==> Count(r', k') == Count(r, k')
    ensures TotalRooms(r') == TotalRooms(r) + 1
    ensures TotalPassengers(r') == TotalPassengers(r) + Occupancy(k)
  {
    WithCount(r, k, Count(r, k) + 1)
  }

  /** One entry of `selectedAddons`: an add-on id and whether its box is checked. */
  datatype Toggle = Toggle(id: Id, on: bool)

  /** The entries of an object have distinct keys. */
  predicate UniqueIds(s: seq<Toggle>)
  {
    forall i, j :: 0 <= i < j < |s| ==> s[i].id != s[j].id
  }

  /** `selectedAddons[id]`: None for `undefined`. */
  function Lookup(s: seq<Toggle>, id: Id): (r: Option<bool>)
    ensures r.None? <==> forall i :: 0 <= i < |s| ==> s[i].id != id
    ensures r.Some? ==> Toggle(id, r.value) in s
  {
    if s == [] then None
    else if s[0].id == id then Some(s[0].on)
    else Lookup(s[1..], id)
  }

  /** With distinct keys, an id reads as the value of the one entry that has it. */
  lemma {:induction false} LookupUnique(s: seq<Toggle>, i: nat)
    requires UniqueIds(s) && i < |s|
    ensures Lookup(s, s[i].id) == Some(s[i].on)
  {
    if i > 0 {
      assert s[0].id != s[i].id;
      LookupUnique(s[1..], i - 1);
    }
  }

  /**
   * `{ ...p, [id]: on }`: an existing key keeps its place in the entry order,
   * a new key is appended.
   */
  function SetToggle(s: seq<Toggle>, id: Id, on: bool): (r: seq<Toggle>)
    ensures Lookup(s, id).None? ==> r == s + [Toggle(id, on)]
    ensures Lookup(s, id).Some? ==> |r| == |s| && forall i :: 0 <= i < |s| ==> r[i].id == s[i].id
  {
    if s == [] then [Toggle(id, on)]
    else if s[0].id == id then [Toggle(id, on)] + s[1..]
    else [s[0]] + SetToggle(s[1..], id, on)
  }

  /** After setting, `id` reads as set and every other key reads as before. */
  lemma {:induction false} SetToggleLookup(s: seq<Toggle>, id: Id, on: bool, k: Id)
    ensures Lookup(SetToggle(s, id, on), id) == Some(on)
    ensures k != id ==> Lookup(SetToggle(s, id, on), k) == Lookup(s, k)
  {
    if s != [] && s[0].id != id {
      SetToggleLookup(s[1..], id, on, k);
      assert SetToggle(s, id, on)[1..] == SetToggle(s[1..], id, on);
    }
  }

  /** Setting keeps the keys distinct. */
  lemma SetToggleUnique(s: seq<Toggle>, id: Id, on: bool)
    requires UniqueIds(s)
    ensures UniqueIds(SetToggle(s, id, on))
  {
    var r := SetToggle(s, id, on);
    forall i, j | 0 <= i < j < |r|
      ensures r[i].id != r[j].id
    {
      if Lookup(s, id).None? && j == |s| {
        assert r[i] == s[i] && r[j].id == id;
      } else {
        assert r[i].id == s[i].id && r[j].id == s[j].id;
      }
    }
  }

  /** The quantities an add-on's price can be multiplied by. */
  datatype Quantities = Quantities(stages: nat, nights: nat, passengers: nat)

  /** Componentwise order of quantities. */
  predicate AtMost(q: Quantities, q': Quantities)
  {
    q.stages <= q'.stages && q.nights <= q'.nights && q.passengers <= q'.passengers
  }

  /** `Math.max(stages - 1, 1)` per stage, `totalNights` per night, `totalPassengers` otherwise. */
  function Multiplier(u: BillingUnit, q: Quantities): (r: nat)
    ensures u == PerStage ==> r >= 1 && r + 1 >= q.stages
  {
    match u
    case PerStage => if q.stages >= 2 then q.stages - 1 else 1
    case PerNight => q.nights
    case PerPassenger => q.passengers
  }

  lemma MultiplierMonotone(u: BillingUnit, q: Quantities, q': Quantities)
    requires AtMost(q, q')
    ensures Multiplier(u, q) <= Multiplier(u, q')
  {
  }

  /** One entry's share of `addonTotal`: nothing if unchecked or not in the catalog. */
  function ToggleCost(addons: seq<Addon>, t: Toggle, q: Quantities): (r: nat)
    ensures !t.on || FindAddon(addons, t.id).None? ==> r == 0
  {
    if !t.on then 0
    else match FindAddon(addons, t.id)
      case None => 0
      case Some(a) => a.price * Multiplier(a.unit, q)
  }

  /** `addonTotal`: the `reduce` over the entries of `selectedAddons`. */
  function AddonTotal(addons: seq<Addon>, s: seq<Toggle>, q: Quantities): (r: nat)
    ensures forall i :: 0 <= i < |s| ==> ToggleCost(addons, s[i], q) <= r
  {
    if s == [] then 0 else ToggleCost(addons, s[0], q) + AddonTotal(addons, s[1..], q)
  }

  /** Only checked entries whose id is in the catalog contribute. */
  lemma {:induction false} AddonTotalZero(addons: seq<Addon>, s: seq<Toggle>, q: Quantities)
    requires forall i :: 0 <= i < |s| ==> !s[i].on || FindAddon(addons, s[i].id).None?
    ensures AddonTotal(addons, s, q) == 0
  {
    if s != [] {
      AddonTotalZero(addons, s[1..], q);
    }
  }

  /** The entry that `Lookup` sees for `id` (unchecked when there is none). */
  function Current(s: seq<Toggle>, id: Id): Toggle
  {
    Toggle(id, Lookup(s, id) == Some(true))
  }

  /** Setting a toggle replaces exactly that entry's share of the total. */
  lemma {:induction false} SetToggleCost(addons: seq<Addon>, s: seq<Toggle>, id: Id, on: bool, q: Quantities)
    ensures AddonTotal(addons, SetToggle(s, id, on), q) + ToggleCost(addons, Current(s, id), q)
         == AddonTotal(addons, s, q) + ToggleCost(addons, Toggle(id, on), q)
  {
    if s == [] {
    } else if s[0].id == id {
      assert SetToggle(s, id, on)[1..] == s[1..];
    } else {
      SetToggleCost(addons, s[1..], id, on, q);
      assert SetToggle(s, id, on)[1..] == SetToggle(s[1..], id, on);
    }
  }

  /** Checking an add-on never lowers the add-on total. */
  lemma CheckingNeverLowersAddonTotal(addons: seq<Addon>, s: seq<Toggle>, id: Id, q: Quantities)
    ensures AddonTotal(addons, SetToggle(s, id, true), q) >= AddonTotal(addons, s, q)
  {
    SetToggleCost(addons, s, id, true, q);
    var cur := Current(s, id);
    assert cur.on ==> cur == Toggle(id, true);
  }

  /** Unchecking an add-on never raises the add-on total. */
  lemma UncheckingNeverRaisesAddonTotal(addons: seq<Addon>, s: seq<Toggle>, id: Id, q: Quantities)
    ensures AddonTotal(addons, SetToggle(s, id, false), q) <= AddonTotal(addons, s, q)
  {
    SetToggleCost(addons, s, id, false, q);
  }

  lemma MulMonotone(a: nat, b: nat, b': nat)
    requires b <= b'
    ensures a * b <= a * b'
  {
  }

  lemma MulMonotone2(a: nat, a': nat, b: nat, b': nat)
    requires a <= a' && b <= b'
    ensures a * b <= a' * b'
  {
    MulMonotone(a, b, b');
    MulMonotone(b', a, a');
  }

  /** More stages, nights or passengers never lower the add-on total. */
  lemma {:induction false} AddonTotalMonotone(addons: seq<Addon>, s: seq<Toggle>, q: Quantities, q': Quantities)
    requires AtMost(q, q')
    ensures AddonTotal(addons, s, q) <= AddonTotal(addons, s, q')
  {
    if s != [] {
      AddonTotalMonotone(addons, s[1..], q, q');
      if s[0].on && FindAddon(addons, s[0].id).Some? {
        var a := FindAddon(addons, s[0].id).value;
        MultiplierMonotone(a.unit, q, q');
        MulMonotone(a.price, Multiplier(a.unit, q), Multiplier(a.unit, q'));
      }
    }
  }

  /** `hotelPrice`: the chosen category's base price, 75 if missing or 0. */
  function HotelPrice(hotels: seq<HotelCategory>, id: Id): (r: nat)
    ensures r >= 1
    ensures (forall c :: c in hotels ==> c.id != id) ==> r == 75
    ensures r != 75 ==> exists c :: c in hotels && c.id == id && c.priceBase == r
    ensures forall i :: (0 <= i < |hotels| && hotels[i].id == id &&
                         forall j :: 0 <= j < i ==> hotels[j].id != id)
                        ==> r == (if hotels[i].priceBase != 0 then hotels[i].priceBase else 75)
  {
    match FindHotel(hotels, id)
    case Some(c) => if c.priceBase != 0 then c.priceBase else 75
    case None => 75
  }

  /** The hotel cost: the nightly price for every night and every room, at least one room. */
  function Accommodation(price: nat, nights: nat, rooms: nat): (r: nat)
    ensures r >= price * nights
    ensures price >= 1 && nights >= 1 ==> r >= 1
    ensures rooms <= 1 ==> r == price * nights
  {
    MulMonotone(price * nights, 1, MaxOne(rooms));
    assert nights >= 1 ==> price * nights >= price by {
      if nights >= 1 { MulMonotone(price, 1, nights); }
    }
    price * nights * MaxOne(rooms)
  }

  lemma AccommodationMonotone(price: nat, n: nat, n': nat, k: nat, k': nat)
    requires n <= n' && k <= k'
    ensures Accommodation(price, n, k) <= Accommodation(price, n', k')
  {
    RentalMonotone(price, n, n', MaxOne(k), MaxOne(k'));
  }

  /** `bikeDays`: at least one day in e-bike mode, none otherwise. */
  function BikeDays(mode: Id, nights: nat): (r: nat)
    ensures r > 0 <==> mode == "ebike"
    ensures mode == "ebike" ==> r >= nights
  {
    if mode == "ebike" then MaxOne(nights) else 0
  }

  /** The e-bike rental: the chosen model's day rate for every day and every passenger. */
  function BikeCost(bikes: seq<EBikeModel>, bike: Id, mode: Id, nights: nat, passengers: nat): (r: nat)
    ensures mode != "ebike" || FindBike(bikes, bike).None? || passengers == 0 ==> r == 0
    ensures mode == "ebike" && FindBike(bikes, bike).Some?
      ==> r >= FindBike(bikes, bike).value.price * passengers
  {
    match FindBike(bikes, bike)
    case None => 0
    case Some(b) =>
      var days := BikeDays(mode, nights);
      assert mode == "ebike" ==> b.price * days * passengers >= b.price * passengers by {
        if mode == "ebike" {
          MulMonotone2(b.price, b.price, 1, days);
          MulMonotone2(b.price, b.price * days, passengers, passengers);
        }
      }
      b.price * days * passengers
  }

  lemma RentalMonotone(price: nat, d: nat, d': nat, p: nat, p': nat)
    requires d <= d' && p <= p'
    ensures price * d * p <= price * d' * p'
  {
    MulMonotone(price, d, d');
    MulMonotone2(price * d, price * d', p, p');
  }

  lemma BikeCostMonotone(bikes: seq<EBikeModel>, bike: Id, mode: Id, n: nat, n': nat, p: nat, p': nat)
    requires n <= n' && p <= p'
    ensures BikeCost(bikes, bike, mode, n, p) <= BikeCost(bikes, bike, mode, n', p')
  {
    if FindBike(bikes, bike).Some? {
      var price := FindBike(bikes, bike).value.price;
      RentalMonotone(price, BikeDays(mode, n), BikeDays(mode, n'), p, p');
    }
  }

  /**
   * `Math.round(total / passengers)`, shown only when there are passengers:
   * the nearest whole number, halves rounded up.
   */
  function PerPerson(total: nat, passengers: nat): (r: Option<nat>)
    ensures r.Some? <==> passengers > 0
    ensures r.Some? ==> 2 * r.value * passengers <= 2 * total + passengers
    ensures r.Some? ==> 2 * total + passengers < 2 * r.value * passengers + 2 * passengers
  {
    if passengers == 0 then None else Some((2 * total + passengers) / (2 * passengers))
  }

  /** The rounding is exact when the total divides evenly. */
  lemma PerPersonExact(share: nat, passengers: nat)
    requires passengers > 0
    ensures PerPerson(share * passengers, passengers) == Some(share)
  {
    var d := 2 * passengers;
    var t := 2 * (share * passengers) + passengers;
    assert t == share * d + passengers;
    DivideBetween(t, d, share);
  }

  lemma DivideBetween(t: nat, d: nat, q: nat)
    requires d > 0 && q * d <= t < q * d + d
    ensures t / d == q
  {
    var q' := t / d;
    assert t == q' * d + t % d;
    if q' < q {
      MulMonotone2(q' + 1, q, d, d);
    } else if q' > q {
      MulMonotone2(q + 1, q', d, d);
    }
  }
}
