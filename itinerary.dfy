/**
 * The itinerary derived from the chosen stage range: the active stages, the
 * distance, the nights spent at each stage, and the arrival dates. Dates are
 * whole day numbers, so adding days is integer addition.
 */
module Itinerary {
  import opened Basics
  import opened Catalog

  /** Per-stage night overrides, keyed by stage id (`stageNights`). */
  type NightOverrides = map<Id, nat>

  /** `STAGES.slice(first, last + 1)`: the stages of the trip, both ends included. */
  function ActiveStages(stages: seq<Stage>, first: nat, last: nat): (r: seq<Stage>)
    requires first <= last < |stages|
    ensures |r| == last - first + 1
    ensures r[0] == stages[first] && r[|r| - 1] == stages[last]
    ensures forall i :: 0 <= i < |r| ==> r[i] == stages[first + i]
  {
    stages[first..last + 1]
  }

  /** The trip distance: the sum of `km` over the active stages, first one included. */
  function TotalKm(a: seq<Stage>): (r: nat)
    ensures forall i :: 0 <= i < |a| ==> a[i].km <= r
    ensures r == 0 <==> forall i :: 0 <= i < |a| ==> a[i].km == 0
  {
    if a == [] then 0 else TotalKm(a[..|a| - 1]) + a[|a| - 1].km
  }

  /** The sum of the leg distances the itinerary shows between consecutive stages. */
  function LegKm(a: seq<Stage>): nat
  {
    if |a| <= 1 then 0 else LegKm(a[..|a| - 1]) + a[|a| - 1].km
  }

  /**
   * The trip distance exceeds the sum of the legs shown between the stages by
   * exactly the first active stage's own distance from its predecessor.
   */
  lemma {:induction false} TotalKmIsFirstPlusLegs(a: seq<Stage>)
    requires |a| > 0
    ensures TotalKm(a) == a[0].km + LegKm(a)
  {
    if |a| > 1 {
      var init := a[..|a| - 1];
      TotalKmIsFirstPlusLegs(init);
      assert init[0] == a[0];
    }
  }

  /** `stageNights[id] || d`: a stored non-zero override, otherwise the default `d`. */
  function Stay(m: NightOverrides, id: Id, d: nat): nat
  {
    if id in m && m[id] != 0 then m[id] else d
  }

  /** The default, and the floor, of a stage's nights: 0 for the last stage, 1 otherwise. */
  function Floor(isLast: bool): nat
  {
    if isLast then 0 else 1
  }

  /** The nights shown for a stage on its itinerary card. */
  function ShownNights(m: NightOverrides, id: Id, isLast: bool): (r: nat)
    ensures isLast ==> r == (if id in m then m[id] else 0)
    ensures !isLast ==> r >= 1
    ensures !isLast ==> (r == 1 <==> id !in m || m[id] <= 1)
    ensures id in m && m[id] >= 1 ==> r == m[id]
  {
    Stay(m, id, Floor(isLast))
  }

  /** The `reduce` over the first `k` active stages, the last one read with default 0. */
  function FoldNights(a: seq<Stage>, m: NightOverrides, k: nat): (r: nat)
    requires k <= |a|
    ensures k < |a| ==> r >= k
    ensures r + 1 >= k
  {
    if k == 0 then 0
    else FoldNights(a, m, k - 1) + ShownNights(m, a[k - 1].id, k - 1 == |a| - 1)
  }

  /** `totalNights`. */
  function TotalNights(a: seq<Stage>, m: NightOverrides): (r: nat)
    ensures r + 1 >= |a|
  {
    FoldNights(a, m, |a|)
  }

  /** `cumNights` of the card at position `k`: the nights of the stages before it, each at least 1. */
  function CumNights(a: seq<Stage>, m: NightOverrides, k: nat): (r: nat)
    requires k <= |a|
    ensures r >= k
  {
    if k == 0 then 0 else CumNights(a, m, k - 1) + Stay(m, a[k - 1].id, 1)
  }

  lemma {:induction false} FoldNightsBeforeLast(a: seq<Stage>, m: NightOverrides, k: nat)
    requires k < |a|
    ensures FoldNights(a, m, k) == CumNights(a, m, k)
  {
    if k > 0 {
      FoldNightsBeforeLast(a, m, k - 1);
    }
  }

  /**
   * Total nights: every stage but the last counts its non-zero override or 1,
   * and the last stage counts its override or 0.
   */
  lemma TotalNightsSplit(a: seq<Stage>, m: NightOverrides)
    requires |a| > 0
    ensures TotalNights(a, m) == CumNights(a, m, |a| - 1) + ShownNights(m, a[|a| - 1].id, true)
  {
    FoldNightsBeforeLast(a, m, |a| - 1);
  }

  /** A one-stage trip lasts exactly that stage's override, or 0 nights. */
  lemma SingleStageNights(a: seq<Stage>, m: NightOverrides)
    requires |a| == 1
    ensures TotalNights(a, m) == if a[0].id in m then m[a[0].id] else 0
  {
    TotalNightsSplit(a, m);
  }

  /** Each stage before position `j` adds at least one night. */
  lemma {:induction false} CumNightsGrowth(a: seq<Stage>, m: NightOverrides, i: nat, j: nat)
    requires i <= j <= |a|
    ensures CumNights(a, m, j) >= CumNights(a, m, i) + (j - i)
    decreases j
  {
    if i < j {
      CumNightsGrowth(a, m, i, j - 1);
    }
  }

  /**
   * The `startDate ?` test of the end date and the card dates: the day number
   * of the start-date input, or no date yet for the empty input.
   */
  function StartDay(startDate: string, dayOf: string -> int): (r: Option<int>)
    ensures r.None? <==> startDate == ""
  {
    if startDate == "" then None else Some(dayOf(startDate))
  }

  /** `endDate`: the start plus the total nights, unknown without a start. */
  function EndDate(start: Option<int>, a: seq<Stage>, m: NightOverrides): (r: Option<int>)
    ensures r.None? <==> start.None?
    ensures r.Some? ==> r.value >= start.value
  {
    match start
    case None => None
    case Some(d) => Some(d + TotalNights(a, m))
  }

  /** `stageDate` of the card at position `idx`. */
  function StageDate(start: Option<int>, a: seq<Stage>, m: NightOverrides, idx: nat): (r: Option<int>)
    requires idx < |a|
    ensures r.None? <==> start.None?
    ensures r.Some? ==> r.value >= start.value + idx
  {
    CumNightsGrowth(a, m, 0, idx);
    match start
    case None => None
    case Some(d) => Some(d + CumNights(a, m, idx))
  }

  /** The first stage is reached on the start date. */
  lemma FirstArrivalIsStart(start: Option<int>, a: seq<Stage>, m: NightOverrides)
    requires |a| > 0
    ensures StageDate(start, a, m, 0) == start
  {
  }

  /** Each stage is reached the day its predecessor's nights run out. */
  lemma NextArrival(start: Option<int>, a: seq<Stage>, m: NightOverrides, idx: nat)
    requires idx + 1 < |a| && start.Some?
    ensures StageDate(start, a, m, idx + 1).value
         == StageDate(start, a, m, idx).value + ShownNights(m, a[idx].id, false)
  {
  }

  /** Arrival at the last stage plus the nights spent there is the end date. */
  lemma LastArrivalPlusStayIsEndDate(start: Option<int>, a: seq<Stage>, m: NightOverrides)
    requires |a| > 0 && start.Some?
    ensures StageDate(start, a, m, |a| - 1).value + ShownNights(m, a[|a| - 1].id, true)
         == EndDate(start, a, m).value
  {
    TotalNightsSplit(a, m);
  }

  /** Arrival dates strictly increase along the itinerary. */
  lemma ArrivalsIncrease(start: Option<int>, a: seq<Stage>, m: NightOverrides, i: nat, j: nat)
    requires i < j < |a| && start.Some?
    ensures StageDate(start, a, m, i).value < StageDate(start, a, m, j).value
  {
    CumNightsGrowth(a, m, i, j);
  }

  /** `p[id] ?? d`: the stored override, even when it is 0, otherwise the default `d`. */
  function Stored(m: NightOverrides, id: Id, d: nat): nat
  {
    if id in m then m[id] else d
  }

  /**
   * The counters' `??` and the display's `||` read the same entry differently
   * exactly when the stored value is 0 and the default is not.
   */
  lemma StoredVersusStay(m: NightOverrides, id: Id, d: nat)
    ensures Stored(m, id, d) != Stay(m, id, d) <==> id in m && m[id] == 0 && d != 0
  {
  }

  /** The night counter's minus button on the card of stage `id`. */
  function DecOverride(m: NightOverrides, id: Id, isLast: bool): (r: NightOverrides)
    ensures r.Keys == m.Keys + {id}
    ensures forall k :: k in m && k != id ==> r[k] == m[k]
    ensures r[id] == Max(Floor(isLast), Stored(m, id, Floor(isLast)) - 1)
    ensures ShownNights(r, id, isLast) == Max(Floor(isLast), ShownNights(m, id, isLast) - 1)
  {
    var v := Stored(m, id, Floor(isLast)) - 1;
    m[id := if v < Floor(isLast) then Floor(isLast) else v]
  }

  /**
   * The night counter's plus button on the card of stage `id`. The shown count
   * grows by one, except on a non-last stage that stores 0 (left by an earlier
   * decrement while it was last): it reads as 1 before and after.
   */
  function IncOverride(m: NightOverrides, id: Id, isLast: bool): (r: NightOverrides)
    ensures r.Keys == m.Keys + {id}
    ensures forall k :: k in m && k != id ==> r[k] == m[k]
    ensures r[id] == Stored(m, id, Floor(isLast)) + 1
    ensures if !isLast && id in m && m[id] == 0
            then ShownNights(r, id, isLast) == ShownNights(m, id, isLast) == 1
            else ShownNights(r, id, isLast) == ShownNights(m, id, isLast) + 1
  {
    m[id := Stored(m, id, Floor(isLast)) + 1]
  }

  /** `m'` never shows fewer nights than `m` for any stage, last or not. */
  ghost predicate NoShorter(m: NightOverrides, m': NightOverrides)
  {
    forall k :: Stay(m, k, 0) <= Stay(m', k, 0) && Stay(m, k, 1) <= Stay(m', k, 1)
  }

  lemma IncNeverShortens(m: NightOverrides, id: Id, isLast: bool)
    ensures NoShorter(m, IncOverride(m, id, isLast))
  {
  }

  lemma {:induction false} FoldNightsMonotone(a: seq<Stage>, m: NightOverrides, m': NightOverrides, k: nat)
    requires NoShorter(m, m') && k <= |a|
    ensures FoldNights(a, m, k) <= FoldNights(a, m', k)
  {
    if k > 0 {
      FoldNightsMonotone(a, m, m', k - 1);
      var id := a[k - 1].id;
      assert Stay(m, id, 0) <= Stay(m', id, 0) && Stay(m, id, 1) <= Stay(m', id, 1);
    }
  }

  /** Lengthening any stay never shortens the trip. */
  lemma TotalNightsMonotone(a: seq<Stage>, m: NightOverrides, m': NightOverrides)
    requires NoShorter(m, m')
    ensures TotalNights(a, m) <= TotalNights(a, m')
  {
    FoldNightsMonotone(a, m, m', |a|);
  }
}
