/** The section pills of the page and the step numbers shown in section headings. */
module Navigation {
  import opened Basics
  import opened Catalog

  datatype Section = ModeStep | HotelStep | DatesStep | ItineraryStep | EbikeStep | AddonsStep | SummaryStep

  /** `navItems`: the e-bike section is listed only in e-bike mode. */
  function NavItems(travelMode: Id): (r: seq<Section>)
    ensures EbikeStep in r <==> travelMode == "ebike"
    ensures |r| == if travelMode == "ebike" then 7 else 6
    ensures r[0] == ModeStep && r[|r| - 1] == SummaryStep
    ensures forall i, j :: 0 <= i < j < |r| ==> r[i] != r[j]
  {
    [ModeStep, HotelStep, DatesStep, ItineraryStep]
      + (if travelMode == "ebike" then [EbikeStep] else [])
      + [AddonsStep, SummaryStep]
  }

  /** `stepNum(key)`: the 1-based position of the section; None stands for the empty label. */
  function StepNum(travelMode: Id, key: Section): (r: Option<nat>)
    ensures r.Some? <==> key in NavItems(travelMode)
    ensures r.Some? ==> 1 <= r.value <= |NavItems(travelMode)| && NavItems(travelMode)[r.value - 1] == key
  {
    match FindIndex(NavItems(travelMode), (n: Section) => n == key)
    case None => None
    case Some(i) => Some(i + 1)
  }

  /** The listed sections are numbered 1, 2, ..., n in list order. */
  lemma StepsNumberedInOrder(travelMode: Id, i: nat)
    requires i < |NavItems(travelMode)|
    ensures StepNum(travelMode, NavItems(travelMode)[i]) == Some(i + 1)
  {
    var items := NavItems(travelMode);
    var r := StepNum(travelMode, items[i]);
    assert items[r.value - 1] == items[i];
  }

  /** Only e-bike mode numbers the e-bike section, and it shifts the later steps by one. */
  lemma EbikeStepNumbering(travelMode: Id)
    ensures StepNum(travelMode, EbikeStep).Some? <==> travelMode == "ebike"
    ensures travelMode == "ebike" ==>
      StepNum(travelMode, EbikeStep) == Some(5) && StepNum(travelMode, AddonsStep) == Some(6)
      && StepNum(travelMode, SummaryStep) == Some(7)
    ensures travelMode != "ebike" ==>
      StepNum(travelMode, AddonsStep) == Some(5) && StepNum(travelMode, SummaryStep) == Some(6)
  {
    var items := NavItems(travelMode);
    if travelMode == "ebike" {
      StepsNumberedInOrder(travelMode, 4);
      StepsNumberedInOrder(travelMode, 5);
      StepsNumberedInOrder(travelMode, 6);
    } else {
      StepsNumberedInOrder(travelMode, 4);
      StepsNumberedInOrder(travelMode, 5);
    }
  }
}
