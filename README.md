# Trip configurator and quote estimator (model)

A Dafny model of the trip configurator of a cycling-tour operator: a single-page
React component, `App.jsx`. The user picks a travel mode, a hotel category and a
start date. They also pick a first and last stage of a fixed coastal route, the
room counts, the nights per stage, an e-bike model, add-ons and transfers. The
page recomputes an itinerary and a price estimate from those choices on every
change. It then turns them into a plain-text quote for mail and chat links.

The model has two parts.

- **Session state (imperative).** `Session.Planner` is a class whose fields are
  the component's state. Its methods are the event handlers. Each
  postcondition gives the whole new state as the old state with the changed
  fields replaced. Most handlers change one field or one map key. The
  first-stage select changes two: it sets `firstStage` and, when the new first
  stage lies past the last one, moves `lastStage` up to it (App.jsx:241-242).
  The stage selects keep `first <= last` inside the route. The room counters clamp at 0.
  The night counters clamp at 1, or at 0 for the last stage. Checking an
  add-on, adding a room or adding a night never lowers the estimate.
- **Derivations (pure).** Functions compute the active stage slice, the
  distance, the nights and the arrival dates. Others compute rooms and
  passengers, the add-on total, the estimated total and the per-person figure.
  Two more give the step numbers of the section headings and the quote's lines
  before URI encoding. Lemmas prove the properties that relate them.

The catalog (stages, travel modes, hotel categories, e-bike models, add-ons) is
a parameter, `Catalog.TourData`. Dates are whole day numbers, so adding days is
addition. The start-date input is parsed by a function parameter `dayOf`. An
empty input means "no date yet".

The model reproduces two JavaScript readings of the same night override:

- `stageNights[id] || d` (the display and the totals) treats a stored 0 as absent.
- `p[id] ?? d` (the counters) keeps a stored 0.

Suppose a stage stored 0 while it was the last stage, and is now not last. It
shows 1 night. Its plus button stores 1, so it still shows 1: one press has no
visible effect. `Itinerary.IncOverride` states this case exactly.

The trip distance sums `km` over the active stages, the first one included.
That stage's `km` is its distance from the preceding stage, which is not part
of the trip. `Itinerary.TotalKmIsFirstPlusLegs` proves the total is that
distance plus the legs the itinerary shows between cards.

The model follows what `App.jsx` does, including behaviour a reader might
expect to be different:

- every stage from the first to the last is part of the trip (App.jsx:36); no stage in between can be skipped;
- changing the travel mode (App.jsx:166) keeps the add-on toggles, so a checked add-on stays priced;
- the e-bike rental multiplies by `totalPassengers` (App.jsx:58), so it is 0 when no room is chosen;
- per-passenger add-ons multiply by `totalPassengers` (App.jsx:55), also 0 when no room is chosen;
- the estimate is exactly hotel, rental and add-ons (App.jsx:57-59): there are no accessories, no guide supplement and no rental-only price.

## Model

| member | source | states |
|---|---|---|
| `Catalog.FindIndex` | App.jsx:101-104 | `findIndex`: the result is the first position satisfying the predicate, or absent exactly when none does |
| `Catalog.Find` | App.jsx:46-51 | `find`: the result is an element satisfying the predicate and is the first such one; absent exactly when none does |
| `Itinerary.ActiveStages` | App.jsx:36 | the active stages are the contiguous slice `first..last`, of length `last-first+1`, starting at `first` and ending at `last` |
| `Itinerary.TotalKm` | App.jsx:37 | the distance is at least each active stage's `km`, and is 0 exactly when every active stage has `km` 0 |
| `Itinerary.TotalKmIsFirstPlusLegs` | App.jsx:37 | total km equals the first active stage's own `km` plus the leg distances shown between consecutive cards (line 318) |
| `Itinerary.ShownNights` | App.jsx:272 | the last stage shows its stored value or 0; any other stage shows at least 1; a stored 0 or no value shows 1 |
| `Itinerary.FoldNights` | App.jsx:38-41 | the `reduce` over the first k stages counts at least one night per stage, except that the last stage of the trip may add none |
| `Itinerary.TotalNights` | App.jsx:38-41 | a trip of n stages lasts at least n-1 nights |
| `Itinerary.CumNights` | App.jsx:274 | the nights before the card at position k are at least k |
| `Itinerary.FoldNightsBeforeLast` | App.jsx:38-41 | before the last stage, the `reduce` of total nights agrees with the cumulative nights of line 274 |
| `Itinerary.TotalNightsSplit` | App.jsx:38-41 | total nights = sum over non-last stages of (non-zero override, else 1) + last stage's (non-zero override, else 0) |
| `Itinerary.SingleStageNights` | App.jsx:38-41 | a one-stage trip lasts exactly that stage's override, or 0 nights |
| `Itinerary.CumNightsGrowth` | App.jsx:274 | each stage before a card adds at least one night to its cumulative nights |
| `Itinerary.StartDay` | App.jsx:42 | the start is unknown exactly when the date input is empty |
| `Itinerary.EndDate` | App.jsx:42 | the end date is unknown exactly without a start, and is never before the start |
| `Itinerary.StageDate` | App.jsx:275 | a card's date is unknown exactly without a start; card k is reached at least k days after the start |
| `Itinerary.FirstArrivalIsStart` | App.jsx:274-275 | the first card's date is the start date |
| `Itinerary.NextArrival` | App.jsx:272-275 | each card's date is the previous card's date plus the nights shown on the previous card |
| `Itinerary.LastArrivalPlusStayIsEndDate` | App.jsx:42 | the last card's date plus its nights equals the end date (with lines 272-275) |
| `Itinerary.ArrivalsIncrease` | App.jsx:274-275 | card dates strictly increase along the itinerary |
| `Itinerary.StoredVersusStay` | App.jsx:306-307 | the counters' `??` and the display's `||` (line 272) disagree exactly on a stored 0 with a non-zero default |
| `Itinerary.DecOverride` | App.jsx:306 | minus stores `max(floor, (stored ?? floor) - 1)`, leaves every other key alone, and the shown nights become `max(floor, shown - 1)` |
| `Itinerary.IncOverride` | App.jsx:307 | plus stores `(stored ?? floor) + 1`, leaves every other key alone; the shown nights grow by one except on a non-last stage storing 0, which shows 1 before and after |
| `Itinerary.IncNeverShortens` | App.jsx:307 | after a plus press no stage reads fewer nights, with either default |
| `Itinerary.FoldNightsMonotone` | App.jsx:38-41 | the night `reduce` over any prefix is monotone in the overrides |
| `Itinerary.TotalNightsMonotone` | App.jsx:38-41 | lengthening any stay never shortens the trip |
| `Pricing.WithCount` | App.jsx:207-208 | `{...r, [key]: v}` sets that room kind to v and leaves the other two unchanged |
| `Pricing.TotalRooms` | App.jsx:43 | no rooms exactly when all three counters are 0; never fewer rooms than any one kind |
| `Pricing.TotalPassengers` | App.jsx:43-44 | passengers lie between the room count and twice it, are 0 exactly when there are no rooms, and equal the room count exactly when there are only single rooms |
| `Pricing.DecRoom` | App.jsx:207 | the count becomes `max(0, count-1)`, other kinds unchanged; at 0 nothing changes, otherwise rooms drop by one and passengers by that room's occupancy |
| `Pricing.IncRoom` | App.jsx:208 | the count grows by one, other kinds unchanged; rooms grow by one and passengers by 1 (single) or 2 (twin, double) |
| `Pricing.Lookup` | App.jsx:404 | an id reads as absent exactly when no entry has it; otherwise the value read is that of an entry with that id |
| `Pricing.LookupUnique` | App.jsx:404 | with distinct keys, an id reads as the value of the one entry that has it |
| `Pricing.SetToggle` | App.jsx:407 | `{...p, [id]: on}` appends a new key at the end, or keeps an existing key's place and the order of all keys |
| `Pricing.SetToggleLookup` | App.jsx:407 | after setting, `id` reads as the new value and every other id reads as before |
| `Pricing.SetToggleUnique` | App.jsx:407 | setting keeps the keys distinct |
| `Pricing.Multiplier` | App.jsx:53-55 | the per-stage multiplier is at least 1 and at least the number of stages minus 1 |
| `Pricing.MultiplierMonotone` | App.jsx:53-55 | every multiplier is monotone in stages, nights and passengers |
| `Pricing.ToggleCost` | App.jsx:50-52 | an unchecked entry, or one whose id is not in the catalog, adds nothing |
| `Pricing.AddonTotal` | App.jsx:49-56 | the add-on total is at least the share of each entry |
| `Pricing.AddonTotalZero` | App.jsx:49-56 | with no checked entry found in the catalog, the add-on total is 0 |
| `Pricing.SetToggleCost` | App.jsx:49-56 | setting a toggle replaces exactly that id's share of the add-on total with its new share |
| `Pricing.CheckingNeverLowersAddonTotal` | App.jsx:49-56 | checking an add-on never lowers the add-on total |
| `Pricing.UncheckingNeverRaisesAddonTotal` | App.jsx:49-56 | unchecking an add-on never raises the add-on total |
| `Pricing.AddonTotalMonotone` | App.jsx:49-56 | the add-on total is monotone in stages, nights and passengers |
| `Pricing.Accommodation` | App.jsx:57 | the hotel cost is at least price x nights (at least one room is billed), positive when price and nights are, and exactly price x nights with at most one room |
| `Pricing.AccommodationMonotone` | App.jsx:57 | the hotel cost is monotone in nights and rooms |
| `Pricing.HotelPrice` | App.jsx:46 | the rate is at least 1; the first matching category's base price, or 75 when that is 0 or no category matches; any rate other than 75 is some category's base price |
| `Pricing.BikeDays` | App.jsx:48 | rental days are positive exactly in e-bike mode, and then at least the number of nights |
| `Pricing.BikeCost` | App.jsx:47-58 | the rental is 0 outside e-bike mode, without a found bike, or without passengers; in e-bike mode it is at least one day per passenger |
| `Pricing.BikeCostMonotone` | App.jsx:58 | the rental is monotone in nights and passengers |
| `Pricing.PerPerson` | App.jsx:450-451 | shown exactly when there are passengers, and then `Math.round(total / passengers)`: the nearest whole number, halves rounded up |
| `Pricing.PerPersonExact` | App.jsx:451 | a total that divides evenly yields exactly the share |
| `Trip.Initial` | App.jsx:17-31 | the opening state is consistent, spans the whole route, and has one room for two travellers |
| `Trip.Active` | App.jsx:36 | the active slice is never empty |
| `Trip.Nights` | App.jsx:38-41 | the trip lasts at least one night per stage before the last |
| `Trip.EndDateOf` | App.jsx:42 | the end date is unknown exactly when no start date is entered; otherwise it is the start day plus the total nights, so at least one day per stage before the last |
| `Trip.AccommodationOf` | App.jsx:57 | the hotel part is at least rate x nights, and exactly that with at most one room |
| `Trip.EstimatedTotal` | App.jsx:57-59 | the estimate is at least hotel rate x nights and at least the add-on total, and is positive whenever the trip has a night |
| `Trip.PerPersonPrice` | App.jsx:450-451 | the per-person figure exists exactly when at least one room is chosen |
| `Trip.CheckingAddonNeverLowersEstimate` | App.jsx:49-59 | checking an add-on never lowers the estimate |
| `Trip.UncheckingAddonNeverRaisesEstimate` | App.jsx:49-59 | unchecking an add-on never raises the estimate |
| `Trip.EstimateMonotone` | App.jsx:57-59 | with more nights, rooms and passengers the estimate never falls |
| `Trip.AddingRoomNeverLowersEstimate` | App.jsx:57-59 | a room of any kind added never lowers the estimate (with line 208) |
| `Trip.LongerStayNeverLowersEstimate` | App.jsx:57-59 | a plus press on any card's night counter never lowers the estimate (with line 307) |
| `Trip.ThreeStageExample` | App.jsx:36-59 | stages A(0), B(10), C(15) end to end, one double room, rate 75, no extras: 2 nights, 25 km, 150 in total |
| `Navigation.NavItems` | App.jsx:92-100 | the e-bike section is listed exactly in e-bike mode; 7 sections then, 6 otherwise; from `mode` to `summary`, without repeats |
| `Navigation.StepNum` | App.jsx:101-104 | a number exists exactly for listed sections, lies in 1..n, and names that section's position |
| `Navigation.StepsNumberedInOrder` | App.jsx:101-104 | the listed sections are numbered 1..n in list order |
| `Navigation.EbikeStepNumbering` | App.jsx:97-104 | the e-bike step is numbered exactly in e-bike mode (as 5, pushing add-ons to 6 and summary to 7); otherwise add-ons is 5 and summary 6 |
| `Quote.Digit` | App.jsx:76 | a digit character is between '0' and '9' and denotes its value |
| `Quote.Decimal` | App.jsx:76 | `${n}` is a non-empty string of digits, starting with 0 only for 0 |
| `Quote.DecimalRoundTrip` | App.jsx:76 | reading the decimal text of a number back yields the number |
| `Quote.Pad3` | App.jsx:86 | a group below 1000 is written as exactly its three digits, leading zeros included |
| `Quote.DecimalThousands` | App.jsx:86 | from 1000 on, the digits of n are those of n / 1000 followed by the three padded digits of n % 1000 |
| `Quote.GroupedDigits` | App.jsx:86 | `toLocaleString()` of the total is its decimal digits with commas inserted: removing the commas gives `${n}` |
| `Quote.DecimalShort` | App.jsx:86 | a number below 1000 has at most three digits, so it fills the leading group alone |
| `Quote.GroupedCommas` | App.jsx:86 | the commas of `toLocaleString()` sit where English grouping puts them: a leading group of one to three digits, then groups of a comma and exactly three digits |
| `Quote.AppendGroup` | App.jsx:86 | a comma and three digits appended to well-formed digit groups keep them well formed |
| `Quote.Join` | App.jsx:83 | with a non-empty separator, `join` is empty exactly for no labels or a single empty label |
| `Quote.CheckedLabels` | App.jsx:83 | no more labels than entries, and none exactly when nothing is checked |
| `Quote.CheckedLabelsComplete` | App.jsx:83 | the label of every checked add-on is listed |
| `Quote.CheckedLabelsSound` | App.jsx:83 | every listed label is the label of some checked add-on |
| `Quote.CheckedLabelsAppend` | App.jsx:83 | the labels of two runs of entries are the labels of the first run followed by those of the second |
| `Quote.AddonsText` | App.jsx:83 | the add-ons text is never empty, and reads `None` when nothing is checked |
| `Quote.NonEmpty` | App.jsx:88 | `filter(Boolean)` keeps a line exactly when it is non-empty, and keeps no empty line |
| `Quote.NonEmptyCounts` | App.jsx:88 | the filter keeps each non-empty line as many times as it occurs, and drops every empty one |
| `Quote.NonEmptyAppend` | App.jsx:88 | filtering a concatenation filters each part in place, so the order of the kept lines is the order of the input |
| `Quote.NonEmptyKeepsAll` | App.jsx:88 | lines that are all non-empty pass the filter unchanged |
| `Quote.RawLines` | App.jsx:72-88 | the quote has twenty candidate lines before filtering |
| `Quote.QuoteLines` | App.jsx:71-88 | no quote line is empty, and there are at most twenty |
| `Quote.QuoteLayout` | App.jsx:72-88 | the quote is, in order: the three contact lines, the eight trip-detail lines, the e-bike line only in e-bike mode, the add-ons line, each enabled transfer line, the total line, and the notes only when given |
| `Quote.QuoteTripDetails` | App.jsx:73-81 | the quote opens with the name line; its 4th to 6th lines are the header, the route from the first to the last active stage, and the distance with the total nights; its 11th line is the travellers count |
| `Quote.QuoteEnding` | App.jsx:86-87 | the quote ends with the estimated-total line, or with the notes right after it when notes are given |
| `Quote.RawEnding` | App.jsx:86-87 | the filtered lines end with the total line, followed by the notes line when notes are given |
| `Quote.FilterEnding` | App.jsx:88 | the filter keeps the non-blank total line last, or just before a non-blank notes line |
| `Quote.RawHeads` | App.jsx:72-87 | every candidate line is blank or starts with the fixed text of its position |
| `Quote.OnlyEbikeLineTagged` | App.jsx:72-88 | no candidate line but the e-bike one starts with `E-Bike: `, and that one does exactly in e-bike mode |
| `Quote.OnlyTransferInLineTagged` | App.jsx:72-88 | no candidate line but the inbound one starts with `Transfer In: `, and that one does exactly when enabled |
| `Quote.OnlyTransferOutLineTagged` | App.jsx:72-88 | no candidate line but the outbound one starts with `Transfer Out: `, and that one does exactly when enabled |
| `Quote.TaggedLineInQuote` | App.jsx:88 | after filtering, a line with a given tag survives exactly when the one candidate that can carry it does |
| `Quote.EbikeLineOnlyInEbikeMode` | App.jsx:82 | the quote has an `E-Bike: ` line exactly in e-bike mode |
| `Quote.TransferInLineOnlyWhenEnabled` | App.jsx:84 | the quote has a `Transfer In: ` line exactly when the inbound transfer is enabled |
| `Quote.TransferOutLineOnlyWhenEnabled` | App.jsx:85 | the quote has a `Transfer Out: ` line exactly when the outbound transfer is enabled |
| `Quote.NoAddonsQuotedAsNone` | App.jsx:83 | with no add-on checked the quote contains `Add-ons: None` |
| `Quote.TotalAlwaysQuoted` | App.jsx:86 | the quote always contains the estimated-total line |
| `Session.LastStageChoices` | App.jsx:250-251 | the last-stage options are `first, first+1, ...` up to the end of the route |
| `Session.LastStageChoicesExact` | App.jsx:250-251 | a stage is offered as last exactly when it is not before the first stage |
| `Session.Planner.constructor` | App.jsx:17-31 | the state starts as the opening selection and is consistent |
| `Session.Planner.SelectTravelMode` | App.jsx:166 | sets the travel mode, nothing else |
| `Session.Planner.SelectHotel` | App.jsx:185 | sets the hotel category, nothing else |
| `Session.Planner.SetStartDate` | App.jsx:227 | sets the start-date text, nothing else |
| `Session.Planner.SelectFirstStage` | App.jsx:239-243 | sets `first = v` and `last = max(last, v)`, nothing else; the range stays valid and starts at stage v |
| `Session.Planner.SelectLastStage` | App.jsx:249-251 | sets `last` to an offered index, nothing else; the range stays valid |
| `Session.Planner.DecRoomCount` | App.jsx:207 | decrements one room kind, clamped at 0, nothing else |
| `Session.Planner.IncRoomCount` | App.jsx:208 | increments one room kind, nothing else; the estimate does not fall |
| `Session.Planner.DecStageNights` | App.jsx:306 | applies the minus press to that card's stage key, nothing else |
| `Session.Planner.IncStageNights` | App.jsx:307 | applies the plus press to that card's stage key, nothing else; the estimate does not fall |
| `Session.Planner.SelectBike` | App.jsx:344 | sets the e-bike model, nothing else |
| `Session.Planner.SetAddon` | App.jsx:407 | sets one add-on toggle, nothing else; checking never lowers and unchecking never raises the estimate; keys stay distinct |
| `Session.Planner.SetTransferIn` | App.jsx:375 | sets the inbound transfer's flag, nothing else |
| `Session.Planner.SetTransferInFrom` | App.jsx:380 | sets the inbound transfer's origin, nothing else |
| `Session.Planner.SetTransferOut` | App.jsx:388 | sets the outbound transfer's flag, nothing else |
| `Session.Planner.SetTransferOutTo` | App.jsx:395 | sets the outbound transfer's destination, nothing else |
| `Session.Planner.EditForm` | App.jsx:458-469 | sets the contact form, nothing else |

## Left out

- RouteMap.jsx: a wrapper around a third-party map library (markers, tiles, popups, bounds); presentation only.
- JSX markup, the `SectionHead`, `Counter` and `SumItem` components, the summary's add-on badges, and the active-section highlight with scrolling (App.jsx:61-68): presentation only.
- The language toggle and the translation tables: display strings only; the quote text does not depend on them.
- JavaScript `Date` semantics (App.jsx:6-14, 228): parsing the start date is the parameter `dayOf`, dates are day numbers without calendar or time zone, and `formatDate` and the "today" minimum of the date input are not modelled.
- `encodeURIComponent`, the mail subject and the mail and chat link URLs (App.jsx:89, 475-481): the model stops at the list of lines before they are joined and encoded.
- The ride-time estimate (App.jsx:320-322): floating-point display text only.
- Quote.Grouped: models `toLocaleString()` as English digit grouping with commas; the browser's locale is not modelled.
- Pricing.PerPerson: computes `Math.round(total / passengers)` exactly on integers; JavaScript divides in floating point, which agrees for totals below 2^52. Above that a quotient just off a half can round onto the half: a total of 3·2^51 + 1 for 3 passengers gives 2^51 + 1 in JavaScript and 2^51 in the model.
- Numbers are unbounded integers; JavaScript numbers are doubles, exact for whole numbers below 2^53.
- Pricing.SetToggle: keeps the entries of `selectedAddons` in insertion order, and `Quote.CheckedLabels` lists the add-on labels in that order; JavaScript lists integer-like keys first, and the model assumes the catalog's add-on ids are not integer-like.
- The catalog's contents (`./data`): every derivation takes the catalog as a parameter. Its stage distances (`km`) and its prices (`priceBase`, e-bike `price`, add-on `price`) are taken to be whole non-negative numbers, so a fractional distance such as 12.5 km, or a fractional price, is not represented.
