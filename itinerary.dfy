/** The quick-form itinerary the chat screen builds from the selected
    places: the places are cut, in order, into `days` runs of
    ⌈places / days⌉ (the last runs may be shorter or empty), and each day gets
    a theme from the travel companion. The budget of that itinerary depends
    only on the selected places' categories. */
module Itinerary {
  import opened JsValue
  import opened StageTypes
  import Budget

  /** One place of a day, with the fields the model keeps (durations, costs,
      coordinates and ratings are floating point and are not modelled). */
  datatype ItineraryPlace = ItineraryPlace(name: Value, category: Value, description: Value)

  datatype ItineraryDay = ItineraryDay(day: nat, theme: string, places: seq<ItineraryPlace>)

  /** `Math.ceil(n / days)` for a positive number of days. */
  function PlacesPerDay(n: nat, days: nat): nat
    requires days >= 1
  {
    (n + days - 1) / days
  }

  /** It is the ceiling: the least count that spreads n places over the days. */
  lemma PlacesPerDayIsCeiling(n: nat, days: nat)
    requires days >= 1
    ensures PlacesPerDay(n, days) * days >= n
    ensures n > 0 ==> (PlacesPerDay(n, days) - 1) * days < n
    ensures n == 0 ==> PlacesPerDay(n, days) == 0
  {
    var q := PlacesPerDay(n, days);
    assert q * days + (n + days - 1) % days == n + days - 1;
  }

  /** `place.description || place.address || ''` */
  function DescriptionOf(p: Stage1Place): Value {
    Or(Or(p.description, p.address), Str(""))
  }

  function ToItineraryPlace(p: Stage1Place): ItineraryPlace {
    ItineraryPlace(p.name, p.category, DescriptionOf(p))
  }

  function ToItineraryPlaces(ps: seq<Stage1Place>): (r: seq<ItineraryPlace>)
    ensures |r| == |ps|
    ensures forall i :: 0 <= i < |ps| ==> r[i] == ToItineraryPlace(ps[i])
  {
    if |ps| == 0 then [] else ToItineraryPlaces(ps[..|ps| - 1]) + [ToItineraryPlace(ps[|ps| - 1])]
  }

  /** The day's theme: `Day <n> - ...` with a wording chosen by the companion. */
  function Theme(companion: Value, destination: string, day: nat): string {
    var prefix := "Day " + NatToDecimal(day) + " - ";
    if companion == Str("커플") then prefix + "로맨틱 " + destination + " 여행"
    else if companion == Str("가족") then prefix + "가족과 함께하는 " + destination
    else if companion == Str("친구") then prefix + "친구들과 즐기는 " + destination
    else if companion == Str("혼자") then prefix + "나만의 " + destination + " 여행"
    else prefix + destination + " 탐험"
  }

  /** `quickFormData.destination || '서울'`, as it is written into a template. */
  function DestinationName(destination: Value): string {
    JsString(Or(destination, Str("서울")))
  }

  function Min(a: nat, b: nat): nat {
    if a <= b then a else b
  }

  /** `places.slice(start, end)` for non-negative bounds. */
  function Window(places: seq<Stage1Place>, start: nat, end: nat): seq<Stage1Place> {
    var s := Min(start, |places|);
    var e := Min(end, |places|);
    if s <= e then places[s..e] else []
  }

  /** `selectedPlaces.slice((day - 1) * ppd, Math.min(day * ppd, n))` */
  function DaySlice(places: seq<Stage1Place>, ppd: nat, day: nat): seq<Stage1Place>
    requires day >= 1
  {
    Window(places, (day - 1) * ppd, day * ppd)
  }

  function MakeDay(places: seq<Stage1Place>, ppd: nat, day: nat, companion: Value, destination: string): ItineraryDay
    requires day >= 1
  {
    ItineraryDay(day, Theme(companion, destination, day), ToItineraryPlaces(DaySlice(places, ppd, day)))
  }

  /** The first `count` days of the itinerary. */
  function DaysUpTo(places: seq<Stage1Place>, ppd: nat, count: nat, companion: Value, destination: string)
    : (r: seq<ItineraryDay>)
    ensures |r| == count
  {
    if count == 0 then []
    else DaysUpTo(places, ppd, count - 1, companion, destination) + [MakeDay(places, ppd, count, companion, destination)]
  }

  /** The itinerary for `days` days (none when `days` is below 1, since the
      loop `for (day = 1; day <= days; day++)` does not run). */
  function ItineraryOf(places: seq<Stage1Place>, days: int, companion: Value, destination: Value): seq<ItineraryDay> {
    if days < 1 then []
    else DaysUpTo(places, PlacesPerDay(|places|, days), days, companion, DestinationName(destination))
  }

  /** The construction loop. */
  method BuildItinerary(places: seq<Stage1Place>, days: int, companion: Value, destination: Value)
    returns (itinerary: seq<ItineraryDay>)
    ensures itinerary == ItineraryOf(places, days, companion, destination)
  {
    itinerary := [];
    if days < 1 {
      return;
    }
    var placesPerDay := PlacesPerDay(|places|, days);
    var name := DestinationName(destination);
    var day := 1;
    while day <= days
      invariant 1 <= day <= days + 1
      invariant itinerary == DaysUpTo(places, placesPerDay, day - 1, companion, name)
    {
      var entry := BuildDay(places, placesPerDay, day, companion, name);
      itinerary := itinerary + [entry];
      day := day + 1;
    }
  }

  /** One pass of the construction loop. */
  method BuildDay(places: seq<Stage1Place>, placesPerDay: nat, day: nat, companion: Value, destination: string)
    returns (entry: ItineraryDay)
    requires day >= 1
    ensures entry == MakeDay(places, placesPerDay, day, companion, destination)
  {
    var dayStart := (day - 1) * placesPerDay;
    var dayEnd := Min(day * placesPerDay, |places|);
    var slice := if dayStart <= dayEnd then places[dayStart..dayEnd] else [];
    var dayPlaces := ToItineraryPlaces(slice);
    entry := ItineraryDay(day, Theme(companion, destination, day), dayPlaces);
  }

  // ---------------------------------------------------------------------------
  // Properties

  /** All the days' places, in order. */
  function AllPlaces(itinerary: seq<ItineraryDay>): seq<ItineraryPlace> {
    if |itinerary| == 0 then [] else AllPlaces(itinerary[..|itinerary| - 1]) + itinerary[|itinerary| - 1].places
  }

  lemma {:induction false} DaysUpToCover(places: seq<Stage1Place>, ppd: nat, count: nat, companion: Value,
                                         destination: string)
    ensures AllPlaces(DaysUpTo(places, ppd, count, companion, destination))
      == ToItineraryPlaces(places[..Min(count * ppd, |places|)])
    decreases count
  {
    var r := DaysUpTo(places, ppd, count, companion, destination);
    if count > 0 {
      DaysUpToCover(places, ppd, count - 1, companion, destination);
      assert r[..count - 1] == DaysUpTo(places, ppd, count - 1, companion, destination);
      var a := (count - 1) * ppd;
      var b := count * ppd;
      assert a + ppd == b;
      WindowExtends(places, a, b);
      ToItineraryPlacesAppend(places[..Min(a, |places|)], Window(places, a, b));
    } else {
      assert places[..0] == [];
    }
  }

  lemma WindowExtends(places: seq<Stage1Place>, a: nat, b: nat)
    requires a <= b
    ensures places[..Min(a, |places|)] + Window(places, a, b) == places[..Min(b, |places|)]
  {
  }

  lemma {:induction false} ToItineraryPlacesAppend(a: seq<Stage1Place>, b: seq<Stage1Place>)
    ensures ToItineraryPlaces(a + b) == ToItineraryPlaces(a) + ToItineraryPlaces(b)
  {
    var l := ToItineraryPlaces(a + b);
    var r := ToItineraryPlaces(a) + ToItineraryPlaces(b);
    assert |l| == |r|;
    forall i | 0 <= i < |l| ensures l[i] == r[i] {
      if i < |a| {
        assert (a + b)[i] == a[i];
      } else {
        assert (a + b)[i] == b[i - |a|];
      }
    }
  }

  /** With at least one day, every selected place appears exactly once and
      in the order selected. */
  lemma ItineraryCoversSelection(places: seq<Stage1Place>, days: int, companion: Value, destination: Value)
    requires days >= 1
    ensures AllPlaces(ItineraryOf(places, days, companion, destination)) == ToItineraryPlaces(places)
  {
    var ppd := PlacesPerDay(|places|, days);
    PlacesPerDayIsCeiling(|places|, days);
    DaysUpToCover(places, ppd, days, companion, DestinationName(destination));
    assert Min(days * ppd, |places|) == |places|;
    assert places[..|places|] == places;
  }

  /** The itinerary has one entry per day, numbered from 1, and no day holds
      more than ⌈places / days⌉ places. */
  lemma ItineraryShape(places: seq<Stage1Place>, days: int, companion: Value, destination: Value)
    requires days >= 1
    ensures var it := ItineraryOf(places, days, companion, destination);
      |it| == days
      && forall i :: 0 <= i < |it| ==>
           it[i].day == i + 1 && |it[i].places| <= PlacesPerDay(|places|, days)
  {
    var it := ItineraryOf(places, days, companion, destination);
    forall i | 0 <= i < |it| ensures it[i].day == i + 1 && |it[i].places| <= PlacesPerDay(|places|, days) {
      DaysUpToAt(places, PlacesPerDay(|places|, days), days, companion, DestinationName(destination), i);
    }
  }

  lemma {:induction false} DaysUpToAt(places: seq<Stage1Place>, ppd: nat, count: nat, companion: Value,
                                      destination: string, i: nat)
    requires i < count
    ensures DaysUpTo(places, ppd, count, companion, destination)[i] == MakeDay(places, ppd, i + 1, companion, destination)
    decreases count
  {
    if i < count - 1 {
      DaysUpToAt(places, ppd, count - 1, companion, destination, i);
    }
  }

  /** Below one day the itinerary is empty. */
  lemma NoDaysNoItinerary(places: seq<Stage1Place>, days: int, companion: Value, destination: Value)
    requires days < 1
    ensures ItineraryOf(places, days, companion, destination) == []
  {
  }

  // ---------------------------------------------------------------------------
  // The budget of the itinerary

  /** `place.category || ''` for the categories the budget reads. */
  function CategoryText(category: Value): string {
    if category.Str? then category.s else ""
  }

  function DayCategories(ps: seq<ItineraryPlace>): (r: seq<string>)
    ensures |r| == |ps|
    ensures forall i :: 0 <= i < |ps| ==> r[i] == CategoryText(ps[i].category)
  {
    if |ps| == 0 then [] else DayCategories(ps[..|ps| - 1]) + [CategoryText(ps[|ps| - 1].category)]
  }

  /** The itinerary as the budget reads it: each day's categories. */
  function BudgetInput(itinerary: seq<ItineraryDay>): (r: seq<seq<string>>)
    ensures |r| == |itinerary|
  {
    if |itinerary| == 0 then [] else BudgetInput(itinerary[..|itinerary| - 1]) + [DayCategories(itinerary[|itinerary| - 1].places)]
  }

  lemma {:induction false} DayCategoriesAppend(a: seq<ItineraryPlace>, b: seq<ItineraryPlace>)
    ensures DayCategories(a + b) == DayCategories(a) + DayCategories(b)
  {
    var l := DayCategories(a + b);
    var r := DayCategories(a) + DayCategories(b);
    forall i | 0 <= i < |l| ensures l[i] == r[i] {
      if i < |a| {
        assert (a + b)[i] == a[i];
      } else {
        assert (a + b)[i] == b[i - |a|];
      }
    }
  }

  lemma {:induction false} BudgetInputFlattens(itinerary: seq<ItineraryDay>)
    ensures Budget.Flatten(BudgetInput(itinerary)) == DayCategories(AllPlaces(itinerary))
    decreases |itinerary|
  {
    if |itinerary| > 0 {
      var prefix := itinerary[..|itinerary| - 1];
      BudgetInputFlattens(prefix);
      var r := BudgetInput(itinerary);
      assert r[..|r| - 1] == BudgetInput(prefix);
      DayCategoriesAppend(AllPlaces(prefix), itinerary[|itinerary| - 1].places);
    }
  }

  /** The budget of the built itinerary is the budget of the selected
      places' categories: cutting the selection into days changes nothing. */
  lemma ItineraryBudgetIsSelectionBudget(plan: Budget.BudgetPlan, places: seq<Stage1Place>, days: int,
                                         companion: Value, destination: Value)
    requires days >= 1
    ensures Budget.BudgetOf(plan, days, Budget.Flatten(BudgetInput(ItineraryOf(places, days, companion, destination))))
      == Budget.BudgetOf(plan, days, DayCategories(ToItineraryPlaces(places)))
  {
    BudgetInputFlattens(ItineraryOf(places, days, companion, destination));
    ItineraryCoversSelection(places, days, companion, destination);
  }
}
