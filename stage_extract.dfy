/** The three stage extractors of the chat screen and its quick-form prefill
    extractor: each turns a loosely typed assistant payload into a stage
    record, or reports that the payload has no such record. */
module StageExtract {
  import opened JsValue
  import opened StageTypes
  import opened StagePlaces
  import opened Records

  /** `Object.entries(v)` of an array or an object; an array's keys are its
      indices written in decimal, and an object lists its array-index keys
      first. */
  function Entries(v: Value): seq<(string, Value)> {
    match v
    case Obj(fields) => OwnOrder(fields, ArrayIndexOf)
    case Arr(items) => seq(|items|, i requires 0 <= i < |items| => (IntToDecimal(i), items[i]))
    case _ => []
  }

  /** The places of one array of the payload, the `group`-th, each
      generating its id (when it needs one) from its slot. */
  function MapPlaces1(items: seq<Value>, group: nat): seq<Stage1Place> {
    seq(|items|, i requires 0 <= i < |items| => MapStage1Place(items[i], Slot(group, i)))
  }

  // ---------------------------------------------------------------------------
  // Stage 1, categorised shape: `places || categorizedPlaces` is an object

  /** One entry of the categorised map as a category: an empty name becomes
      '기타', a value that is not an array gives no places. */
  function EntryCategory(e: (string, Value), group: nat): Stage1Category {
    Stage1Category(
      Str(if e.0 == "" then "기타" else e.0),
      if e.1.Arr? then MapPlaces1(e.1.items, group) else [])
  }

  function EntryCategories(es: seq<(string, Value)>): seq<Stage1Category> {
    seq(|es|, i requires 0 <= i < |es| => EntryCategory(es[i], i))
  }

  /** `.filter(category => category.places.length > 0)` */
  function NonEmpty(cats: seq<Stage1Category>): (r: seq<Stage1Category>)
    ensures forall i :: 0 <= i < |r| ==> |r[i].places| > 0
    ensures |r| <= |cats|
  {
    if |cats| == 0 then []
    else if |cats[0].places| > 0 then [cats[0]] + NonEmpty(cats[1..])
    else NonEmpty(cats[1..])
  }

  /** Puts `c` before the first category with no more places than it, which
      is where a stable sort by descending count puts an element that came
      first. */
  function InsertByCount(c: Stage1Category, s: seq<Stage1Category>): (r: seq<Stage1Category>)
    ensures |r| == |s| + 1
  {
    if |s| == 0 then [c]
    else if |s[0].places| <= |c.places| then [c] + s
    else [s[0]] + InsertByCount(c, s[1..])
  }

  /** `.sort((a, b) => b.places.length - a.places.length)`; the sort is
      stable, so categories with equal counts keep their order. */
  function SortByCount(cats: seq<Stage1Category>): (r: seq<Stage1Category>)
    ensures |r| == |cats|
  {
    if |cats| == 0 then [] else InsertByCount(cats[0], SortByCount(cats[1..]))
  }

  predicate SortedByCount(s: seq<Stage1Category>) {
    forall i, j :: 0 <= i < j < |s| ==> |s[i].places| >= |s[j].places|
  }

  /** The categories holding exactly n places, in order. */
  function WithCount(s: seq<Stage1Category>, n: nat): seq<Stage1Category> {
    if |s| == 0 then []
    else if |s[0].places| == n then [s[0]] + WithCount(s[1..], n)
    else WithCount(s[1..], n)
  }

  function CategorisedStage1(payload: Value, categorized: Value): Stage1Data {
    var cats := SortByCount(NonEmpty(EntryCategories(Entries(categorized))));
    Stage1Data(
      cats,
      Coalesce(Get(payload, "totalCount"), Num(CategoryPlaceTotal(cats) as real)),
      Coalesce(Get(payload, "recommendedCount"), Num(CategoryRecommendedTotal(cats) as real)))
  }

  // ---------------------------------------------------------------------------
  // Stage 1, flat shape: `allPlaces` is an array, grouped by category

  /** `place.category || '기타'` */
  function GroupKey(p: Stage1Place): Value {
    Or(p.category, Str("기타"))
  }

  /** Position of the category named `k`, or -1 (`Map.has`). */
  function IndexOfName(gs: seq<Stage1Category>, k: Value): (j: int)
    ensures -1 <= j < |gs|
    ensures j >= 0 ==> gs[j].name == k && forall i :: 0 <= i < j ==> gs[i].name != k
    ensures j == -1 ==> forall i :: 0 <= i < |gs| ==> gs[i].name != k
  {
    if |gs| == 0 then -1
    else if gs[0].name == k then 0
    else
      var j := IndexOfName(gs[1..], k);
      if j == -1 then -1 else j + 1
  }

  /** One step of the grouping: append the place to its key's group, opening
      a new group at the end when the key is new. */
  function AddToGroups(gs: seq<Stage1Category>, p: Stage1Place): seq<Stage1Category> {
    var j := IndexOfName(gs, GroupKey(p));
    if j == -1 then gs + [Stage1Category(GroupKey(p), [p])]
    else gs[j := Stage1Category(gs[j].name, gs[j].places + [p])]
  }

  /** The groups after adding the places one by one. */
  function Groups(places: seq<Stage1Place>): seq<Stage1Category> {
    if |places| == 0 then []
    else AddToGroups(Groups(places[..|places| - 1]), places[|places| - 1])
  }

  /** The distinct keys of the places, in first-seen order. */
  function KeysFirstSeen(places: seq<Stage1Place>): seq<Value> {
    if |places| == 0 then []
    else
      var ks := KeysFirstSeen(places[..|places| - 1]);
      var k := GroupKey(places[|places| - 1]);
      if k in ks then ks else ks + [k]
  }

  /** The places with key k, in order. */
  function PlacesWithKey(places: seq<Stage1Place>, k: Value): seq<Stage1Place> {
    if |places| == 0 then []
    else
      PlacesWithKey(places[..|places| - 1], k)
      + (if GroupKey(places[|places| - 1]) == k then [places[|places| - 1]] else [])
  }

  /** The grouping `new Map` plus `forEach` performs, updating the groups in
      place one place at a time. */
  method GroupByCategory(places: seq<Stage1Place>) returns (groups: seq<Stage1Category>)
    ensures groups == Groups(places)
  {
    groups := [];
    var i := 0;
    while i < |places|
      invariant 0 <= i <= |places|
      invariant groups == Groups(places[..i])
    {
      var p := places[i];
      var key := GroupKey(p);
      var j := 0;
      while j < |groups| && groups[j].name != key
        invariant 0 <= j <= |groups|
        invariant forall t :: 0 <= t < j ==> groups[t].name != key
      {
        j := j + 1;
      }
      assert places[..i + 1][..i] == places[..i];
      if j == |groups| {
        groups := groups + [Stage1Category(key, [p])];
      } else {
        groups := groups[j := Stage1Category(groups[j].name, groups[j].places + [p])];
      }
      i := i + 1;
    }
    assert places[..|places|] == places;
  }

  function GroupedStage1(items: seq<Value>): Stage1Data {
    var cats := Groups(MapPlaces1(items, 0));
    Stage1Data(cats, Num(CategoryPlaceTotal(cats) as real), Num(CategoryRecommendedTotal(cats) as real))
  }

  /** `extractStage1Data` */
  function ExtractStage1(payload: Value): Option<Stage1Data> {
    if !Truthy(payload) then None
    else
      var categorized := Or(Get(payload, "places"), Get(payload, "categorizedPlaces"));
      var all := Get(payload, "allPlaces");
      if !Truthy(categorized) && !all.Arr? then None
      else if Truthy(categorized) && IsObjectLike(categorized) then Some(CategorisedStage1(payload, categorized))
      else if all.Arr? then Some(GroupedStage1(all.items))
      else None
  }

  // ---------------------------------------------------------------------------
  // Stage 2

  function DayOf(d: Value, index: nat): Stage2Day {
    var dayNumber := JsNumber(Coalesce3(Get(d, "day"), Get(d, "dayNumber"), Num((index + 1) as real)));
    var pv := Get(d, "places");
    var raw := if pv.Arr? then pv.items else [];
    Stage2Day(
      dayNumber,
      Coalesce(Get(d, "placeCount"), Num(|raw| as real)),
      seq(|raw|, i requires 0 <= i < |raw| => MapStage2Place(raw[i], dayNumber, Slot(index, i))))
  }

  /** `days.reduce((acc, d) => acc + (d.placeCount ?? d.places.length), 0)`,
      with JavaScript's `+`. */
  function SelectedSum(days: seq<Stage2Day>): Value {
    if |days| == 0 then Num(0.0)
    else
      var d := days[|days| - 1];
      JsPlus(SelectedSum(days[..|days| - 1]), Coalesce(d.placeCount, Num(|d.places| as real)))
  }

  /** `extractStage2Data` */
  function ExtractStage2(payload: Value): Option<Stage2Data> {
    if !Truthy(payload) then None
    else
      var daily := Or(Get(payload, "dailyDistribution"), Get(payload, "dailyPlans"));
      if !daily.Arr? then None
      else
        var items := daily.items;
        var days := seq(|items|, i requires 0 <= i < |items| => DayOf(items[i], i));
        Some(Stage2Data(
          days,
          Coalesce(Get(payload, "totalDays"), Num(|days| as real)),
          Coalesce(Get(payload, "selectedCount"), SelectedSum(days))))
  }

  // ---------------------------------------------------------------------------
  // Stage 3

  /** `typeof v === 'number' ? v : toNumber(v)` */
  function NumberOrParsed(v: Value): (r: Value)
    ensures r.Num? || r.NaN? || r.Undefined?
  {
    if v.Num? || v.NaN? then v
    else match ToNumber(v)
      case Some(x) => Num(x)
      case None => Undefined
  }

  /** `extractStage3Data`: any truthy payload gives a record. */
  function ExtractStage3(payload: Value): Option<Stage3Data> {
    if !Truthy(payload) then None
    else
      var itinerary := Get(payload, "itinerary");
      Some(Stage3Data(
        if itinerary.Arr? then Some(itinerary.items) else None,
        Coalesce(Get(payload, "totalDays"), Get(itinerary, "length")),
        NumberOrParsed(Get(payload, "totalDistance")),
        NumberOrParsed(Get(payload, "totalTime"))))
  }

  // ---------------------------------------------------------------------------
  // Quick-form prefill

  datatype TravelDates = TravelDates(startDate: Value, endDate: Value)

  /** The travel form's initial data; an absent field is one the payload did
      not supply. */
  datatype Prefill = Prefill(
    destinations: Option<seq<Value>>,
    departureLocation: Option<Value>,
    travelDates: Option<TravelDates>,
    travelStyle: Option<seq<Value>>,
    travelers: Option<Value>,
    budget: Option<Value>)

  predicate PrefillIsEmpty(p: Prefill) {
    p.destinations.None? && p.departureLocation.None? && p.travelDates.None?
    && p.travelStyle.None? && p.travelers.None? && p.budget.None?
  }

  function PrefillOf(payload: Value): Prefill {
    var dests := Get(payload, "prefillDestinations");
    var dep := Get(payload, "prefillDeparture");
    var dates := Get(payload, "prefillTravelDates");
    var style := Get(payload, "prefillTravelStyle");
    var travelers := Get(payload, "prefillTravelers");
    var budget := Get(payload, "prefillBudget");
    Prefill(
      if dests.Arr? then Some(dests.items) else None,
      if Truthy(dep) then Some(dep) else None,
      if Truthy(dates) then
        Some(TravelDates(Coalesce(Get(dates, "startDate"), Str("")), Coalesce(Get(dates, "endDate"), Str(""))))
      else None,
      if Truthy(style) then Some(if style.Arr? then style.items else [style]) else None,
      if Truthy(travelers) then Some(JsNumber(travelers)) else None,
      if Truthy(budget) then Some(JsNumber(budget)) else None)
  }

  /** `extractQuickFormInitial`: undefined when no field was supplied. */
  function ExtractQuickFormInitial(payload: Value): (r: Option<Prefill>)
    ensures r.Some? ==> !PrefillIsEmpty(r.value)
  {
    if !Truthy(payload) then None
    else
      var p := PrefillOf(payload);
      if PrefillIsEmpty(p) then None else Some(p)
  }
}
