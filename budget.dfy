/** The itinerary-based budget of the chat screen (`calculateBudgetFromItinerary`
    for the quick form and `calculateScenarioBudget` for the demo scenarios):
    accommodation per night, a meal count with a floor of three meals a day,
    transport per day and an activity price per place, all in whole won. */
module Budget {
  import opened JsValue

  /** The category price table, in declaration order (the order
      `Object.entries` scans it in). */
  const PriceTable: seq<(string, nat)> := [
    ("관광지", 15000), ("명소", 15000), ("맛집", 30000), ("식당", 30000),
    ("레스토랑", 30000), ("카페", 8000), ("쇼핑", 50000), ("쇼핑몰", 50000),
    ("박물관", 12000), ("미술관", 15000), ("공원", 0), ("해변", 0),
    ("시장", 20000), ("테마파크", 50000), ("액티비티", 40000), ("체험", 30000)]

  /** The price an activity costs when no table entry settles it. */
  const DefaultPrice: nat := 20000

  const MealPrice: nat := 30000

  /** What distinguishes the two calculators. */
  datatype BudgetPlan = BudgetPlan(nightlyRate: nat, dailyTransport: nat, travelers: int, cafeIsMeal: bool)

  datatype BudgetBreakdown = BudgetBreakdown(
    accommodation: int,
    food: int,
    transportation: int,
    activities: int,
    total: int)

  function Max(a: int, b: int): int {
    if a >= b then a else b
  }

  // ---------------------------------------------------------------------------
  // Plans

  /** `parseInt(travelers) || 1`: NaN and 0 both give 1. */
  function TravelersOf(v: Value): (t: int)
    ensures t != 0
  {
    match ParseInt(JsString(v))
    case Some(n) => if n == 0 then 1 else n
    case None => 1
  }

  function NightlyRate(accommodation: Value): nat {
    if accommodation == Str("호텔") then 120000
    else if accommodation == Str("리조트") then 150000
    else if accommodation == Str("펜션") then 80000
    else if accommodation == Str("한옥") then 100000
    else 50000
  }

  function DailyTransport(transportation: Value): nat {
    if transportation == Str("렌터카") then 50000
    else if transportation == Str("택시") then 40000
    else if transportation == Str("도보중심") then 5000
    else 10000
  }

  /** The quick form's plan: its accommodation, transport and party size. */
  function QuickFormPlan(accommodation: Value, transportation: Value, travelers: Value): BudgetPlan {
    BudgetPlan(NightlyRate(accommodation), DailyTransport(transportation), TravelersOf(travelers), false)
  }

  /** The demo scenarios: a hotel, public transport, one traveller, and a
      cafe counts as a meal. */
  const ScenarioPlan := BudgetPlan(120000, 10000, 1, true)

  // ---------------------------------------------------------------------------
  // Classification and prices

  predicate IsMealCategory(category: string, cafeIsMeal: bool) {
    var l := ToLower(category);
    Contains(l, "맛집") || Contains(l, "식당") || Contains(l, "레스토랑") || (cafeIsMeal && Contains(l, "카페"))
  }

  /** `category || '기타'`: the name an activity is priced under. */
  function ActivityName(category: string): string {
    if category == "" then "기타" else category
  }

  /** Meal-like places are paid for by the food budget, not as activities. */
  predicate IsExcludedFromActivities(category: string) {
    var l := ToLower(ActivityName(category));
    Contains(l, "맛집") || Contains(l, "식당") || Contains(l, "레스토랑") || Contains(l, "카페")
  }

  /** `CATEGORY_PRICES[name]`: the entry whose key is exactly the name. */
  function ExactPrice(table: seq<(string, nat)>, name: string): Option<nat> {
    if |table| == 0 then None
    else if table[0].0 == name then Some(table[0].1)
    else ExactPrice(table[1..], name)
  }

  /** The first entry, in table order, whose key occurs in `lower`. */
  function FirstContained(table: seq<(string, nat)>, lower: string): Option<nat> {
    if |table| == 0 then None
    else if Contains(lower, table[0].0) then Some(table[0].1)
    else FirstContained(table[1..], lower)
  }

  /** `price = CATEGORY_PRICES[name] || 20000`, then, when the price is
      20000, the first key (lower-cased) contained in the lower-cased name. */
  function ActivityPrice(category: string): nat {
    var name := ActivityName(category);
    var base := match ExactPrice(PriceTable, name)
      case Some(v) => if v == 0 then DefaultPrice else v
      case None => DefaultPrice;
    if base != DefaultPrice then base
    else match FirstContained(PriceTable, ToLower(name))
      case Some(v) => v
      case None => DefaultPrice
  }

  // ---------------------------------------------------------------------------
  // The budget as a function of the itinerary's place categories

  /** The itinerary's place categories, day after day. */
  function Flatten(itinerary: seq<seq<string>>): seq<string> {
    if |itinerary| == 0 then [] else Flatten(itinerary[..|itinerary| - 1]) + itinerary[|itinerary| - 1]
  }

  function MealCount(categories: seq<string>, cafeIsMeal: bool): nat {
    if |categories| == 0 then 0
    else
      MealCount(categories[..|categories| - 1], cafeIsMeal)
      + (if IsMealCategory(categories[|categories| - 1], cafeIsMeal) then 1 else 0)
  }

  /** What one place adds to the activities, per traveller. */
  function ActivityCost(category: string): nat {
    if IsExcludedFromActivities(category) then 0 else ActivityPrice(category)
  }

  /** Σ cost(c) over the categories. */
  function CostSum(categories: seq<string>, cost: string -> nat): nat {
    if |categories| == 0 then 0 else CostSum(categories[..|categories| - 1], cost) + cost(categories[|categories| - 1])
  }

  /** The activities' price per traveller. */
  function ActivitiesPerTraveler(categories: seq<string>): nat {
    CostSum(categories, ActivityCost)
  }

  /** Σ cost(c) × travelers over the categories. */
  function SumCosts(categories: seq<string>, cost: string -> nat, travelers: int): int {
    if |categories| == 0 then 0
    else SumCosts(categories[..|categories| - 1], cost, travelers) + cost(categories[|categories| - 1]) * travelers
  }

  /** `Σ price × travelers` over the places that are not meal-like. */
  function ActivitiesTotal(categories: seq<string>, travelers: int): int {
    SumCosts(categories, ActivityCost, travelers)
  }

  /** The budget for `days` days over places with these categories. */
  function BudgetOf(plan: BudgetPlan, days: int, categories: seq<string>): (b: BudgetBreakdown)
    ensures b.total == b.accommodation + b.food + b.transportation + b.activities
    ensures days <= 1 ==> b.accommodation == 0
    ensures days >= 1 && plan.travelers >= 1 ==> b.food >= 3 * days * MealPrice * plan.travelers
    ensures b.food == Max(MealCount(categories, plan.cafeIsMeal), 3 * days) * MealPrice * plan.travelers
  {
    MulMonotone(Max(MealCount(categories, plan.cafeIsMeal), days * 3), days * 3, MealPrice * plan.travelers);
    var accommodation := plan.nightlyRate * Max(days - 1, 0);
    var meals := Max(MealCount(categories, plan.cafeIsMeal), days * 3);
    var food := meals * MealPrice * plan.travelers;
    var transportation := plan.dailyTransport * days;
    var activities := ActivitiesTotal(categories, plan.travelers);
    BudgetBreakdown(accommodation, food, transportation, activities, accommodation + food + transportation + activities)
  }

  lemma MulMonotone(a: int, b: int, c: int)
    requires a >= b
    ensures c >= 0 ==> a * c >= b * c
  {
  }

  // ---------------------------------------------------------------------------
  // The calculator

  /** The price lookup with its scan of the table that stops at the first
      contained key. */
  method ResolvePrice(category: string) returns (price: nat)
    ensures price == ActivityPrice(category)
  {
    var name := ActivityName(category);
    var lower := ToLower(name);
    var exact := ExactPrice(PriceTable, name);
    price := if exact.Some? && exact.value != 0 then exact.value else DefaultPrice;
    if price == DefaultPrice {
      var i := 0;
      while i < |PriceTable|
        invariant 0 <= i <= |PriceTable|
        invariant FirstContained(PriceTable, lower) == FirstContained(PriceTable[i..], lower)
        invariant price == DefaultPrice
      {
        assert PriceTable[i..][1..] == PriceTable[i + 1..];
        if Contains(lower, PriceTable[i].0) {
          price := PriceTable[i].1;
          break;
        }
        i := i + 1;
      }
    }
  }

  /** The first pass: the places, over every day, that count as meals. */
  method CountMeals(itinerary: seq<seq<string>>, cafeIsMeal: bool) returns (foodCount: nat)
    ensures foodCount == MealCount(Flatten(itinerary), cafeIsMeal)
  {
    foodCount := 0;
    var d := 0;
    while d < |itinerary|
      invariant 0 <= d <= |itinerary|
      invariant foodCount == MealCount(Flatten(itinerary[..d]), cafeIsMeal)
    {
      ghost var before := Flatten(itinerary[..d]);
      var day := itinerary[d];
      var j := 0;
      assert before + day[..0] == before;
      while j < |day|
        invariant 0 <= j <= |day|
        invariant foodCount == MealCount(before + day[..j], cafeIsMeal)
      {
        MealCountStep(before, day, j, cafeIsMeal);
        if IsMealCategory(day[j], cafeIsMeal) {
          foodCount := foodCount + 1;
        }
        j := j + 1;
      }
      assert itinerary[..d + 1][..d] == itinerary[..d];
      assert day[..|day|] == day;
      d := d + 1;
    }
    assert itinerary[..|itinerary|] == itinerary;
  }

  lemma MealCountStep(before: seq<string>, day: seq<string>, j: nat, cafeIsMeal: bool)
    requires j < |day|
    ensures MealCount(before + day[..j + 1], cafeIsMeal)
      == MealCount(before + day[..j], cafeIsMeal) + (if IsMealCategory(day[j], cafeIsMeal) then 1 else 0)
  {
    var s := before + day[..j + 1];
    assert s[..|s| - 1] == before + day[..j];
  }

  /** One place's price per traveller: nothing for a meal-like place. */
  method PlaceCost(category: string) returns (price: nat)
    ensures price == ActivityCost(category)
  {
    price := 0;
    if !IsExcludedFromActivities(category) {
      price := ResolvePrice(category);
    }
  }

  /** `price * travelers` */
  method Scale(price: nat, travelers: int) returns (r: int)
    ensures r == price * travelers
  {
    r := price * travelers;
  }

  /** The second pass: every place that is not meal-like adds its price once
      per traveller. */
  method SumActivities(itinerary: seq<seq<string>>, travelers: int) returns (activitiesTotal: int)
    ensures activitiesTotal == ActivitiesTotal(Flatten(itinerary), travelers)
  {
    activitiesTotal := 0;
    var d := 0;
    while d < |itinerary|
      invariant 0 <= d <= |itinerary|
      invariant activitiesTotal == ActivitiesTotal(Flatten(itinerary[..d]), travelers)
    {
      assert itinerary[..d + 1][..d] == itinerary[..d];
      activitiesTotal := AddDayActivities(itinerary[d], travelers, activitiesTotal, Flatten(itinerary[..d]));
      d := d + 1;
    }
    assert itinerary[..|itinerary|] == itinerary;
  }

  /** The inner `forEach` of the second pass, over one day's places. */
  method AddDayActivities(day: seq<string>, travelers: int, total: int, ghost before: seq<string>)
    returns (newTotal: int)
    requires total == ActivitiesTotal(before, travelers)
    ensures newTotal == ActivitiesTotal(before + day, travelers)
  {
    newTotal := total;
    var j := 0;
    while j < |day|
      invariant 0 <= j <= |day|
      invariant newTotal == total + SumCosts(day[..j], ActivityCost, travelers)
    {
      var price := PlaceCost(day[j]);
      var share := Scale(price, travelers);
      SumCostsStep(day, j, ActivityCost, travelers, price, share);
      newTotal := newTotal + share;
      j := j + 1;
    }
    assert day[..|day|] == day;
    SumCostsAppend(before, day, ActivityCost, travelers);
  }

  lemma SumCostsStep(day: seq<string>, j: nat, cost: string -> nat, travelers: int, price: nat, share: int)
    requires j < |day| && price == cost(day[j]) && share == price * travelers
    ensures SumCosts(day[..j + 1], cost, travelers) == SumCosts(day[..j], cost, travelers) + share
  {
    assert day[..j + 1][..j] == day[..j];
  }

  lemma {:induction false} SumCostsScale(categories: seq<string>, cost: string -> nat, travelers: int)
    ensures SumCosts(categories, cost, travelers) == CostSum(categories, cost) * travelers
    decreases |categories|
  {
    if |categories| > 0 {
      var prefix := categories[..|categories| - 1];
      var c := cost(categories[|categories| - 1]);
      SumCostsScale(prefix, cost, travelers);
      assert (CostSum(prefix, cost) + c) * travelers == CostSum(prefix, cost) * travelers + c * travelers;
    }
  }

  /** The activities cost the per-traveller price sum once per traveller. */
  lemma ActivitiesScale(categories: seq<string>, travelers: int)
    ensures ActivitiesTotal(categories, travelers) == ActivitiesPerTraveler(categories) * travelers
  {
    SumCostsScale(categories, ActivityCost, travelers);
  }

  /** `calculateBudgetFromItinerary` / `calculateScenarioBudget`. */
  method CalculateBudget(plan: BudgetPlan, days: int, itinerary: seq<seq<string>>) returns (b: BudgetBreakdown)
    ensures b == BudgetOf(plan, days, Flatten(itinerary))
  {
    var accommodationTotal := plan.nightlyRate * Max(days - 1, 0);
    var foodCount := CountMeals(itinerary, plan.cafeIsMeal);
    var minMeals := days * 3;
    var actualMeals := Max(foodCount, minMeals);
    var foodTotal := actualMeals * MealPrice * plan.travelers;
    var transportationTotal := plan.dailyTransport * days;
    var activitiesTotal := SumActivities(itinerary, plan.travelers);
    b := BudgetBreakdown(accommodationTotal, foodTotal, transportationTotal, activitiesTotal,
      accommodationTotal + foodTotal + transportationTotal + activitiesTotal);
  }

  // ---------------------------------------------------------------------------
  // Properties

  /** The table's keys have no ASCII capitals, so lower-casing a key, as the
      scan does, leaves it as it is. */
  lemma KeysAreLowerCase()
    ensures forall i :: 0 <= i < |PriceTable| ==> ToLower(PriceTable[i].0) == PriceTable[i].0
  {
    forall i | 0 <= i < |PriceTable|
      ensures ToLower(PriceTable[i].0) == PriceTable[i].0
    {
      ToLowerIdentity(PriceTable[i].0);
    }
  }

  /** The budget reads the itinerary only through its places' categories. */
  lemma {:induction false} MealCountAppend(a: seq<string>, b: seq<string>, cafeIsMeal: bool)
    ensures MealCount(a + b, cafeIsMeal) == MealCount(a, cafeIsMeal) + MealCount(b, cafeIsMeal)
    decreases |b|
  {
    if |b| == 0 {
      assert a + b == a;
    } else {
      assert (a + b)[..|a + b| - 1] == a + b[..|b| - 1];
      MealCountAppend(a, b[..|b| - 1], cafeIsMeal);
    }
  }

  lemma {:induction false} SumCostsAppend(a: seq<string>, b: seq<string>, cost: string -> nat, travelers: int)
    ensures SumCosts(a + b, cost, travelers) == SumCosts(a, cost, travelers) + SumCosts(b, cost, travelers)
    decreases |b|
  {
    if |b| == 0 {
      assert a + b == a;
    } else {
      assert (a + b)[..|a + b| - 1] == a + b[..|b| - 1];
      SumCostsAppend(a, b[..|b| - 1], cost, travelers);
    }
  }

  /** A quick-form cafe (one whose category names no restaurant) is neither
      a meal nor an activity: adding one anywhere leaves the quick-form
      budget unchanged. */
  lemma QuickFormCafeIsFree(plan: BudgetPlan, days: int, before: seq<string>, after: seq<string>, cafe: string)
    requires !plan.cafeIsMeal
    requires Contains(ToLower(cafe), "카페") && !IsMealCategory(cafe, false)
    ensures BudgetOf(plan, days, before + [cafe] + after) == BudgetOf(plan, days, before + after)
  {
    assert cafe != "";
    assert ActivityName(cafe) == cafe;
    MealCountAppend(before + [cafe], after, false);
    MealCountAppend(before, [cafe], false);
    MealCountAppend(before, after, false);
    SumCostsAppend(before + [cafe], after, ActivityCost, plan.travelers);
    SumCostsAppend(before, [cafe], ActivityCost, plan.travelers);
    SumCostsAppend(before, after, ActivityCost, plan.travelers);
    assert [cafe][..0] == [];
    assert MealCount([cafe], false) == 0;
    assert ActivitiesTotal([cafe], plan.travelers) == 0;
    assert MealCount(before + [cafe] + after, false) == MealCount(before + after, false);
    assert ActivitiesTotal(before + [cafe] + after, plan.travelers) == ActivitiesTotal(before + after, plan.travelers);
  }

  /** In the scenarios a cafe is a meal. */
  lemma ScenarioCafeIsMeal(categories: seq<string>, cafe: string)
    requires Contains(ToLower(cafe), "카페")
    ensures MealCount(categories + [cafe], ScenarioPlan.cafeIsMeal) == MealCount(categories, ScenarioPlan.cafeIsMeal) + 1
    ensures ActivityCost(cafe) == 0
  {
    assert (categories + [cafe])[..|categories|] == categories;
    assert cafe != "";
  }

  /** Meals beyond three a day are charged; up to that, the floor is. */
  lemma MealFloor(plan: BudgetPlan, days: int, categories: seq<string>)
    ensures MealCount(categories, plan.cafeIsMeal) <= 3 * days ==>
      BudgetOf(plan, days, categories).food == 3 * days * MealPrice * plan.travelers
    ensures MealCount(categories, plan.cafeIsMeal) >= 3 * days ==>
      BudgetOf(plan, days, categories).food == MealCount(categories, plan.cafeIsMeal) * MealPrice * plan.travelers
  {
  }

  /** The party size is the integer the string starts with, and 1 when it
      has none or it is 0. */
  lemma TravelersParsed(n: int)
    ensures TravelersOf(Str(IntToDecimal(n))) == (if n == 0 then 1 else n)
  {
    ParseIntOfDecimal(n);
  }

  /** A party size given as a whole number is read the same way. */
  lemma TravelersOfNumber(n: int)
    ensures TravelersOf(Num(n as real)) == (if n == 0 then 1 else n)
  {
    NumberToStringOfInt(n);
    ParseIntOfDecimal(n);
  }

  /** No digits, no party size: one traveller. */
  lemma TravelersDefault()
    ensures TravelersOf(Str("")) == 1
  {
    assert TrimStart("") == "";
    assert DigitRun("") == 0;
  }

  /** Prices come from the table or the default. */
  lemma {:induction false} PriceFromTable(category: string)
    ensures ActivityPrice(category) == DefaultPrice
      || exists i :: 0 <= i < |PriceTable| && PriceTable[i].1 == ActivityPrice(category)
  {
    var name := ActivityName(category);
    var e := ExactPrice(PriceTable, name);
    if e.Some? && e.value != 0 && e.value != DefaultPrice {
      ExactPriceIn(PriceTable, name);
    } else {
      var f := FirstContained(PriceTable, ToLower(name));
      if f.Some? {
        FirstContainedIn(PriceTable, ToLower(name));
      }
    }
  }

  lemma {:induction false} ExactPriceIn(table: seq<(string, nat)>, name: string)
    requires ExactPrice(table, name).Some?
    ensures exists i :: 0 <= i < |table| && table[i] == (name, ExactPrice(table, name).value)
    decreases |table|
  {
    if table[0].0 != name {
      ExactPriceIn(table[1..], name);
      var i :| 0 <= i < |table[1..]| && table[1..][i] == (name, ExactPrice(table[1..], name).value);
      assert table[i + 1] == table[1..][i];
    }
  }

  lemma {:induction false} FirstContainedIn(table: seq<(string, nat)>, lower: string)
    requires FirstContained(table, lower).Some?
    ensures exists i :: (0 <= i < |table| && Contains(lower, table[i].0) && table[i].1 == FirstContained(table, lower).value
      && forall j :: 0 <= j < i ==> !Contains(lower, table[j].0))
    decreases |table|
  {
    if !Contains(lower, table[0].0) {
      FirstContainedIn(table[1..], lower);
      var i :| 0 <= i < |table[1..]| && Contains(lower, table[1..][i].0)
        && table[1..][i].1 == FirstContained(table[1..], lower).value
        && forall j :: 0 <= j < i ==> !Contains(lower, table[1..][j].0);
      assert table[i + 1] == table[1..][i];
      forall j | 0 <= j < i + 1
        ensures !Contains(lower, table[j].0)
      {
        if j > 0 {
          assert table[j] == table[1..][j - 1];
        }
      }
    }
  }
}
