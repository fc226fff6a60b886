/** The planning-stage records shared by the chat screen and the progress
    panel: stage 1 holds candidate places grouped by category, stage 2 the
    places distributed over days, stage 3 the final itinerary. Fields that the
    front-end copies from the server without coercion keep their raw `Value`. */
module StageTypes {
  import opened JsValue

  /** Where a place sits in the payload it came from: the category entry or
      day it belongs to (0 for the flat place list) and its index there. */
  datatype Slot = Slot(group: nat, index: nat)

  /** A place id: the server's id (or place id, or name) turned into a string,
      or a token the front-end generates at random when none is present. The
      random token stands for a fresh value per place, so it is modelled by
      the place's slot: two places of one payload never share it. */
  datatype PlaceId = Given(s: string) | Generated(at: Slot)

  datatype Stage1Place = Stage1Place(
    id: PlaceId,
    name: Value,
    category: Value,
    subCategory: Value,
    address: Value,
    latitude: Option<real>,
    longitude: Option<real>,
    rating: Option<real>,
    isRecommended: bool,
    description: Value)

  datatype Stage2Place = Stage2Place(
    id: PlaceId,
    name: Value,
    category: Value,
    address: Value,
    latitude: Option<real>,
    longitude: Option<real>,
    rating: Option<real>,
    day: Value,
    isRecommended: bool)

  datatype Stage1Category = Stage1Category(name: Value, places: seq<Stage1Place>)

  datatype Stage2Day = Stage2Day(day: Value, placeCount: Value, places: seq<Stage2Place>)

  datatype Stage1Data = Stage1Data(categories: seq<Stage1Category>, totalCount: Value, recommendedCount: Value)

  datatype Stage2Data = Stage2Data(days: seq<Stage2Day>, totalDays: Value, selectedCount: Value)

  datatype Stage3Data = Stage3Data(
    itinerary: Option<seq<Value>>,
    totalDays: Value,
    totalDistance: Value,
    totalTime: Value)

  /** Σ f(c) over the categories. */
  function SumOver(cats: seq<Stage1Category>, f: Stage1Category -> nat): nat {
    if |cats| == 0 then 0 else SumOver(cats[..|cats| - 1], f) + f(cats[|cats| - 1])
  }

  function PlaceCount(c: Stage1Category): nat {
    |c.places|
  }

  function RecommendedIn(places: seq<Stage1Place>): nat {
    if |places| == 0 then 0
    else RecommendedIn(places[..|places| - 1]) + (if places[|places| - 1].isRecommended then 1 else 0)
  }

  function RecommendedCount(c: Stage1Category): nat {
    RecommendedIn(c.places)
  }

  /** Number of places over all categories. */
  function CategoryPlaceTotal(cats: seq<Stage1Category>): nat {
    SumOver(cats, PlaceCount)
  }

  /** Number of recommended places over all categories. */
  function CategoryRecommendedTotal(cats: seq<Stage1Category>): nat {
    SumOver(cats, RecommendedCount)
  }

  /** Number of places over all days. */
  function DayPlaceTotal(days: seq<Stage2Day>): nat {
    if |days| == 0 then 0 else DayPlaceTotal(days[..|days| - 1]) + |days[|days| - 1].places|
  }

  lemma {:induction false} RecommendedInBound(places: seq<Stage1Place>)
    ensures RecommendedIn(places) <= |places|
    decreases |places|
  {
    if |places| > 0 {
      RecommendedInBound(places[..|places| - 1]);
    }
  }

  lemma {:induction false} RecommendedInAppend(a: seq<Stage1Place>, b: seq<Stage1Place>)
    ensures RecommendedIn(a + b) == RecommendedIn(a) + RecommendedIn(b)
    decreases |b|
  {
    if |b| > 0 {
      assert (a + b)[..|a + b| - 1] == a + b[..|b| - 1];
      RecommendedInAppend(a, b[..|b| - 1]);
    } else {
      assert a + b == a;
    }
  }

  lemma {:induction false} SumOverAppend(a: seq<Stage1Category>, b: seq<Stage1Category>, f: Stage1Category -> nat)
    ensures SumOver(a + b, f) == SumOver(a, f) + SumOver(b, f)
    decreases |b|
  {
    if |b| > 0 {
      assert (a + b)[..|a + b| - 1] == a + b[..|b| - 1];
      SumOverAppend(a, b[..|b| - 1], f);
    } else {
      assert a + b == a;
    }
  }

  /** Replacing one category changes the sum by the difference. */
  lemma SumOverUpdate(cats: seq<Stage1Category>, j: nat, c: Stage1Category, f: Stage1Category -> nat)
    requires j < |cats|
    ensures SumOver(cats[j := c], f) + f(cats[j]) == SumOver(cats, f) + f(c)
  {
    var u := cats[j := c];
    assert cats == cats[..j] + [cats[j]] + cats[j + 1..];
    assert u == cats[..j] + [c] + cats[j + 1..];
    SumOverAppend(cats[..j] + [cats[j]], cats[j + 1..], f);
    SumOverAppend(cats[..j], [cats[j]], f);
    SumOverAppend(cats[..j] + [c], cats[j + 1..], f);
    SumOverAppend(cats[..j], [c], f);
    assert SumOver([c], f) == f(c) by { assert [c][..0] == []; }
    assert SumOver([cats[j]], f) == f(cats[j]) by { assert [cats[j]][..0] == []; }
  }

  /** The recommended places never outnumber the places. */
  lemma {:induction false} RecommendedTotalBound(cats: seq<Stage1Category>)
    ensures CategoryRecommendedTotal(cats) <= CategoryPlaceTotal(cats)
    decreases |cats|
  {
    if |cats| > 0 {
      RecommendedTotalBound(cats[..|cats| - 1]);
      RecommendedInBound(cats[|cats| - 1].places);
    }
  }
}
