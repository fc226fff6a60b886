/** Field coercion and place normalisation applied to every place the
    assistant sends (the chat screen's `toNumber`, `mapStage1Place` and
    `mapStage2Place`). */
module StagePlaces {
  import opened JsValue
  import opened StageTypes

  /** A finite number is kept, a string is read with `parseFloat` and kept
      when that gives a finite number; everything else is `undefined` (None). */
  function ToNumber(v: Value): (r: Option<real>)
    ensures v.Num? ==> r == Some(v.n)
    ensures v.Str? ==> r == ParseFloat(v.s)
    ensures !v.Num? && !v.Str? ==> r == None
  {
    match v
    case Num(n) => Some(n)
    case Str(s) => ParseFloat(s)
    case _ => None
  }

  /** `a ?? b ?? c` */
  function Coalesce3(a: Value, b: Value, c: Value): Value {
    Coalesce(a, Coalesce(b, c))
  }

  /** `String(raw?.id ?? raw?.placeId ?? raw?.name ?? <random token>)` */
  function PlaceIdOf(raw: Value, at: Slot): (id: PlaceId)
    ensures id.Generated? <==> Nullish(Get(raw, "id")) && Nullish(Get(raw, "placeId")) && Nullish(Get(raw, "name"))
    ensures id.Generated? ==> id.at == at
  {
    var v := Coalesce3(Get(raw, "id"), Get(raw, "placeId"), Get(raw, "name"));
    if Nullish(v) then Generated(at) else Given(JsString(v))
  }

  function MapStage1Place(raw: Value, at: Slot): Stage1Place {
    Stage1Place(
      id := PlaceIdOf(raw, at),
      name := Coalesce3(Get(raw, "name"), Get(raw, "placeName"), Str("장소")),
      category := Coalesce3(Get(raw, "category"), Get(raw, "subCategory"), Str("")),
      subCategory := Get(raw, "subCategory"),
      address := Coalesce(Get(raw, "address"), Coalesce3(Get(raw, "roadAddress"), Get(raw, "formattedAddress"), Str(""))),
      latitude := ToNumber(Coalesce3(Get(raw, "latitude"), Get(raw, "lat"), Get(raw, "y"))),
      longitude := ToNumber(Coalesce3(Get(raw, "longitude"), Get(raw, "lng"), Get(raw, "x"))),
      rating := ToNumber(Get(raw, "rating")),
      isRecommended := Truthy(Get(raw, "isRecommended")),
      description := Coalesce(Get(raw, "description"), Str("")))
  }

  function MapStage2Place(raw: Value, dayFallback: Value, at: Slot): Stage2Place {
    Stage2Place(
      id := PlaceIdOf(raw, at),
      name := Coalesce3(Get(raw, "name"), Get(raw, "placeName"), Str("장소")),
      category := Coalesce3(Get(raw, "category"), Get(raw, "type"), Coalesce(Get(raw, "subCategory"), Str(""))),
      address := Coalesce3(Get(raw, "address"), Get(raw, "roadAddress"), Str("")),
      latitude := ToNumber(Coalesce3(Get(raw, "latitude"), Get(raw, "lat"), Get(raw, "y"))),
      longitude := ToNumber(Coalesce3(Get(raw, "longitude"), Get(raw, "lng"), Coalesce(Get(raw, "x"), Get(raw, "lon")))),
      rating := ToNumber(Get(raw, "rating")),
      day := Coalesce3(Get(raw, "day"), Get(raw, "dayNumber"), dayFallback),
      isRecommended := Truthy(Get(raw, "isRecommended")))
  }

  // ---------------------------------------------------------------------------
  // Properties of the mappers

  /** The defaults of a stage-1 place: a name, a category, an address and a
      description are always present, and because `??` is used, a present
      empty string or 0 is kept rather than replaced. */
  lemma Stage1PlaceDefaults(raw: Value, at: Slot)
    ensures var p := MapStage1Place(raw, at);
      !Nullish(p.name) && !Nullish(p.category) && !Nullish(p.address) && !Nullish(p.description)
      && (Nullish(Get(raw, "name")) && Nullish(Get(raw, "placeName")) ==> p.name == Str("장소"))
      && (!Nullish(Get(raw, "name")) ==> p.name == Get(raw, "name"))
      && (!Nullish(Get(raw, "category")) ==> p.category == Get(raw, "category"))
      && (p.isRecommended <==> Truthy(Get(raw, "isRecommended")))
  {
  }

  /** An empty-string id and a zero id are ids: only null or undefined fall
      through to the next candidate. */
  lemma FalsyIdKept(raw: Value, at: Slot, at2: Slot)
    requires Get(raw, "id") == Str("") || Get(raw, "id") == Num(0.0)
    ensures MapStage1Place(raw, at).id == Given(if Get(raw, "id").Str? then "" else "0")
    ensures MapStage2Place(raw, Undefined, at2).id == MapStage1Place(raw, at).id
  {
  }

  /** A string holding an integer, such as "37", is read as that number. */
  lemma ToNumberOfIntegerString(i: int)
    ensures ToNumber(Str(IntToDecimal(i))) == Some(i as real)
  {
    ParseFloatOfDecimal(i);
  }

  /** The raw object a normalised stage-1 place is sent back as. */
  function Stage1PlaceValue(p: Stage1Place): Value
    requires p.id.Given?
  {
    Obj([("id", Str(p.id.s)), ("name", p.name), ("category", p.category),
         ("subCategory", p.subCategory), ("address", p.address),
         ("latitude", OptionalNumber(p.latitude)), ("longitude", OptionalNumber(p.longitude)),
         ("rating", OptionalNumber(p.rating)), ("isRecommended", Bool(p.isRecommended)),
         ("description", p.description)])
  }

  function OptionalNumber(x: Option<real>): Value {
    if x.Some? then Num(x.value) else Undefined
  }

  /** What the stage-1 mapper guarantees about every place it produces
      that has an id of its own. */
  predicate IsNormalisedStage1(p: Stage1Place) {
    p.id.Given? && !Nullish(p.name) && !Nullish(p.category) && !Nullish(p.address) && !Nullish(p.description)
  }

  /** The entries of a place sent back as an object, read one by one. */
  lemma Stage1PlaceValueReads(p: Stage1Place)
    requires p.id.Given?
    ensures var v := Stage1PlaceValue(p);
      Get(v, "id") == Str(p.id.s) && Get(v, "name") == p.name && Get(v, "category") == p.category
      && Get(v, "subCategory") == p.subCategory && Get(v, "address") == p.address
      && Get(v, "latitude") == OptionalNumber(p.latitude) && Get(v, "longitude") == OptionalNumber(p.longitude)
      && Get(v, "rating") == OptionalNumber(p.rating) && Get(v, "isRecommended") == Bool(p.isRecommended)
      && Get(v, "description") == p.description
      && Get(v, "lat") == Undefined && Get(v, "y") == Undefined
      && Get(v, "lng") == Undefined && Get(v, "x") == Undefined
  {
    Stage1NamesRead(p);
    Stage1NumbersRead(p);
    Stage1AliasesAbsent(p);
  }

  lemma Stage1NamesRead(p: Stage1Place)
    requires p.id.Given?
    ensures var v := Stage1PlaceValue(p);
      Get(v, "id") == Str(p.id.s) && Get(v, "name") == p.name && Get(v, "category") == p.category
      && Get(v, "subCategory") == p.subCategory && Get(v, "address") == p.address
  {
    var fields := Stage1PlaceValue(p).fields;
    LookupAt(fields, "id", 0);
    LookupAt(fields, "name", 1);
    LookupAt(fields, "category", 2);
    LookupAt(fields, "subCategory", 3);
    LookupAt(fields, "address", 4);
  }

  lemma Stage1NumbersRead(p: Stage1Place)
    requires p.id.Given?
    ensures var v := Stage1PlaceValue(p);
      Get(v, "latitude") == OptionalNumber(p.latitude) && Get(v, "longitude") == OptionalNumber(p.longitude)
      && Get(v, "rating") == OptionalNumber(p.rating) && Get(v, "isRecommended") == Bool(p.isRecommended)
      && Get(v, "description") == p.description
  {
    var fields := Stage1PlaceValue(p).fields;
    LookupAt(fields, "latitude", 5);
    LookupAt(fields, "longitude", 6);
    LookupAt(fields, "rating", 7);
    LookupAt(fields, "isRecommended", 8);
    LookupAt(fields, "description", 9);
  }

  lemma Stage1AliasesAbsent(p: Stage1Place)
    requires p.id.Given?
    ensures var v := Stage1PlaceValue(p);
      Get(v, "lat") == Undefined && Get(v, "y") == Undefined && Get(v, "lng") == Undefined && Get(v, "x") == Undefined
  {
    var fields := Stage1PlaceValue(p).fields;
    LookupAbsent(fields, "lat");
    LookupAbsent(fields, "y");
    LookupAbsent(fields, "lng");
    LookupAbsent(fields, "x");
  }

  /** A normalised place sent back as an object maps to itself. */
  lemma Stage1PlaceRoundTrip(p: Stage1Place, at: Slot)
    requires IsNormalisedStage1(p)
    ensures MapStage1Place(Stage1PlaceValue(p), at) == p
  {
    var v := Stage1PlaceValue(p);
    Stage1PlaceValueReads(p);
    var q := MapStage1Place(v, at);
    assert q.id == p.id;
    assert q.latitude == p.latitude;
    assert q.longitude == p.longitude;
    assert q.rating == p.rating;
  }

  /** Normalisation is idempotent: a place that went through the mapper and
      comes back (for example when a thread's messages are reloaded) maps to
      itself, provided it had an id of its own. */
  lemma Stage1PlaceIdempotent(raw: Value, at: Slot, at2: Slot)
    requires MapStage1Place(raw, at).id.Given?
    ensures MapStage1Place(Stage1PlaceValue(MapStage1Place(raw, at)), at2) == MapStage1Place(raw, at)
  {
    Stage1PlaceDefaults(raw, at);
    Stage1PlaceRoundTrip(MapStage1Place(raw, at), at2);
  }

  function Stage2PlaceValue(p: Stage2Place): Value
    requires p.id.Given?
  {
    Obj([("id", Str(p.id.s)), ("name", p.name), ("category", p.category),
         ("address", p.address),
         ("latitude", OptionalNumber(p.latitude)), ("longitude", OptionalNumber(p.longitude)),
         ("rating", OptionalNumber(p.rating)), ("day", p.day),
         ("isRecommended", Bool(p.isRecommended))])
  }

  predicate IsNormalisedStage2(p: Stage2Place) {
    p.id.Given? && !Nullish(p.name) && !Nullish(p.category) && !Nullish(p.address) && !Nullish(p.day)
  }

  lemma Stage2PlaceValueReads(p: Stage2Place)
    requires p.id.Given?
    ensures var v := Stage2PlaceValue(p);
      Get(v, "id") == Str(p.id.s) && Get(v, "name") == p.name && Get(v, "category") == p.category
      && Get(v, "address") == p.address
      && Get(v, "latitude") == OptionalNumber(p.latitude) && Get(v, "longitude") == OptionalNumber(p.longitude)
      && Get(v, "rating") == OptionalNumber(p.rating) && Get(v, "day") == p.day
      && Get(v, "isRecommended") == Bool(p.isRecommended)
      && Get(v, "lat") == Undefined && Get(v, "y") == Undefined
      && Get(v, "lng") == Undefined && Get(v, "x") == Undefined && Get(v, "lon") == Undefined
  {
    Stage2NamesRead(p);
    Stage2NumbersRead(p);
    Stage2AliasesAbsent(p);
  }

  lemma Stage2NamesRead(p: Stage2Place)
    requires p.id.Given?
    ensures var v := Stage2PlaceValue(p);
      Get(v, "id") == Str(p.id.s) && Get(v, "name") == p.name && Get(v, "category") == p.category
      && Get(v, "address") == p.address
  {
    var fields := Stage2PlaceValue(p).fields;
    LookupAt(fields, "id", 0);
    LookupAt(fields, "name", 1);
    LookupAt(fields, "category", 2);
    LookupAt(fields, "address", 3);
  }

  lemma Stage2NumbersRead(p: Stage2Place)
    requires p.id.Given?
    ensures var v := Stage2PlaceValue(p);
      Get(v, "latitude") == OptionalNumber(p.latitude) && Get(v, "longitude") == OptionalNumber(p.longitude)
      && Get(v, "rating") == OptionalNumber(p.rating) && Get(v, "day") == p.day
      && Get(v, "isRecommended") == Bool(p.isRecommended)
  {
    var fields := Stage2PlaceValue(p).fields;
    LookupAt(fields, "latitude", 4);
    LookupAt(fields, "longitude", 5);
    LookupAt(fields, "rating", 6);
    LookupAt(fields, "day", 7);
    LookupAt(fields, "isRecommended", 8);
  }

  lemma Stage2AliasesAbsent(p: Stage2Place)
    requires p.id.Given?
    ensures var v := Stage2PlaceValue(p);
      Get(v, "lat") == Undefined && Get(v, "y") == Undefined && Get(v, "lng") == Undefined && Get(v, "x") == Undefined
      && Get(v, "lon") == Undefined
  {
    var fields := Stage2PlaceValue(p).fields;
    LookupAbsent(fields, "lat");
    LookupAbsent(fields, "y");
    LookupAbsent(fields, "lng");
    LookupAbsent(fields, "x");
    LookupAbsent(fields, "lon");
  }

  /** A normalised stage-2 place sent back as an object maps to itself,
      whatever day it is filed under. */
  lemma Stage2PlaceRoundTrip(p: Stage2Place, fallback: Value, at: Slot)
    requires IsNormalisedStage2(p)
    ensures MapStage2Place(Stage2PlaceValue(p), fallback, at) == p
  {
    var v := Stage2PlaceValue(p);
    Stage2PlaceValueReads(p);
    var q := MapStage2Place(v, fallback, at);
    assert q.id == p.id;
    assert q.latitude == p.latitude;
    assert q.longitude == p.longitude;
    assert q.rating == p.rating;
  }

  /** The stage-2 mapper is idempotent too, and a place that already carries a
      day keeps it whatever day it is filed under next. */
  lemma Stage2PlaceIdempotent(raw: Value, fallback: Value, at: Slot, otherFallback: Value, at2: Slot)
    requires MapStage2Place(raw, fallback, at).id.Given?
    requires !Nullish(fallback)
    ensures MapStage2Place(Stage2PlaceValue(MapStage2Place(raw, fallback, at)), otherFallback, at2) == MapStage2Place(raw, fallback, at)
  {
    Stage2PlaceRoundTrip(MapStage2Place(raw, fallback, at), otherFallback, at2);
  }
}
