/** The ids the chat screen generates for places that carry none. The screen
    draws a fresh random token per place; the model draws it from the place's
    slot in the payload. What that buys: the progress panel's select-all keeps
    every such place as an entry of its own, instead of letting two of them
    overwrite each other under one key. */
module PlaceSlots {
  import opened JsValue
  import opened StageTypes
  import opened StagePlaces
  import opened StageExtract
  import opened Records
  import opened StagePanel
  import opened StagePanelProperties

  // ---------------------------------------------------------------------------
  // Stage 1

  /** A place whose id was generated is the place its slot determines. */
  predicate PlaceFromSlot(p: Stage1Place, canon: Slot -> Stage1Place) {
    p.id.Generated? ==> p == canon(p.id.at)
  }

  predicate PlacesFromSlots(places: seq<Stage1Place>, canon: Slot -> Stage1Place) {
    forall j :: 0 <= j < |places| ==> PlaceFromSlot(places[j], canon)
  }

  predicate CategoriesFromSlots(cats: seq<Stage1Category>, canon: Slot -> Stage1Place) {
    forall c :: 0 <= c < |cats| ==> PlacesFromSlots(cats[c].places, canon)
  }

  /** The raw item at a slot of a stage-1 payload, in whichever shape
      `extractStage1Data` reads it. */
  function Stage1RawAt(payload: Value, s: Slot): Value {
    var categorized := Or(Get(payload, "places"), Get(payload, "categorizedPlaces"));
    var all := Get(payload, "allPlaces");
    if Truthy(categorized) && IsObjectLike(categorized) then
      var es := Entries(categorized);
      if s.group < |es| && es[s.group].1.Arr? && s.index < |es[s.group].1.items| then es[s.group].1.items[s.index]
      else Undefined
    else if all.Arr? && s.group == 0 && s.index < |all.items| then all.items[s.index]
    else Undefined
  }

  /** The place a slot of the payload normalises to. */
  function Stage1Canon(payload: Value): Slot -> Stage1Place {
    s => MapStage1Place(Stage1RawAt(payload, s), s)
  }

  lemma NonEmptyFromSlots(cats: seq<Stage1Category>, canon: Slot -> Stage1Place)
    requires CategoriesFromSlots(cats, canon)
    ensures CategoriesFromSlots(NonEmpty(cats), canon)
  {
    if |cats| > 0 {
      NonEmptyFromSlots(cats[1..], canon);
      assert forall c :: 0 <= c < |cats[1..]| ==> cats[1..][c] == cats[c + 1];
    }
  }

  lemma {:induction false} InsertByCountFromSlots(c: Stage1Category, s: seq<Stage1Category>, canon: Slot -> Stage1Place)
    requires PlacesFromSlots(c.places, canon) && CategoriesFromSlots(s, canon)
    ensures CategoriesFromSlots(InsertByCount(c, s), canon)
  {
    if |s| > 0 && |s[0].places| > |c.places| {
      assert forall k :: 0 <= k < |s[1..]| ==> s[1..][k] == s[k + 1];
      InsertByCountFromSlots(c, s[1..], canon);
      var r := InsertByCount(c, s[1..]);
      assert InsertByCount(c, s) == [s[0]] + r;
      assert forall k :: 1 <= k < |r| + 1 ==> ([s[0]] + r)[k] == r[k - 1];
    }
  }

  lemma {:induction false} SortByCountFromSlots(cats: seq<Stage1Category>, canon: Slot -> Stage1Place)
    requires CategoriesFromSlots(cats, canon)
    ensures CategoriesFromSlots(SortByCount(cats), canon)
  {
    if |cats| > 0 {
      assert forall k :: 0 <= k < |cats[1..]| ==> cats[1..][k] == cats[k + 1];
      SortByCountFromSlots(cats[1..], canon);
      InsertByCountFromSlots(cats[0], SortByCount(cats[1..]), canon);
    }
  }

  lemma AddToGroupsFromSlots(gs: seq<Stage1Category>, p: Stage1Place, canon: Slot -> Stage1Place)
    requires CategoriesFromSlots(gs, canon) && PlaceFromSlot(p, canon)
    ensures CategoriesFromSlots(AddToGroups(gs, p), canon)
  {
    var j := IndexOfName(gs, GroupKey(p));
    if j != -1 {
      var g := gs[j].places + [p];
      assert forall k :: 0 <= k < |g| ==> g[k] == if k < |gs[j].places| then gs[j].places[k] else p;
    }
  }

  lemma {:induction false} GroupsFromSlots(places: seq<Stage1Place>, canon: Slot -> Stage1Place)
    requires PlacesFromSlots(places, canon)
    ensures CategoriesFromSlots(Groups(places), canon)
  {
    if |places| > 0 {
      var pre := places[..|places| - 1];
      assert forall k :: 0 <= k < |pre| ==> pre[k] == places[k];
      GroupsFromSlots(pre, canon);
      AddToGroupsFromSlots(Groups(pre), places[|places| - 1], canon);
    }
  }

  /** Every place of an extracted stage 1 whose id was generated is the
      place its own slot of the payload normalises to, whatever the sorting
      or grouping did to its position. */
  lemma ExtractedStage1FromSlots(payload: Value)
    requires ExtractStage1(payload).Some?
    ensures CategoriesFromSlots(ExtractStage1(payload).value.categories, Stage1Canon(payload))
  {
    var canon := Stage1Canon(payload);
    var categorized := Or(Get(payload, "places"), Get(payload, "categorizedPlaces"));
    var all := Get(payload, "allPlaces");
    if Truthy(categorized) && IsObjectLike(categorized) {
      var es := Entries(categorized);
      var cats := EntryCategories(es);
      forall c | 0 <= c < |cats| ensures PlacesFromSlots(cats[c].places, canon) {
        forall i | 0 <= i < |cats[c].places| ensures PlaceFromSlot(cats[c].places[i], canon) {
          assert cats[c].places[i] == MapStage1Place(es[c].1.items[i], Slot(c, i));
          assert Stage1RawAt(payload, Slot(c, i)) == es[c].1.items[i];
        }
      }
      NonEmptyFromSlots(cats, canon);
      SortByCountFromSlots(NonEmpty(cats), canon);
    } else {
      var places := MapPlaces1(all.items, 0);
      forall i | 0 <= i < |places| ensures PlaceFromSlot(places[i], canon) {
        assert places[i] == MapStage1Place(all.items[i], Slot(0, i));
        assert Stage1RawAt(payload, Slot(0, i)) == all.items[i];
      }
      GroupsFromSlots(places, canon);
    }
  }

  /** Select-all (and select-recommended, for a recommended place) keeps a
      place whose id was generated as its own entry, under its own id. */
  lemma Stage1GeneratedKept(cats: seq<Stage1Category>, canon: Slot -> Stage1Place, onlyRecommended: bool, c: nat, j: nat)
    requires CategoriesFromSlots(cats, canon)
    requires c < |cats| && j < |cats[c].places| && cats[c].places[j].id.Generated?
    requires !onlyRecommended || cats[c].places[j].isRecommended
    ensures Find(Stage1SelectionOf(cats, onlyRecommended), cats[c].places[j].id) == Some(cats[c].places[j])
  {
    var p := cats[c].places[j];
    assert InCategories(cats, p.id, onlyRecommended);
    Stage1SelectionHas(cats, onlyRecommended, p.id);
    Stage1SelectionValues(cats, onlyRecommended, p.id);
    var c', j' :| 0 <= c' < |cats| && 0 <= j' < |cats[c'].places|
      && Find(Stage1SelectionOf(cats, onlyRecommended), p.id) == Some(cats[c'].places[j'])
      && cats[c'].places[j'].id == p.id && (!onlyRecommended || cats[c'].places[j'].isRecommended);
    assert PlaceFromSlot(cats[c'].places[j'], canon) && PlaceFromSlot(p, canon);
  }

  /** For two stage-1 places without ids, given only their names, select-all
      keeps two entries: the example the collision would break. */
  lemma TwoUnnamedPlacesKeptApart()
    ensures var payload := Obj([("allPlaces", Arr([Obj([("placeName", Str("A"))]), Obj([("placeName", Str("B"))])]))]);
      var d := ExtractStage1(payload);
      d.Some? && |Stage1SelectionOf(d.value.categories, false)| == 2
  {
    var a := Obj([("placeName", Str("A"))]);
    var b := Obj([("placeName", Str("B"))]);
    var payload := Obj([("allPlaces", Arr([a, b]))]);
    FlatPayloadRead(payload, Arr([a, b]));
    assert ExtractStage1(payload) == Some(GroupedStage1([a, b]));
    TwoUnnamedSelection(a, b);
  }

  /** A payload holding only `allPlaces` is read in the flat shape. */
  lemma FlatPayloadRead(payload: Value, all: Value)
    requires payload == Obj([("allPlaces", all)])
    ensures Get(payload, "places") == Undefined && Get(payload, "categorizedPlaces") == Undefined
    ensures Get(payload, "allPlaces") == all
  {
    assert "allPlaces"[0] != "categorizedPlaces"[0];
    assert "allPlaces"[0] != "places"[0];
    LookupSingle("allPlaces", all, "places");
    LookupSingle("allPlaces", all, "categorizedPlaces");
  }

  lemma LookupSingle(k: string, v: Value, key: string)
    requires k != key
    ensures Lookup([(k, v)], key) == Undefined
  {
    assert [(k, v)][1..] == [];
  }

  lemma TwoUnnamedSelection(a: Value, b: Value)
    requires a == Obj([("placeName", Str("A"))]) && b == Obj([("placeName", Str("B"))])
    ensures |Stage1SelectionOf(GroupedStage1([a, b]).categories, false)| == 2
  {
    var p0, p1 := MapStage1Place(a, Slot(0, 0)), MapStage1Place(b, Slot(0, 1));
    UnnamedPlace(a, Slot(0, 0));
    UnnamedPlace(b, Slot(0, 1));
    assert MapPlaces1([a, b], 0) == [p0, p1];
    OneGroup(p0, p1);
    TwoEntries(Stage1Category(Str("기타"), [p0, p1]));
  }

  /** Two places of the '기타' group make one group of both. */
  lemma OneGroup(p0: Stage1Place, p1: Stage1Place)
    requires GroupKey(p0) == Str("기타") && GroupKey(p1) == Str("기타")
    ensures Groups([p0, p1]) == [Stage1Category(Str("기타"), [p0, p1])]
  {
    assert [p0, p1][..1] == [p0];
    assert [p0][..0] == [];
    var g := Groups([p0]);
    assert Groups([p0][..0]) == [];
    assert g == AddToGroups(Groups([p0][..0]), p0);
    assert g == AddToGroups([], p0);
    assert [] + [Stage1Category(Str("기타"), [p0])] == [Stage1Category(Str("기타"), [p0])];
    assert g == [Stage1Category(Str("기타"), [p0])];
    assert IndexOfName(g, Str("기타")) == 0;
    assert [p0] + [p1] == [p0, p1];
  }

  /** One category of two places with different ids selects both. */
  lemma TwoEntries(cat: Stage1Category)
    requires |cat.places| == 2 && cat.places[0].id != cat.places[1].id
    ensures |Stage1SelectionOf([cat], false)| == 2
  {
    var p0, p1 := cat.places[0], cat.places[1];
    assert cat.places[..1] == [p0];
    assert [p0][..0] == [];
    var entries := Stage1Entries(cat.places, false);
    assert Stage1Entries([p0], false) == [] + [(p0.id, p0)];
    assert entries == Stage1Entries([p0], false) + [(p1.id, p1)];
    assert entries == [(p0.id, p0), (p1.id, p1)];
    assert [cat][..0] == [];
    assert entries[..1] == [entries[0]];
    assert PutAll([], [entries[0]]) == [entries[0]];
  }

  /** A place given by its name under `placeName` only gets a generated id
      and falls in the '기타' group. */
  lemma UnnamedPlace(raw: Value, at: Slot)
    requires raw.Obj? && |raw.fields| == 1 && raw.fields[0].0 == "placeName"
    ensures MapStage1Place(raw, at).id == Generated(at)
    ensures GroupKey(MapStage1Place(raw, at)) == Str("기타")
  {
    assert "placeName"[0] != "id"[0] && "placeName"[0] != "name"[0] && "placeName"[0] != "category"[0];
    assert "placeName"[5] != "placeId"[5] && "placeName"[0] != "subCategory"[0];
    LookupSingle("placeName", raw.fields[0].1, "id");
    LookupSingle("placeName", raw.fields[0].1, "placeId");
    LookupSingle("placeName", raw.fields[0].1, "name");
    LookupSingle("placeName", raw.fields[0].1, "category");
    LookupSingle("placeName", raw.fields[0].1, "subCategory");
    assert raw.fields == [("placeName", raw.fields[0].1)];
  }

  // ---------------------------------------------------------------------------
  // Stage 2

  /** Every place whose id was generated sits at the slot its id names. */
  predicate DaysAtOwnSlots(days: seq<Stage2Day>) {
    forall d, j :: 0 <= d < |days| && 0 <= j < |days[d].places| && days[d].places[j].id.Generated? ==>
      days[d].places[j].id.at == Slot(d, j)
  }

  /** The days `extractStage2Data` builds leave every generated id at its
      own slot: day d's j-th place. */
  lemma ExtractedStage2AtOwnSlots(payload: Value)
    requires ExtractStage2(payload).Some?
    ensures DaysAtOwnSlots(ExtractStage2(payload).value.days)
  {
    var daily := Or(Get(payload, "dailyDistribution"), Get(payload, "dailyPlans"));
    var days := ExtractStage2(payload).value.days;
    forall d, j | 0 <= d < |days| && 0 <= j < |days[d].places| && days[d].places[j].id.Generated?
      ensures days[d].places[j].id.at == Slot(d, j)
    {
      var day := DayOf(daily.items[d], d);
      assert days[d] == day;
      var pv := Get(daily.items[d], "places");
      assert day.places[j] == MapStage2Place(pv.items[j], day.day, Slot(d, j));
    }
  }

  /** Select-all in stage 2 keeps a place whose id was generated as its own
      entry, with the day that holds it filled in. */
  lemma Stage2GeneratedKept(days: seq<Stage2Day>, d: nat, j: nat)
    requires DaysAtOwnSlots(days)
    requires d < |days| && j < |days[d].places| && days[d].places[j].id.Generated?
    ensures Find(Stage2SelectionOf(days), days[d].places[j].id) == Some(WithDay(days[d].places[j], days[d].day))
  {
    var p := days[d].places[j];
    assert InDays(days, p.id);
    Stage2SelectionHas(days, p.id);
    Stage2SelectionValues(days, p.id);
    var d', j' :| 0 <= d' < |days| && 0 <= j' < |days[d'].places| && days[d'].places[j'].id == p.id
      && Find(Stage2SelectionOf(days), p.id) == Some(WithDay(days[d'].places[j'], days[d'].day));
    assert Slot(d', j') == p.id.at == Slot(d, j);
  }
}
