/** What the progress panel's selections and labels amount to. */
module StagePanelProperties {
  import opened JsValue
  import opened StageTypes
  import opened Records
  import opened StagePanel

  /** Some place of some category carries the id (and is recommended, when
      only recommended places count). */
  predicate InCategories(cats: seq<Stage1Category>, id: PlaceId, onlyRecommended: bool) {
    exists c, j :: 0 <= c < |cats| && 0 <= j < |cats[c].places|
      && cats[c].places[j].id == id && (!onlyRecommended || cats[c].places[j].isRecommended)
  }

  predicate InDays(days: seq<Stage2Day>, id: PlaceId) {
    exists d, j :: 0 <= d < |days| && 0 <= j < |days[d].places| && days[d].places[j].id == id
  }

  /** A category is shown expanded when its flag is `true`. */
  predicate Expanded(e: seq<(string, bool)>, key: string) {
    Find(e, key) == Some(true)
  }

  // ---------------------------------------------------------------------------
  // Stage 1

  lemma {:induction false} Stage1EntriesAt(places: seq<Stage1Place>, onlyRecommended: bool, i: nat)
    requires i < |Stage1Entries(places, onlyRecommended)|
    ensures exists j :: (0 <= j < |places| && Stage1Entries(places, onlyRecommended)[i] == (places[j].id, places[j])
      && (!onlyRecommended || places[j].isRecommended))
    decreases |places|
  {
    var prefix := places[..|places| - 1];
    var entries := Stage1Entries(places, onlyRecommended);
    if i < |Stage1Entries(prefix, onlyRecommended)| {
      Stage1EntriesAt(prefix, onlyRecommended, i);
      var j :| 0 <= j < |prefix| && Stage1Entries(prefix, onlyRecommended)[i] == (prefix[j].id, prefix[j])
        && (!onlyRecommended || prefix[j].isRecommended);
      assert entries[i] == (places[j].id, places[j]);
    } else {
      assert entries[i] == (places[|places| - 1].id, places[|places| - 1]);
    }
  }

  lemma {:induction false} Stage1EntriesCover(places: seq<Stage1Place>, onlyRecommended: bool, j: nat)
    requires j < |places| && (!onlyRecommended || places[j].isRecommended)
    ensures exists i :: 0 <= i < |Stage1Entries(places, onlyRecommended)| && Stage1Entries(places, onlyRecommended)[i] == (places[j].id, places[j])
    decreases |places|
  {
    var prefix := places[..|places| - 1];
    var entries := Stage1Entries(places, onlyRecommended);
    if j < |prefix| {
      Stage1EntriesCover(prefix, onlyRecommended, j);
      var i :| 0 <= i < |Stage1Entries(prefix, onlyRecommended)| && Stage1Entries(prefix, onlyRecommended)[i] == (prefix[j].id, prefix[j]);
      assert entries[i] == Stage1Entries(prefix, onlyRecommended)[i];
    } else {
      assert entries[|entries| - 1] == (places[j].id, places[j]);
    }
  }

  /** Some place of the list carries the id (and is recommended, when only
      recommended places count). */
  predicate InPlaces(places: seq<Stage1Place>, id: PlaceId, onlyRecommended: bool) {
    exists j :: 0 <= j < |places| && places[j].id == id && (!onlyRecommended || places[j].isRecommended)
  }

  lemma Stage1EntriesHaveId(places: seq<Stage1Place>, onlyRecommended: bool, id: PlaceId)
    ensures (exists i :: 0 <= i < |Stage1Entries(places, onlyRecommended)| && Stage1Entries(places, onlyRecommended)[i].0 == id)
      <==> InPlaces(places, id, onlyRecommended)
  {
    var entries := Stage1Entries(places, onlyRecommended);
    if exists i :: 0 <= i < |entries| && entries[i].0 == id {
      var i :| 0 <= i < |entries| && entries[i].0 == id;
      Stage1EntriesAt(places, onlyRecommended, i);
    }
    if InPlaces(places, id, onlyRecommended) {
      var j :| 0 <= j < |places| && places[j].id == id && (!onlyRecommended || places[j].isRecommended);
      Stage1EntriesCover(places, onlyRecommended, j);
    }
  }

  lemma InCategoriesSnoc(cats: seq<Stage1Category>, id: PlaceId, onlyRecommended: bool)
    requires |cats| > 0
    ensures InCategories(cats, id, onlyRecommended)
      <==> InCategories(cats[..|cats| - 1], id, onlyRecommended) || InPlaces(cats[|cats| - 1].places, id, onlyRecommended)
  {
    var prefix := cats[..|cats| - 1];
    if InCategories(cats, id, onlyRecommended) {
      var c, j :| 0 <= c < |cats| && 0 <= j < |cats[c].places|
        && cats[c].places[j].id == id && (!onlyRecommended || cats[c].places[j].isRecommended);
      if c < |prefix| {
        assert prefix[c].places[j].id == id;
      }
    }
    if InCategories(prefix, id, onlyRecommended) {
      var c, j :| 0 <= c < |prefix| && 0 <= j < |prefix[c].places|
        && prefix[c].places[j].id == id && (!onlyRecommended || prefix[c].places[j].isRecommended);
      assert cats[c].places[j].id == id;
    }
  }

  /** The stage-1 selection holds exactly the ids of the places of the
      categories (of the recommended ones, for select-recommended). */
  lemma {:induction false} Stage1SelectionHas(cats: seq<Stage1Category>, onlyRecommended: bool, id: PlaceId)
    ensures Has(Stage1SelectionOf(cats, onlyRecommended), id) <==> InCategories(cats, id, onlyRecommended)
    decreases |cats|
  {
    if |cats| > 0 {
      var prefix := cats[..|cats| - 1];
      var last := cats[|cats| - 1];
      assert Stage1SelectionOf(cats, onlyRecommended)
        == PutAll(Stage1SelectionOf(prefix, onlyRecommended), Stage1Entries(last.places, onlyRecommended));
      Stage1SelectionHas(prefix, onlyRecommended, id);
      PutAllHas(Stage1SelectionOf(prefix, onlyRecommended), Stage1Entries(last.places, onlyRecommended), id);
      Stage1EntriesHaveId(last.places, onlyRecommended, id);
      InCategoriesSnoc(cats, id, onlyRecommended);
    }
  }

  /** Every selected place sits under its own id and is one of the places of
      the categories (a recommended one, for select-recommended). */
  lemma {:induction false} Stage1SelectionValues(cats: seq<Stage1Category>, onlyRecommended: bool, id: PlaceId)
    requires Has(Stage1SelectionOf(cats, onlyRecommended), id)
    ensures exists c, j :: (0 <= c < |cats| && 0 <= j < |cats[c].places|
      && Find(Stage1SelectionOf(cats, onlyRecommended), id) == Some(cats[c].places[j])
      && cats[c].places[j].id == id && (!onlyRecommended || cats[c].places[j].isRecommended))
    decreases |cats|
  {
    var prefix := cats[..|cats| - 1];
    var last := cats[|cats| - 1];
    var entries := Stage1Entries(last.places, onlyRecommended);
    var before := Stage1SelectionOf(prefix, onlyRecommended);
    var v := Find(Stage1SelectionOf(cats, onlyRecommended), id).value;
    PutAllFrom(before, entries, id);
    if exists i :: 0 <= i < |entries| && entries[i] == (id, v) {
      var i :| 0 <= i < |entries| && entries[i] == (id, v);
      Stage1EntriesAt(last.places, onlyRecommended, i);
      var j :| 0 <= j < |last.places| && entries[i] == (last.places[j].id, last.places[j])
        && (!onlyRecommended || last.places[j].isRecommended);
      assert cats[|cats| - 1].places[j] == v;
    } else {
      Stage1SelectionValues(prefix, onlyRecommended, id);
      var c, j :| 0 <= c < |prefix| && 0 <= j < |prefix[c].places|
        && Find(before, id) == Some(prefix[c].places[j])
        && prefix[c].places[j].id == id && (!onlyRecommended || prefix[c].places[j].isRecommended);
      assert cats[c] == prefix[c];
    }
  }

  /** The selection never holds more entries than there are places (than
      recommended places, for select-recommended), and no id twice. */
  lemma {:induction false} Stage1SelectionSize(cats: seq<Stage1Category>, onlyRecommended: bool)
    ensures onlyRecommended ==> |Stage1SelectionOf(cats, onlyRecommended)| <= CategoryRecommendedTotal(cats)
    ensures !onlyRecommended ==> |Stage1SelectionOf(cats, onlyRecommended)| <= CategoryPlaceTotal(cats)
    ensures DistinctKeys(Stage1SelectionOf(cats, onlyRecommended))
    decreases |cats|
  {
    if |cats| > 0 {
      var prefix := cats[..|cats| - 1];
      Stage1SelectionSize(prefix, onlyRecommended);
      PutAllKeepsDistinct(Stage1SelectionOf(prefix, onlyRecommended), Stage1Entries(cats[|cats| - 1].places, onlyRecommended));
    }
  }

  /** The panel's stage-1 count covers whatever the selection holds. */
  lemma SelectAllWithinTotal(stage1: Stage1Data)
    ensures |Stage1SelectionOf(stage1.categories, false)| <= TotalStage1Places(Some(stage1))
    ensures |Stage1SelectionOf(stage1.categories, true)| <= TotalStage1Places(Some(stage1))
  {
    Stage1SelectionSize(stage1.categories, false);
    Stage1SelectionSize(stage1.categories, true);
    RecommendedTotalBound(stage1.categories);
  }

  // ---------------------------------------------------------------------------
  // Stage 2

  predicate HasPlaceId(places: seq<Stage2Place>, id: PlaceId) {
    exists j :: 0 <= j < |places| && places[j].id == id
  }

  lemma Stage2EntriesHaveId(places: seq<Stage2Place>, day: Value, id: PlaceId)
    ensures (exists i :: 0 <= i < |Stage2Entries(places, day)| && Stage2Entries(places, day)[i].0 == id)
      <==> HasPlaceId(places, id)
  {
    if HasPlaceId(places, id) {
      var j :| 0 <= j < |places| && places[j].id == id;
      assert Stage2Entries(places, day)[j].0 == id;
    } else {
      forall i | 0 <= i < |Stage2Entries(places, day)| ensures Stage2Entries(places, day)[i].0 != id {
        assert Stage2Entries(places, day)[i].0 == places[i].id;
      }
    }
  }

  lemma InDaysSnoc(days: seq<Stage2Day>, id: PlaceId)
    requires |days| > 0
    ensures InDays(days, id) <==> InDays(days[..|days| - 1], id) || HasPlaceId(days[|days| - 1].places, id)
  {
    var prefix := days[..|days| - 1];
    if InDays(days, id) {
      var d, j :| 0 <= d < |days| && 0 <= j < |days[d].places| && days[d].places[j].id == id;
      if d < |prefix| {
        assert prefix[d].places[j].id == id;
      }
    }
    if InDays(prefix, id) {
      var d, j :| 0 <= d < |prefix| && 0 <= j < |prefix[d].places| && prefix[d].places[j].id == id;
      assert days[d].places[j].id == id;
    }
  }

  /** The stage-2 selection holds exactly the ids of the places of the days. */
  lemma {:induction false} Stage2SelectionHas(days: seq<Stage2Day>, id: PlaceId)
    ensures Has(Stage2SelectionOf(days), id) <==> InDays(days, id)
    decreases |days|
  {
    if |days| > 0 {
      var prefix := days[..|days| - 1];
      var last := days[|days| - 1];
      assert Stage2SelectionOf(days) == PutAll(Stage2SelectionOf(prefix), Stage2Entries(last.places, last.day));
      Stage2SelectionHas(prefix, id);
      PutAllHas(Stage2SelectionOf(prefix), Stage2Entries(last.places, last.day), id);
      Stage2EntriesHaveId(last.places, last.day, id);
      InDaysSnoc(days, id);
    }
  }

  /** Every stage-2 selected place is a place of some day, under its own id,
      with its day set to its own day or else the day that holds it. */
  lemma {:induction false} Stage2SelectionValues(days: seq<Stage2Day>, id: PlaceId)
    requires Has(Stage2SelectionOf(days), id)
    ensures exists d, j :: (0 <= d < |days| && 0 <= j < |days[d].places| && days[d].places[j].id == id
      && Find(Stage2SelectionOf(days), id) == Some(WithDay(days[d].places[j], days[d].day)))
    decreases |days|
  {
    var prefix := days[..|days| - 1];
    var last := days[|days| - 1];
    var entries := Stage2Entries(last.places, last.day);
    var before := Stage2SelectionOf(prefix);
    var v := Find(Stage2SelectionOf(days), id).value;
    PutAllFrom(before, entries, id);
    if exists i :: 0 <= i < |entries| && entries[i] == (id, v) {
      var i :| 0 <= i < |entries| && entries[i] == (id, v);
      assert days[|days| - 1].places[i].id == id;
    } else {
      Stage2SelectionValues(prefix, id);
      var d, j :| 0 <= d < |prefix| && 0 <= j < |prefix[d].places| && prefix[d].places[j].id == id
        && Find(before, id) == Some(WithDay(prefix[d].places[j], prefix[d].day));
      assert days[d] == prefix[d];
    }
  }

  lemma {:induction false} Stage2SelectionSize(days: seq<Stage2Day>)
    ensures |Stage2SelectionOf(days)| <= DayPlaceTotal(days)
    ensures DistinctKeys(Stage2SelectionOf(days))
    decreases |days|
  {
    if |days| > 0 {
      var prefix := days[..|days| - 1];
      Stage2SelectionSize(prefix);
      PutAllKeepsDistinct(Stage2SelectionOf(prefix), Stage2Entries(days[|days| - 1].places, days[|days| - 1].day));
    }
  }

  // ---------------------------------------------------------------------------
  // Submission order

  /** `Object.values` of a selection lists the places whose ids are array
      indices first, ascending, then the others in the order they were
      selected; it drops none and adds none. */
  lemma SubmissionOrder<P>(r: seq<(PlaceId, P)>)
    ensures var o := OwnOrder(r, PlaceIdIndex);
      && multiset(o) == multiset(r)
      && (forall i, j :: 0 <= i < j < |o| && PlaceIdIndex(o[j].0).Some? ==> PlaceIdIndex(o[i].0).Some?)
      && (forall i, j :: (0 <= i < j < |o| && PlaceIdIndex(o[i].0).Some? && PlaceIdIndex(o[j].0).Some?) ==>
            PlaceIdIndex(o[i].0).value <= PlaceIdIndex(o[j].0).value)
      && o[|IndexKeyed(r, PlaceIdIndex)|..] == NamedKeyed(r, PlaceIdIndex)
  {
    OwnOrderCharacterised(r, PlaceIdIndex);
  }

  /** With no numeric ids the places are handed on in selection order. */
  lemma SubmissionInSelectionOrder<P>(r: seq<(PlaceId, P)>)
    requires forall i :: 0 <= i < |r| ==> r[i].0.Generated? || ArrayIndexOf(r[i].0.s).None?
    ensures Values(OwnOrder(r, PlaceIdIndex)) == Values(r)
  {
    OwnOrderWithoutIndices(r, PlaceIdIndex);
  }

  /** Selected first under id "10" and then under id "2", the places are
      handed on with "2" first. */
  lemma NumericIdsSubmittedAscending<P>(p: P, q: P)
    ensures Values(OwnOrder([(Given("10"), p), (Given("2"), q)], PlaceIdIndex)) == [q, p]
  {
    var r := [(Given("10"), p), (Given("2"), q)];
    assert ArrayIndexOf("10") == Some(10) by {
      assert "10"[..1] == "1";
      assert DecimalValue("10") == 10;
    }
    assert ArrayIndexOf("2") == Some(2);
    assert PlaceIdIndex(r[0].0) == Some(10) && PlaceIdIndex(r[1].0) == Some(2);
    assert r[1..][1..] == [];
    assert IndexKeyed(r[1..], PlaceIdIndex) == [r[1]] + IndexKeyed(r[1..][1..], PlaceIdIndex);
    assert IndexKeyed(r, PlaceIdIndex) == [r[0]] + IndexKeyed(r[1..], PlaceIdIndex);
    assert NamedKeyed(r[1..], PlaceIdIndex) == NamedKeyed(r[1..][1..], PlaceIdIndex);
    assert NamedKeyed(r, PlaceIdIndex) == NamedKeyed(r[1..], PlaceIdIndex);
    assert IndexKeyed(r, PlaceIdIndex) == r;
    assert SortByIndex(r[1..], PlaceIdIndex) == [r[1]];
    assert IndexOr0(PlaceIdIndex, r[0].0) == 10 && IndexOr0(PlaceIdIndex, r[1].0) == 2;
    assert InsertByIndex(r[0], [r[1]], PlaceIdIndex) == [r[1]] + InsertByIndex(r[0], [], PlaceIdIndex);
    assert SortByIndex(r, PlaceIdIndex) == [r[1], r[0]];
  }

  /** A place that already names its day keeps it. */
  lemma WithDayKeepsOwnDay(p: Stage2Place, day: Value)
    ensures !Nullish(p.day) ==> WithDay(p, day).day == p.day
    ensures Nullish(p.day) ==> WithDay(p, day).day == day
    ensures WithDay(p, day).id == p.id && WithDay(p, day).name == p.name
  {
  }

  // ---------------------------------------------------------------------------
  // Toggles

  /** A toggle flips the toggled id's membership and leaves every other id
      as it was. */
  lemma ToggledFind<P>(r: seq<(PlaceId, P)>, id: PlaceId, p: P, k: PlaceId)
    ensures Find(Toggled(r, id, p), k) ==
      if k != id then Find(r, k) else if Has(r, id) then None else Some(p)
  {
    if Has(r, id) {
      DeleteFind(r, id, k);
    } else {
      PutFind(r, id, p, k);
    }
  }

  /** Toggling an unselected place twice gives back the same record. */
  lemma ToggleTwiceAbsent<P>(r: seq<(PlaceId, P)>, id: PlaceId, p: P)
    requires !Has(r, id)
    ensures Toggled(Toggled(r, id, p), id, p) == r
  {
    PutAbsent(r, id, p);
    PutFind(r, id, p, id);
    DeleteAppendAbsent(r, id, p);
  }

  lemma {:induction false} DeleteAppendAbsent<P>(r: seq<(PlaceId, P)>, id: PlaceId, p: P)
    requires !Has(r, id)
    ensures Delete(r + [(id, p)], id) == r
    decreases |r|
  {
    if |r| == 0 {
      assert r + [(id, p)] == [(id, p)];
    } else {
      assert (r + [(id, p)])[1..] == r[1..] + [(id, p)];
      DeleteAppendAbsent(r[1..], id, p);
    }
  }

  /** A toggle keeps the record free of repeated ids. */
  lemma ToggledKeepsDistinct<P>(r: seq<(PlaceId, P)>, id: PlaceId, p: P)
    requires DistinctKeys(r)
    ensures DistinctKeys(Toggled(r, id, p))
  {
    if Has(r, id) {
      DeleteKeepsDistinct(r, id);
    } else {
      PutKeepsDistinct(r, id, p);
    }
  }

  // ---------------------------------------------------------------------------
  // Category expansion

  function ToggledCategory(e: seq<(string, bool)>, key: string): seq<(string, bool)> {
    Put(e, key, Find(e, key) != Some(true))
  }

  /** The category toggle flips that category's expansion, a second toggle
      restores it, and no other category changes. */
  lemma CategoryToggleFlips(e: seq<(string, bool)>, key: string, other: string)
    ensures Expanded(ToggledCategory(e, key), key) == !Expanded(e, key)
    ensures Expanded(ToggledCategory(ToggledCategory(e, key), key), key) == Expanded(e, key)
    ensures other != key ==> Find(ToggledCategory(e, key), other) == Find(e, other)
  {
    PutFind(e, key, Find(e, key) != Some(true), key);
    PutFind(e, key, Find(e, key) != Some(true), other);
    var once := ToggledCategory(e, key);
    PutFind(once, key, Find(once, key) != Some(true), key);
  }

  /** Initially exactly the first two categories are expanded. */
  lemma InitialExpansionIsFirstTwo(cats: seq<Stage1Category>, key: string)
    ensures Expanded(InitialExpansion(cats), key) <==>
      exists i :: 0 <= i < |cats| && i < 2 && CategoryKey(cats[i]) == key
  {
    if |cats| == 1 {
      PutFind([], CategoryKey(cats[0]), true, key);
    } else if |cats| >= 2 {
      var one := Put([], CategoryKey(cats[0]), true);
      PutFind([], CategoryKey(cats[0]), true, key);
      PutFind(one, CategoryKey(cats[1]), true, key);
    }
  }

  // ---------------------------------------------------------------------------
  // Duration label

  lemma FloorOfDivision(h: nat, r: nat)
    requires r < 60
    ensures Floor(((60 * h + r) as real) / 60.0) == h
  {
    var x := ((60 * h + r) as real) / 60.0;
    assert x == (h as real) + (r as real) / 60.0;
    assert (h as real) <= x < (h as real) + 1.0;
  }

  /** For a whole number of minutes m = 60·h + r, the label is "h시간 r분",
      dropping whichever part is zero. */
  lemma FormatDurationWhole(h: nat, r: nat)
    requires r < 60 && 60 * h + r > 0
    ensures FormatDuration(Num((60 * h + r) as real)) ==
      if h == 0 then NatToDecimal(r) + "분"
      else if r == 0 then NatToDecimal(h) + "시간"
      else NatToDecimal(h) + "시간 " + NatToDecimal(r) + "분"
  {
    var m := (60 * h + r) as real;
    FloorOfDivision(h, r);
    assert Truthy(Num(m)) && JsNumber(Num(m)) == Num(m);
    assert Floor(m / 60.0) == h;
    assert JsRem(m, 60.0) == r as real by {
      assert (m / 60.0).Floor == h;
    }
    assert Round(JsRem(m, 60.0)) == r;
    assert IntToDecimal(h) == NatToDecimal(h) && IntToDecimal(r) == NatToDecimal(r);
  }
}
