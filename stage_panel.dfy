/** The stage progress panel: the places a user has picked in stage 1 and
    stage 2, kept as records keyed by place id, the categories that are
    expanded, and the collapse flag; plus the totals and the duration label
    it shows. */
module StagePanel {
  import opened JsValue
  import opened StageTypes
  import opened Records

  // ---------------------------------------------------------------------------
  // What the selection records hold

  /** The stage-1 entries of one category's places, in order: all of them,
      or only the recommended ones. */
  function Stage1Entries(places: seq<Stage1Place>, onlyRecommended: bool): (r: seq<(PlaceId, Stage1Place)>)
    ensures |r| == if onlyRecommended then RecommendedIn(places) else |places|
  {
    if |places| == 0 then []
    else
      var prefix := Stage1Entries(places[..|places| - 1], onlyRecommended);
      var p := places[|places| - 1];
      if onlyRecommended && !p.isRecommended then prefix else prefix + [(p.id, p)]
  }

  /** The record the select-all and select-recommended loops build. */
  function Stage1SelectionOf(cats: seq<Stage1Category>, onlyRecommended: bool): seq<(PlaceId, Stage1Place)> {
    if |cats| == 0 then []
    else PutAll(Stage1SelectionOf(cats[..|cats| - 1], onlyRecommended),
                Stage1Entries(cats[|cats| - 1].places, onlyRecommended))
  }

  /** `{ ...place, day: place.day ?? day }` */
  function WithDay(p: Stage2Place, day: Value): Stage2Place {
    p.(day := Coalesce(p.day, day))
  }

  function Stage2Entries(places: seq<Stage2Place>, day: Value): (r: seq<(PlaceId, Stage2Place)>)
    ensures |r| == |places|
    ensures forall i :: 0 <= i < |places| ==> r[i] == (places[i].id, WithDay(places[i], day))
  {
    if |places| == 0 then []
    else Stage2Entries(places[..|places| - 1], day) + [(places[|places| - 1].id, WithDay(places[|places| - 1], day))]
  }

  /** The record the stage-2 initial selection and select-all build. */
  function Stage2SelectionOf(days: seq<Stage2Day>): seq<(PlaceId, Stage2Place)> {
    if |days| == 0 then []
    else PutAll(Stage2SelectionOf(days[..|days| - 1]), Stage2Entries(days[|days| - 1].places, days[|days| - 1].day))
  }

  /** The array index a place id denotes as an object key; a generated id
      (`place_…`) never denotes one. */
  function PlaceIdIndex(id: PlaceId): Option<nat> {
    if id.Given? then ArrayIndexOf(id.s) else None
  }

  /** `category.name || '기타'`, the key a category is expanded under. */
  function CategoryKey(c: Stage1Category): string {
    JsString(Or(c.name, Str("기타")))
  }

  /** The first two categories (or fewer), expanded. */
  function InitialExpansion(cats: seq<Stage1Category>): seq<(string, bool)> {
    if |cats| == 0 then []
    else if |cats| == 1 then Put([], CategoryKey(cats[0]), true)
    else Put(Put([], CategoryKey(cats[0]), true), CategoryKey(cats[1]), true)
  }

  /** A toggle: remove the id if present, otherwise add the place. */
  function Toggled<P>(r: seq<(PlaceId, P)>, id: PlaceId, p: P): seq<(PlaceId, P)> {
    if Has(r, id) then Delete(r, id) else Put(r, id, p)
  }

  // ---------------------------------------------------------------------------
  // Totals and labels

  /** Σ places over the categories, 0 without stage 1. */
  function TotalStage1Places(stage1: Option<Stage1Data>): nat {
    if stage1.None? then 0 else CategoryPlaceTotal(stage1.value.categories)
  }

  /** Σ places over the days, 0 without stage 2. */
  function TotalStage2Places(stage2: Option<Stage2Data>): nat {
    if stage2.None? then 0 else DayPlaceTotal(stage2.value.days)
  }

  /** A submit button is disabled while processing or with nothing selected. */
  predicate SubmitDisabled(isProcessing: bool, selectedCount: nat) {
    isProcessing || selectedCount == 0
  }

  /** The panel shows nothing when no stage is present. */
  predicate PanelHidden(stage1: Option<Stage1Data>, stage2: Option<Stage2Data>, stage3: Option<Stage3Data>) {
    stage1.None? && stage2.None? && stage3.None?
  }

  /** `Math.floor(x)` */
  function Floor(x: real): int {
    x.Floor
  }

  /** `x % d` in JavaScript: the sign follows the dividend. */
  function JsRem(x: real, d: real): real
    requires d > 0.0
  {
    var q := x / d;
    var t := if q >= 0.0 then q.Floor else -((-q).Floor);
    x - d * (t as real)
  }

  /** `Math.round(x)` */
  function Round(x: real): int {
    (x + 0.5).Floor
  }

  /** `formatDuration(minutes)`: '-' for a falsy value, otherwise hours and
      minutes, either alone when the other is 0. */
  function FormatDuration(minutes: Value): string {
    if !Truthy(minutes) then "-"
    else match JsNumber(minutes)
      case Num(m) =>
        var hrs := Floor(m / 60.0);
        var mins := Round(JsRem(m, 60.0));
        if hrs == 0 then IntToDecimal(mins) + "분"
        else if mins == 0 then IntToDecimal(hrs) + "시간"
        else IntToDecimal(hrs) + "시간 " + IntToDecimal(mins) + "분"
      case _ => "NaN시간 NaN분"
  }

  // ---------------------------------------------------------------------------
  // The panel's state

  class StageProgressPanel {
    var isCollapsed: bool
    var expandedCategories: seq<(string, bool)>
    var selectedStage1: seq<(PlaceId, Stage1Place)>
    var selectedStage2: seq<(PlaceId, Stage2Place)>

    constructor(collapsed: bool)
      ensures isCollapsed == collapsed
      ensures expandedCategories == [] && selectedStage1 == [] && selectedStage2 == []
    {
      isCollapsed := collapsed;
      expandedCategories := [];
      selectedStage1 := [];
      selectedStage2 := [];
    }

    /** The effect that follows the `collapsed` property. */
    method OnCollapsedChanged(collapsed: bool)
      modifies this
      ensures isCollapsed == collapsed
      ensures expandedCategories == old(expandedCategories)
      ensures selectedStage1 == old(selectedStage1) && selectedStage2 == old(selectedStage2)
    {
      isCollapsed := collapsed;
    }

    /** The effect run when a new stage 1 arrives: the first two categories
        are expanded and the recommended places are selected. */
    method OnStage1Changed(stage1: Option<Stage1Data>)
      modifies this
      ensures stage1.None? || |stage1.value.categories| == 0 ==>
        expandedCategories == [] && selectedStage1 == []
      ensures stage1.Some? && |stage1.value.categories| > 0 ==>
        expandedCategories == InitialExpansion(stage1.value.categories)
        && selectedStage1 == Stage1SelectionOf(stage1.value.categories, true)
      ensures isCollapsed == old(isCollapsed) && selectedStage2 == old(selectedStage2)
    {
      if stage1.None? || |stage1.value.categories| == 0 {
        expandedCategories := [];
        selectedStage1 := [];
        return;
      }
      var cats := stage1.value.categories;
      var expansion: seq<(string, bool)> := [];
      var k := 0;
      var firstTwo := if |cats| < 2 then cats else cats[..2];
      while k < |firstTwo|
        invariant 0 <= k <= |firstTwo|
        invariant expansion == InitialExpansion(firstTwo[..k])
      {
        assert firstTwo[..k + 1][..k] == firstTwo[..k];
        expansion := Put(expansion, CategoryKey(firstTwo[k]), true);
        k := k + 1;
      }
      assert firstTwo[..|firstTwo|] == firstTwo;
      assert InitialExpansion(firstTwo) == InitialExpansion(cats);
      expandedCategories := expansion;
      selectedStage1 := CollectStage1(cats, true);
    }

    /** The effect run when a new stage 2 arrives: every place is selected,
        filed under its own day or the day that holds it. */
    method OnStage2Changed(stage2: Option<Stage2Data>)
      modifies this
      ensures stage2.None? || |stage2.value.days| == 0 ==> selectedStage2 == []
      ensures stage2.Some? && |stage2.value.days| > 0 ==> selectedStage2 == Stage2SelectionOf(stage2.value.days)
      ensures isCollapsed == old(isCollapsed) && expandedCategories == old(expandedCategories)
      ensures selectedStage1 == old(selectedStage1)
    {
      if stage2.None? || |stage2.value.days| == 0 {
        selectedStage2 := [];
        return;
      }
      selectedStage2 := CollectStage2(stage2.value.days);
    }

    /** `handleCategoryToggle`: an unset key becomes expanded. */
    method HandleCategoryToggle(category: string)
      modifies this
      ensures expandedCategories == Put(old(expandedCategories), category, Find(old(expandedCategories), category) != Some(true))
      ensures isCollapsed == old(isCollapsed)
      ensures selectedStage1 == old(selectedStage1) && selectedStage2 == old(selectedStage2)
    {
      var current := Find(expandedCategories, category);
      expandedCategories := Put(expandedCategories, category, current != Some(true));
    }

    method ToggleStage1Place(place: Stage1Place)
      modifies this
      ensures selectedStage1 == Toggled(old(selectedStage1), place.id, place)
      ensures isCollapsed == old(isCollapsed) && expandedCategories == old(expandedCategories)
      ensures selectedStage2 == old(selectedStage2)
    {
      if Has(selectedStage1, place.id) {
        selectedStage1 := Delete(selectedStage1, place.id);
      } else {
        selectedStage1 := Put(selectedStage1, place.id, place);
      }
    }

    method ToggleStage2Place(place: Stage2Place, day: Value)
      modifies this
      ensures selectedStage2 == Toggled(old(selectedStage2), place.id, WithDay(place, day))
      ensures isCollapsed == old(isCollapsed) && expandedCategories == old(expandedCategories)
      ensures selectedStage1 == old(selectedStage1)
    {
      if Has(selectedStage2, place.id) {
        selectedStage2 := Delete(selectedStage2, place.id);
      } else {
        selectedStage2 := Put(selectedStage2, place.id, WithDay(place, day));
      }
    }

    method SelectAllStage1(stage1: Option<Stage1Data>)
      modifies this
      ensures selectedStage1 == if stage1.None? then old(selectedStage1)
                                else Stage1SelectionOf(stage1.value.categories, false)
      ensures isCollapsed == old(isCollapsed) && expandedCategories == old(expandedCategories)
      ensures selectedStage2 == old(selectedStage2)
    {
      if stage1.None? {
        return;
      }
      selectedStage1 := CollectStage1(stage1.value.categories, false);
    }

    method SelectRecommendedStage1(stage1: Option<Stage1Data>)
      modifies this
      ensures selectedStage1 == if stage1.None? then old(selectedStage1)
                                else Stage1SelectionOf(stage1.value.categories, true)
      ensures isCollapsed == old(isCollapsed) && expandedCategories == old(expandedCategories)
      ensures selectedStage2 == old(selectedStage2)
    {
      if stage1.None? {
        return;
      }
      selectedStage1 := CollectStage1(stage1.value.categories, true);
    }

    method ClearStage1()
      modifies this
      ensures selectedStage1 == []
      ensures isCollapsed == old(isCollapsed) && expandedCategories == old(expandedCategories)
      ensures selectedStage2 == old(selectedStage2)
    {
      selectedStage1 := [];
    }

    method SelectAllStage2(stage2: Option<Stage2Data>)
      modifies this
      ensures selectedStage2 == if stage2.None? then old(selectedStage2) else Stage2SelectionOf(stage2.value.days)
      ensures isCollapsed == old(isCollapsed) && expandedCategories == old(expandedCategories)
      ensures selectedStage1 == old(selectedStage1)
    {
      if stage2.None? {
        return;
      }
      selectedStage2 := CollectStage2(stage2.value.days);
    }

    method ClearStage2()
      modifies this
      ensures selectedStage2 == []
      ensures isCollapsed == old(isCollapsed) && expandedCategories == old(expandedCategories)
      ensures selectedStage1 == old(selectedStage1)
    {
      selectedStage2 := [];
    }

    /** What `handleStage1Submit` hands on: `Object.values` of the selection,
        in the order the object lists its keys. */
    method Stage1Submission() returns (places: seq<Stage1Place>)
      ensures |places| == |selectedStage1|
      ensures places == Values(OwnOrder(selectedStage1, PlaceIdIndex))
    {
      SplitByIndex(selectedStage1, PlaceIdIndex);
      places := Values(OwnOrder(selectedStage1, PlaceIdIndex));
      assert |multiset(OwnOrder(selectedStage1, PlaceIdIndex))| == |multiset(selectedStage1)|;
    }

    method Stage2Submission() returns (places: seq<Stage2Place>)
      ensures |places| == |selectedStage2|
      ensures places == Values(OwnOrder(selectedStage2, PlaceIdIndex))
    {
      SplitByIndex(selectedStage2, PlaceIdIndex);
      places := Values(OwnOrder(selectedStage2, PlaceIdIndex));
      assert |multiset(OwnOrder(selectedStage2, PlaceIdIndex))| == |multiset(selectedStage2)|;
    }

    method HandleCollapseToggle() returns (next: bool)
      modifies this
      ensures next == !old(isCollapsed) && isCollapsed == next
      ensures expandedCategories == old(expandedCategories)
      ensures selectedStage1 == old(selectedStage1) && selectedStage2 == old(selectedStage2)
    {
      next := !isCollapsed;
      isCollapsed := next;
    }
  }

  /** The nested `forEach` that fills a stage-1 record. */
  method CollectStage1(cats: seq<Stage1Category>, onlyRecommended: bool) returns (record: seq<(PlaceId, Stage1Place)>)
    ensures record == Stage1SelectionOf(cats, onlyRecommended)
  {
    record := [];
    var c := 0;
    while c < |cats|
      invariant 0 <= c <= |cats|
      invariant record == Stage1SelectionOf(cats[..c], onlyRecommended)
    {
      assert cats[..c + 1][..c] == cats[..c];
      record := PutCategory(record, cats[c].places, onlyRecommended);
      c := c + 1;
    }
    assert cats[..|cats|] == cats;
  }

  /** One category's places, assigned in order. */
  method PutCategory(record: seq<(PlaceId, Stage1Place)>, places: seq<Stage1Place>, onlyRecommended: bool)
    returns (out: seq<(PlaceId, Stage1Place)>)
    ensures out == PutAll(record, Stage1Entries(places, onlyRecommended))
  {
    out := record;
    var j := 0;
    while j < |places|
      invariant 0 <= j <= |places|
      invariant out == PutAll(record, Stage1Entries(places[..j], onlyRecommended))
    {
      var p := places[j];
      Stage1EntriesStep(places, j, onlyRecommended);
      if !onlyRecommended || p.isRecommended {
        PutAllSnoc(record, Stage1Entries(places[..j], onlyRecommended), p.id, p);
        out := Put(out, p.id, p);
      }
      j := j + 1;
    }
    assert places[..|places|] == places;
  }

  /** The nested `forEach` that fills a stage-2 record. */
  method CollectStage2(days: seq<Stage2Day>) returns (record: seq<(PlaceId, Stage2Place)>)
    ensures record == Stage2SelectionOf(days)
  {
    record := [];
    var d := 0;
    while d < |days|
      invariant 0 <= d <= |days|
      invariant record == Stage2SelectionOf(days[..d])
    {
      assert days[..d + 1][..d] == days[..d];
      record := PutDay(record, days[d].places, days[d].day);
      d := d + 1;
    }
    assert days[..|days|] == days;
  }

  method PutDay(record: seq<(PlaceId, Stage2Place)>, places: seq<Stage2Place>, day: Value)
    returns (out: seq<(PlaceId, Stage2Place)>)
    ensures out == PutAll(record, Stage2Entries(places, day))
  {
    out := record;
    var j := 0;
    while j < |places|
      invariant 0 <= j <= |places|
      invariant out == PutAll(record, Stage2Entries(places[..j], day))
    {
      var p := WithDay(places[j], day);
      Stage2EntriesStep(places, j, day);
      PutAllSnoc(record, Stage2Entries(places[..j], day), places[j].id, p);
      out := Put(out, places[j].id, p);
      j := j + 1;
    }
    assert places[..|places|] == places;
  }

  lemma Stage1EntriesStep(places: seq<Stage1Place>, j: nat, onlyRecommended: bool)
    requires j < |places|
    ensures Stage1Entries(places[..j + 1], onlyRecommended) ==
      if onlyRecommended && !places[j].isRecommended then Stage1Entries(places[..j], onlyRecommended)
      else Stage1Entries(places[..j], onlyRecommended) + [(places[j].id, places[j])]
  {
    assert places[..j + 1][..j] == places[..j];
  }

  lemma Stage2EntriesStep(places: seq<Stage2Place>, j: nat, day: Value)
    requires j < |places|
    ensures Stage2Entries(places[..j + 1], day) == Stage2Entries(places[..j], day) + [(places[j].id, WithDay(places[j], day))]
  {
    assert places[..j + 1][..j] == places[..j];
  }
}
