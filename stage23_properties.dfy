/** What the stage-2, stage-3 and quick-form extractors promise. */
module Stage23Properties {
  import opened JsValue
  import opened StageTypes
  import opened StagePlaces
  import opened StageExtract

  /** Σ of the counts, when every count is a number. */
  function CountTotal(days: seq<Stage2Day>): real
    requires forall i :: 0 <= i < |days| ==> days[i].placeCount.Num?
  {
    if |days| == 0 then 0.0 else CountTotal(days[..|days| - 1]) + days[|days| - 1].placeCount.n
  }

  /** With numeric counts, `+` adds: the selected count is their sum. */
  lemma {:induction false} SelectedSumNumeric(days: seq<Stage2Day>)
    requires forall i :: 0 <= i < |days| ==> days[i].placeCount.Num?
    ensures SelectedSum(days) == Num(CountTotal(days))
    decreases |days|
  {
    if |days| > 0 {
      SelectedSumNumeric(days[..|days| - 1]);
    }
  }

  lemma {:induction false} CountTotalIsPlaceTotal(days: seq<Stage2Day>)
    requires forall i :: 0 <= i < |days| ==> days[i].placeCount == Num(|days[i].places| as real)
    ensures CountTotal(days) == DayPlaceTotal(days) as real
    decreases |days|
  {
    if |days| > 0 {
      CountTotalIsPlaceTotal(days[..|days| - 1]);
    }
  }

  /** Stage 2 exists exactly when `dailyDistribution || dailyPlans` is an
      array; it has one day per element, `totalDays` defaults to that number,
      and when no day states its own count and the payload no total, the
      selected count is the number of places over all days. */
  lemma Stage2Counts(payload: Value)
    ensures var daily := Or(Get(payload, "dailyDistribution"), Get(payload, "dailyPlans"));
      && (ExtractStage2(payload).Some? <==> Truthy(payload) && daily.Arr?)
      && (ExtractStage2(payload).Some? ==>
            var d := ExtractStage2(payload).value;
            && |d.days| == |daily.items|
            && (Nullish(Get(payload, "totalDays")) ==> d.totalDays == Num(|daily.items| as real))
            && ((Nullish(Get(payload, "selectedCount"))
                 && forall i :: 0 <= i < |daily.items| ==> Nullish(Get(daily.items[i], "placeCount")))
                ==> d.selectedCount == Num(DayPlaceTotal(d.days) as real)))
  {
    var daily := Or(Get(payload, "dailyDistribution"), Get(payload, "dailyPlans"));
    if ExtractStage2(payload).Some? {
      var d := ExtractStage2(payload).value;
      if forall i :: 0 <= i < |daily.items| ==> Nullish(Get(daily.items[i], "placeCount")) {
        assert forall i :: 0 <= i < |d.days| ==> d.days[i].placeCount == Num(|d.days[i].places| as real);
        SelectedSumNumeric(d.days);
        CountTotalIsPlaceTotal(d.days);
      }
    }
  }

  /** Days are numbered from 1 by position unless they carry `day` or
      `dayNumber`; a place is filed under its own `day ?? dayNumber`, and
      otherwise under the day that holds it. */
  lemma Stage2DayNumbering(d: Value, index: nat)
    ensures var day := DayOf(d, index);
      && (Nullish(Get(d, "day")) && Nullish(Get(d, "dayNumber")) ==> day.day == Num((index + 1) as real))
      && (Get(d, "places").Arr? ==> |day.places| == |Get(d, "places").items|)
      && (Get(d, "places").Arr? ==>
            forall k :: 0 <= k < |day.places| ==>
              var raw := Get(d, "places").items[k];
              (Nullish(Get(raw, "day")) && Nullish(Get(raw, "dayNumber")) ==> day.places[k].day == day.day)
              && (!Nullish(Get(raw, "day")) ==> day.places[k].day == Get(raw, "day")))
      && (!Get(d, "places").Arr? ==> day.places == [])
  {
    var day := DayOf(d, index);
    var pv := Get(d, "places");
    if pv.Arr? {
      forall k | 0 <= k < |day.places|
        ensures var raw := pv.items[k];
          (Nullish(Get(raw, "day")) && Nullish(Get(raw, "dayNumber")) ==> day.places[k].day == day.day)
          && (!Nullish(Get(raw, "day")) ==> day.places[k].day == Get(raw, "day"))
      {
        assert day.places[k] == MapStage2Place(pv.items[k], day.day, Slot(index, k));
      }
    }
  }

  /** Counts that arrive as strings are concatenated, not added: counts "2"
      and "3" give the selected count "023". */
  lemma SelectedSumOfStringCounts()
    ensures SelectedSum([Stage2Day(Num(1.0), Str("2"), []), Stage2Day(Num(2.0), Str("3"), [])]) == Str("023")
  {
    var first := Stage2Day(Num(1.0), Str("2"), []);
    var days := [first, Stage2Day(Num(2.0), Str("3"), [])];
    assert NatToDecimal(0) == "0";
    assert UnsignedNumberToString(0.0) == "0";
    assert JsString(Num(0.0)) == "0";
    assert JsPlus(Num(0.0), Str("2")) == Str("02");
    assert days[..1] == [first];
    assert [first][..0] == [];
    assert SelectedSum([first]) == Str("02");
  }

  /** Stage 3 exists for every truthy payload, with or without an itinerary;
      `totalDays` falls back to the itinerary's length, and a distance or
      time that is a number stays as it is while a numeric string is read. */
  lemma Stage3Fields(payload: Value)
    ensures ExtractStage3(payload).Some? <==> Truthy(payload)
    ensures Truthy(payload) ==>
      var d := ExtractStage3(payload).value;
      var it := Get(payload, "itinerary");
      && (it.Arr? <==> d.itinerary.Some?)
      && (it.Arr? ==> d.itinerary.value == it.items)
      && (Nullish(Get(payload, "totalDays")) && it.Arr? ==> d.totalDays == Num(|it.items| as real))
      && (Get(payload, "totalDistance").Num? || Get(payload, "totalDistance").NaN? ==>
            d.totalDistance == Get(payload, "totalDistance"))
      && (Get(payload, "totalDistance").Str? && ParseFloat(Get(payload, "totalDistance").s).Some? ==>
            d.totalDistance == Num(ParseFloat(Get(payload, "totalDistance").s).value))
  {
  }

  /** A distance sent as the string "42" is the number 42. */
  lemma Stage3NumericString(payload: Value, km: int)
    requires Truthy(payload) && Get(payload, "totalDistance") == Str(IntToDecimal(km))
    ensures ExtractStage3(payload).value.totalDistance == Num(km as real)
  {
    ParseFloatOfDecimal(km);
  }

  /** The prefill is absent exactly when no `prefill*` field qualifies; a
      travel style that is not an array is wrapped into one, and the numeric
      fields go through `Number(...)`. */
  lemma QuickFormPrefill(payload: Value)
    ensures var r := ExtractQuickFormInitial(payload);
      var style := Get(payload, "prefillTravelStyle");
      && (r.None? <==> !Truthy(payload) || PrefillIsEmpty(PrefillOf(payload)))
      && (r.Some? && Truthy(style) ==> r.value.travelStyle == Some(if style.Arr? then style.items else [style]))
      && (r.Some? && !Truthy(style) ==> r.value.travelStyle.None?)
      && (r.Some? && Truthy(Get(payload, "prefillTravelers")) ==>
            r.value.travelers == Some(JsNumber(Get(payload, "prefillTravelers"))))
      && (Truthy(payload) && Get(payload, "prefillDestinations").Arr? ==> r.Some?)
  {
  }
}
