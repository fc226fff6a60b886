/** `evaluateStageMessage`: decides from a chat message's type (or its
    payload's type, or its payload's `stage` number) which extractor applies,
    and collects the extracted records into a stage update. */
module StageClassifier {
  import opened JsValue
  import opened StageTypes
  import opened StageExtract

  /** The fields of a chat message the stage pipeline reads. */
  datatype Message = Message(role: string, msgType: Option<string>, data: Value, threadId: Option<string>)

  /** A stage update: a slot is present only when the message defined it. */
  datatype StageUpdate = StageUpdate(
    stage1: Option<Stage1Data>,
    stage2: Option<Stage2Data>,
    stage3: Option<Stage3Data>,
    travelPlanLink: Option<string>,
    quickFormInitial: Option<Prefill>,
    showTravelForm: bool)

  const EmptyUpdate := StageUpdate(None, None, None, None, None, false)

  const TravelPlanPath := "/travel-plan?threadId="

  /** The link to the travel-plan page, present only for a non-empty thread id. */
  function PlanLink(threadId: Option<string>): (r: Option<string>)
    ensures r.Some? <==> threadId.Some? && threadId.value != ""
    ensures r.Some? ==> r.value == TravelPlanPath + EncodeUriComponent(threadId.value)
  {
    if threadId.Some? && threadId.value != "" then Some(TravelPlanPath + EncodeUriComponent(threadId.value)) else None
  }

  /** `message.type || (payload is an object ? payload.type : undefined)` */
  function DerivedType(m: Message): Value {
    if m.msgType.Some? && m.msgType.value != "" then Str(m.msgType.value)
    else if Truthy(m.data) && IsObjectLike(m.data) then Get(m.data, "type")
    else Undefined
  }

  predicate IsStage1Type(t: Value) {
    t == Str("STAGE1_PLACES_LOADED") || t == Str("PLACE_DISPLAY")
  }

  predicate IsStage2Type(t: Value) {
    t == Str("PLACES_DISTRIBUTED") || t == Str("STAGE2_DAILY_DISTRIBUTION")
  }

  predicate IsStage3Type(t: Value) {
    t == Str("FINAL_ITINERARY_CREATED") || t == Str("TRAVEL_PLAN_GENERATED")
  }

  predicate IsQuickFormType(t: Value) {
    t == Str("QUICK_FORM")
  }

  /** The `default` branch: the payload's `stage` number together with the
      field that stage needs. */
  function ByStageNumber(payload: Value, fallbackThreadId: Option<string>): StageUpdate {
    if !(Truthy(payload) && IsObjectLike(payload)) then EmptyUpdate
    else
      var stage := Get(payload, "stage");
      var is3 := stage == Num(3.0) && Truthy(Get(payload, "itinerary"));
      EmptyUpdate.(
        stage1 := if stage == Num(1.0) && Truthy(Get(payload, "places")) then ExtractStage1(payload) else None,
        stage2 := if stage == Num(2.0) && Truthy(Get(payload, "dailyDistribution")) then ExtractStage2(payload) else None,
        stage3 := if is3 then ExtractStage3(payload) else None,
        travelPlanLink := if is3 then PlanLink(fallbackThreadId) else None)
  }

  /** `evaluateStageMessage`: null for a message that is not the assistant's. */
  function EvaluateStageMessage(m: Message, fallbackThreadId: Option<string>): Option<StageUpdate> {
    if m.role != "assistant" then None
    else
      var t := DerivedType(m);
      var payload := m.data;
      Some(
        if IsStage1Type(t) then EmptyUpdate.(stage1 := ExtractStage1(payload))
        else if IsStage2Type(t) then EmptyUpdate.(stage2 := ExtractStage2(payload))
        else if IsStage3Type(t) then
          EmptyUpdate.(stage3 := ExtractStage3(payload), travelPlanLink := PlanLink(fallbackThreadId))
        else if IsQuickFormType(t) then
          EmptyUpdate.(showTravelForm := true, quickFormInitial := ExtractQuickFormInitial(payload))
        else ByStageNumber(payload, fallbackThreadId))
  }

  // ---------------------------------------------------------------------------
  // Properties

  /** Only the assistant's messages are classified, and every one of them
      yields an update (possibly empty). */
  lemma AssistantOnly(m: Message, fallbackThreadId: Option<string>)
    ensures EvaluateStageMessage(m, fallbackThreadId).Some? <==> m.role == "assistant"
  {
  }

  /** The message's own non-empty type wins over the payload's type. */
  lemma MessageTypeWins(m: Message)
    requires m.msgType.Some? && m.msgType.value != ""
    ensures DerivedType(m) == Str(m.msgType.value)
    ensures DerivedType(m.(msgType := None)) ==
      (if Truthy(m.data) && IsObjectLike(m.data) then Get(m.data, "type") else Undefined)
  {
  }

  /** A stage-1 or stage-2 type touches only its own slot. */
  lemma StageTypesTouchOwnSlot(m: Message, f: Option<string>)
    requires m.role == "assistant"
    ensures var u := EvaluateStageMessage(m, f).value;
      && (IsStage1Type(DerivedType(m)) ==>
            u.stage1 == ExtractStage1(m.data) && u.stage2.None? && u.stage3.None? && u.travelPlanLink.None?
            && !u.showTravelForm)
      && (IsStage2Type(DerivedType(m)) ==>
            u.stage2 == ExtractStage2(m.data) && u.stage1.None? && u.stage3.None? && u.travelPlanLink.None?
            && !u.showTravelForm)
  {
  }

  /** A stage-3 type sets stage 3 for any truthy payload, even one without an
      itinerary, and a link exactly when a thread id is known; the link is a
      well-formed query-string value. */
  lemma Stage3TypeSetsStage3AndLink(m: Message, f: Option<string>)
    requires m.role == "assistant" && IsStage3Type(DerivedType(m))
    ensures var u := EvaluateStageMessage(m, f).value;
      && (u.stage3.Some? <==> Truthy(m.data))
      && (u.travelPlanLink.Some? <==> f.Some? && f.value != "")
      && (u.travelPlanLink.Some? ==>
            var link := u.travelPlanLink.value;
            |link| >= |TravelPlanPath| && link[..|TravelPlanPath|] == TravelPlanPath
            && IsUriComponent(link[|TravelPlanPath|..]))
      && u.stage1.None? && u.stage2.None?
  {
    var u := EvaluateStageMessage(m, f).value;
    if u.travelPlanLink.Some? {
      var link := u.travelPlanLink.value;
      EncodedIsUriComponent(f.value);
      assert link[|TravelPlanPath|..] == EncodeUriComponent(f.value);
    }
  }

  /** A quick-form message opens the travel form, carries the prefill only
      when one exists, and touches no stage. */
  lemma QuickFormOpensForm(m: Message, f: Option<string>)
    requires m.role == "assistant" && IsQuickFormType(DerivedType(m))
    ensures var u := EvaluateStageMessage(m, f).value;
      u.showTravelForm && u.quickFormInitial == ExtractQuickFormInitial(m.data)
      && u.stage1.None? && u.stage2.None? && u.stage3.None? && u.travelPlanLink.None?
  {
  }

  /** Any other type falls back to the payload's `stage`: 1 with `places`,
      2 with `dailyDistribution`, 3 with `itinerary`; a message of such a
      type with no stage number changes nothing. */
  lemma OtherTypesUseStageNumber(m: Message, f: Option<string>)
    requires m.role == "assistant"
    requires var t := DerivedType(m);
      !IsStage1Type(t) && !IsStage2Type(t) && !IsStage3Type(t) && !IsQuickFormType(t)
    ensures var u := EvaluateStageMessage(m, f).value;
      var stage := Get(m.data, "stage");
      && (u.stage1.Some? ==> stage == Num(1.0) && Truthy(Get(m.data, "places")))
      && (u.stage2.Some? ==> stage == Num(2.0) && Truthy(Get(m.data, "dailyDistribution")))
      && (u.stage3.Some? <==> IsObjectLike(m.data) && stage == Num(3.0) && Truthy(Get(m.data, "itinerary")))
      && (u.travelPlanLink.Some? ==> u.stage3.Some?)
      && !u.showTravelForm && u.quickFormInitial.None?
      && (!stage.Num? ==> u == EmptyUpdate)
  {
  }
}
