/** The chat screen's stage state: the incremental merge of one message's
    update (`processStagePayload`) and the replay of a whole conversation
    (`rebuildStageStateFromMessages`). Both overwrite a slot only when the
    update defines it. */
module StageReducer {
  import opened JsValue
  import opened StageTypes
  import opened StageExtract
  import opened StageClassifier

  /** The three stage slots and the travel-plan link; `None` is `null`. */
  datatype StageSlots = StageSlots(
    stage1: Option<Stage1Data>,
    stage2: Option<Stage2Data>,
    stage3: Option<Stage3Data>,
    link: Option<string>)

  const NoStages := StageSlots(None, None, None, None)

  datatype Slot = Stage1Slot | Stage2Slot | Stage3Slot | LinkSlot

  /** The update defines slot k. */
  predicate Addresses(u: Option<StageUpdate>, k: Slot) {
    u.Some? &&
    match k
    case Stage1Slot => u.value.stage1.Some?
    case Stage2Slot => u.value.stage2.Some?
    case Stage3Slot => u.value.stage3.Some?
    case LinkSlot => u.value.travelPlanLink.Some?
  }

  /** Slot k of s holds what the update carries for it. */
  predicate SlotFrom(s: StageSlots, u: StageUpdate, k: Slot) {
    match k
    case Stage1Slot => s.stage1 == u.stage1
    case Stage2Slot => s.stage2 == u.stage2
    case Stage3Slot => s.stage3 == u.stage3
    case LinkSlot => s.link == u.travelPlanLink
  }

  predicate SameSlot(s: StageSlots, t: StageSlots, k: Slot) {
    match k
    case Stage1Slot => s.stage1 == t.stage1
    case Stage2Slot => s.stage2 == t.stage2
    case Stage3Slot => s.stage3 == t.stage3
    case LinkSlot => s.link == t.link
  }

  /** One message's contribution to the replay: each defined slot overwrites. */
  function ApplySlots(s: StageSlots, u: Option<StageUpdate>): (r: StageSlots)
    ensures forall k :: Addresses(u, k) ==> SlotFrom(r, u.value, k)
    ensures forall k :: !Addresses(u, k) ==> SameSlot(r, s, k)
  {
    if u.None? then s
    else
      var v := u.value;
      StageSlots(
        if v.stage1.Some? then v.stage1 else s.stage1,
        if v.stage2.Some? then v.stage2 else s.stage2,
        if v.stage3.Some? then v.stage3 else s.stage3,
        if v.travelPlanLink.Some? then v.travelPlanLink else s.link)
  }

  /** `threadIdentifier ?? msg.threadId` */
  function ThreadFor(threadIdentifier: Option<string>, m: Message): Option<string> {
    if threadIdentifier.Some? then threadIdentifier else m.threadId
  }

  function UpdateAt(msgs: seq<Message>, threadIdentifier: Option<string>, i: nat): Option<StageUpdate>
    requires i < |msgs|
  {
    EvaluateStageMessage(msgs[i], ThreadFor(threadIdentifier, msgs[i]))
  }

  /** The slots after replaying the messages in order from all-null. */
  function Replay(msgs: seq<Message>, threadIdentifier: Option<string>): StageSlots {
    if |msgs| == 0 then NoStages
    else ApplySlots(Replay(msgs[..|msgs| - 1], threadIdentifier), UpdateAt(msgs, threadIdentifier, |msgs| - 1))
  }

  // ---------------------------------------------------------------------------
  // The incremental merge over the whole chat-screen state

  /** The parts of the chat screen's state a stage update can change. */
  datatype PanelState = PanelState(
    slots: StageSlots,
    quickFormInitial: Option<Prefill>,
    showTravelForm: bool,
    stagePanelCollapsed: bool)

  /** `processStagePayload` without its trip-creation side effect: stage
      slots and the link are overwritten only when defined; a stage update
      expands the panel; a prefill replaces the previous one; the travel form
      is only ever opened. */
  function Merge(p: PanelState, u: Option<StageUpdate>): PanelState {
    if u.None? then p
    else
      var v := u.value;
      PanelState(
        ApplySlots(p.slots, u),
        if v.quickFormInitial.Some? then v.quickFormInitial else p.quickFormInitial,
        p.showTravelForm || v.showTravelForm,
        if v.stage1.Some? || v.stage2.Some? || v.stage3.Some? then false else p.stagePanelCollapsed)
  }

  /** The trip is created exactly when the update carries stage 3. */
  predicate CreatesTrip(u: Option<StageUpdate>) {
    u.Some? && u.value.stage3.Some?
  }

  /** Merging the messages' updates one at a time. */
  function MergeAll(p: PanelState, msgs: seq<Message>, threadIdentifier: Option<string>): PanelState {
    if |msgs| == 0 then p
    else Merge(MergeAll(p, msgs[..|msgs| - 1], threadIdentifier), UpdateAt(msgs, threadIdentifier, |msgs| - 1))
  }

  /** The chat screen's stage state, updated in place. */
  class ChatStageState {
    var stage1: Option<Stage1Data>
    var stage2: Option<Stage2Data>
    var stage3: Option<Stage3Data>
    var travelPlanLink: Option<string>
    var quickFormInitialData: Option<Prefill>
    var showTravelForm: bool
    var isStagePanelCollapsed: bool

    function Snapshot(): PanelState
      reads this
    {
      PanelState(StageSlots(stage1, stage2, stage3, travelPlanLink), quickFormInitialData, showTravelForm,
        isStagePanelCollapsed)
    }

    constructor()
      ensures Snapshot() == PanelState(NoStages, None, false, false)
    {
      stage1 := None;
      stage2 := None;
      stage3 := None;
      travelPlanLink := None;
      quickFormInitialData := None;
      showTravelForm := false;
      isStagePanelCollapsed := false;
    }

    /** `processStagePayload`; the result says whether it goes on to create
        a trip. */
    method ProcessStagePayload(m: Message, fallbackThreadId: Option<string>) returns (createsTrip: bool)
      modifies this
      ensures Snapshot() == Merge(old(Snapshot()), EvaluateStageMessage(m, fallbackThreadId))
      ensures createsTrip == CreatesTrip(EvaluateStageMessage(m, fallbackThreadId))
    {
      var update := EvaluateStageMessage(m, fallbackThreadId);
      createsTrip := ApplyUpdate(update);
    }

    /** The state changes `processStagePayload` makes for one update. */
    method ApplyUpdate(update: Option<StageUpdate>) returns (createsTrip: bool)
      modifies this
      ensures Snapshot() == Merge(old(Snapshot()), update)
      ensures createsTrip == CreatesTrip(update)
    {
      createsTrip := false;
      if update.None? {
        return;
      }
      var u := update.value;
      if u.stage1.Some? || u.stage2.Some? || u.stage3.Some? {
        stage1 := if u.stage1.Some? then u.stage1 else stage1;
        stage2 := if u.stage2.Some? then u.stage2 else stage2;
        stage3 := if u.stage3.Some? then u.stage3 else stage3;
        isStagePanelCollapsed := false;
        createsTrip := u.stage3.Some?;
      }
      if u.travelPlanLink.Some? {
        travelPlanLink := u.travelPlanLink;
      }
      if u.quickFormInitial.Some? {
        quickFormInitialData := u.quickFormInitial;
      }
      if u.showTravelForm {
        showTravelForm := true;
      }
    }

    /** `rebuildStageStateFromMessages`: replaces the slots and the link by
        the replay of the conversation and leaves the rest alone. */
    method RebuildStageStateFromMessages(msgs: seq<Message>, threadIdentifier: Option<string>)
      modifies this
      ensures Snapshot().slots == Replay(msgs, threadIdentifier)
      ensures quickFormInitialData == old(quickFormInitialData) && showTravelForm == old(showTravelForm)
      ensures isStagePanelCollapsed == old(isStagePanelCollapsed)
    {
      var slots := NoStages;
      var i := 0;
      while i < |msgs|
        invariant 0 <= i <= |msgs|
        invariant slots == Replay(msgs[..i], threadIdentifier)
        invariant unchanged(this)
      {
        var update := EvaluateStageMessage(msgs[i], ThreadFor(threadIdentifier, msgs[i]));
        assert msgs[..i + 1][..i] == msgs[..i];
        slots := OverwriteDefined(slots, update);
        i := i + 1;
      }
      assert msgs[..|msgs|] == msgs;
      stage1, stage2, stage3, travelPlanLink := slots.stage1, slots.stage2, slots.stage3, slots.link;
    }
  }

  /** The rebuild's per-message step: each slot the update defines is
      overwritten. */
  method OverwriteDefined(slots: StageSlots, update: Option<StageUpdate>) returns (r: StageSlots)
    ensures r == ApplySlots(slots, update)
  {
    r := slots;
    if update.Some? {
      if update.value.stage1.Some? { r := r.(stage1 := update.value.stage1); }
      if update.value.stage2.Some? { r := r.(stage2 := update.value.stage2); }
      if update.value.stage3.Some? { r := r.(stage3 := update.value.stage3); }
      if update.value.travelPlanLink.Some? { r := r.(link := update.value.travelPlanLink); }
    }
  }

  // ---------------------------------------------------------------------------
  // Properties

  /** Each slot of the replay holds the value of the last message that
      addressed it. */
  lemma {:induction false} LastWriterWins(msgs: seq<Message>, threadIdentifier: Option<string>, k: Slot, i: nat)
    requires i < |msgs| && Addresses(UpdateAt(msgs, threadIdentifier, i), k)
    requires forall j :: i < j < |msgs| ==> !Addresses(UpdateAt(msgs, threadIdentifier, j), k)
    ensures SlotFrom(Replay(msgs, threadIdentifier), UpdateAt(msgs, threadIdentifier, i).value, k)
    decreases |msgs|
  {
    if i < |msgs| - 1 {
      var prefix := msgs[..|msgs| - 1];
      forall j | i <= j < |prefix|
        ensures UpdateAt(prefix, threadIdentifier, j) == UpdateAt(msgs, threadIdentifier, j)
      {
        assert prefix[j] == msgs[j];
      }
      LastWriterWins(prefix, threadIdentifier, k, i);
    }
  }

  /** A slot no message addressed stays null. */
  lemma {:induction false} UnaddressedStaysNull(msgs: seq<Message>, threadIdentifier: Option<string>, k: Slot)
    requires forall j :: 0 <= j < |msgs| ==> !Addresses(UpdateAt(msgs, threadIdentifier, j), k)
    ensures SameSlot(Replay(msgs, threadIdentifier), NoStages, k)
    decreases |msgs|
  {
    if |msgs| > 0 {
      var prefix := msgs[..|msgs| - 1];
      forall j | 0 <= j < |prefix|
        ensures UpdateAt(prefix, threadIdentifier, j) == UpdateAt(msgs, threadIdentifier, j)
      {
        assert prefix[j] == msgs[j];
      }
      UnaddressedStaysNull(prefix, threadIdentifier, k);
    }
  }

  /** Merging the messages one at a time from a state whose slots are all
      null gives the slots the rebuild computes, whatever the rest of the
      state holds. */
  lemma {:induction false} MergeFoldIsReplay(p: PanelState, msgs: seq<Message>, threadIdentifier: Option<string>)
    requires p.slots == NoStages
    ensures MergeAll(p, msgs, threadIdentifier).slots == Replay(msgs, threadIdentifier)
    decreases |msgs|
  {
    if |msgs| > 0 {
      MergeFoldIsReplay(p, msgs[..|msgs| - 1], threadIdentifier);
    }
  }

  /** Merging never closes the travel form, and it collapses the panel only
      if it was collapsed and no stage arrived. */
  lemma MergeMonotone(p: PanelState, u: Option<StageUpdate>)
    ensures p.showTravelForm ==> Merge(p, u).showTravelForm
    ensures Merge(p, u).stagePanelCollapsed ==> p.stagePanelCollapsed
    ensures u.Some? && u.value.showTravelForm ==> Merge(p, u).showTravelForm
    ensures (Addresses(u, Stage1Slot) || Addresses(u, Stage2Slot) || Addresses(u, Stage3Slot))
      ==> !Merge(p, u).stagePanelCollapsed
  {
  }
}
