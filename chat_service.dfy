/** The chat service's pure parts: turning a server follow-up question into
    the client's shape, mapping server messages to client messages, and the
    per-thread phase machine the unified endpoint falls back to when the
    server cannot be reached. */
module ChatService {
  import opened JsValue

  const AwaitUserInput := "AWAIT_USER_INPUT"
  const DefaultStep := "INFORMATION_COLLECTION"

  datatype FollowUpQuestion = FollowUpQuestion(
    sessionId: Value,
    currentStep: Value,
    primaryQuestion: Value,
    helpText: Value,
    exampleAnswers: Value,
    quickOptions: Value,
    inputType: Value,
    uiType: Value,
    isRequired: bool,
    canSkip: bool,
    progressPercentage: Value,
    remainingQuestions: Value,
    collectedInfo: Value)

  /** `base.primaryQuestion || base.question || source?.content` */
  function QuestionText(base: Value, source: Value): Value {
    Or(Or(Get(base, "primaryQuestion"), Get(base, "question")), Get(source, "content"))
  }

  /** `mapFollowUpQuestion(raw, threadId, source)` */
  function MapFollowUpQuestion(raw: Value, threadId: string, source: Value): Option<FollowUpQuestion> {
    if !Truthy(raw) && Get(source, "nextAction") != Str(AwaitUserInput) then None
    else
      var base := Or(raw, Obj([]));
      var text := QuestionText(base, source);
      if !Truthy(text) then None
      else Some(FollowUpQuestion(
        Or(Or(Get(base, "sessionId"), Get(base, "threadId")), Str(threadId)),
        Or(Or(Get(base, "currentStep"), Get(source, "phase")), Str(DefaultStep)),
        text,
        Get(base, "helpText"),
        Or(Get(base, "exampleAnswers"), Arr([])),
        Or(Get(base, "quickOptions"), Arr([])),
        Or(Get(base, "inputType"), Str("text")),
        Get(base, "uiType"),
        Get(base, "isRequired") != Bool(false),
        Truthy(Get(base, "canSkip")) || Truthy(Get(base, "canGeneratePlan")),
        Coalesce(Get(base, "progressPercentage"), Num(0.0)),
        Coalesce(Get(base, "remainingQuestions"), Num(0.0)),
        Get(base, "collectedInfo")))
  }

  /** There is no question exactly when the server sent none and is not
      waiting for input, or when no question text can be found. */
  lemma FollowUpAbsent(raw: Value, threadId: string, source: Value)
    ensures MapFollowUpQuestion(raw, threadId, source).None? <==>
      (!Truthy(raw) && Get(source, "nextAction") != Str(AwaitUserInput))
      || !Truthy(QuestionText(Or(raw, Obj([])), source))
  {
  }

  /** A question present is never empty, and always has a step; it is required
      unless the server said `isRequired: false`, and skippable exactly when
      the server allows skipping or plan generation. */
  lemma FollowUpPresent(raw: Value, threadId: string, source: Value)
    requires MapFollowUpQuestion(raw, threadId, source).Some?
    ensures var q := MapFollowUpQuestion(raw, threadId, source).value;
      Truthy(q.primaryQuestion) && Truthy(q.currentStep) && Truthy(q.inputType)
      && (q.isRequired <==> Get(Or(raw, Obj([])), "isRequired") != Bool(false))
      && (q.canSkip <==> Truthy(Get(Or(raw, Obj([])), "canSkip")) || Truthy(Get(Or(raw, Obj([])), "canGeneratePlan")))
      && (threadId != [] ==> Truthy(q.sessionId))
  {
  }

  /** When the server sends no question object but waits for input, the
      message's own text becomes the question, filed under the caller's
      thread, with every default in place. */
  lemma FollowUpFromBareMessage(threadId: string, source: Value)
    requires Get(source, "nextAction") == Str(AwaitUserInput) && Truthy(Get(source, "content"))
    ensures MapFollowUpQuestion(Undefined, threadId, source) == Some(FollowUpQuestion(
      Str(threadId), Or(Get(source, "phase"), Str(DefaultStep)), Get(source, "content"),
      Undefined, Arr([]), Arr([]), Str("text"), Undefined, true, false, Num(0.0), Num(0.0), Undefined))
  {
    assert Or(Undefined, Obj([])) == Obj([]);
  }

  // ---------------------------------------------------------------------------
  // Messages

  /** What the client keeps of a question: the mapped question of a sent
      message, the server's raw field of a listed message, or none at all for
      the fallback replies. */
  datatype FollowUpField = Mapped(question: Option<FollowUpQuestion>) | Raw(raw: Value) | NotSet

  datatype ChatMessage = ChatMessage(
    id: string,
    threadId: string,
    role: Value,
    content: Value,
    timestamp: Value,
    model: Value,
    msgType: Value,
    nextAction: Value,
    data: Value,
    phase: Value,
    followUp: FollowUpField)

  /** `msg_${Date.now()}` */
  function GeneratedId(nowMillis: nat): string {
    "msg_" + NatToDecimal(nowMillis)
  }

  /** The reply of `sendMessage` built from the last element of the server's
      array. */
  function MapSentMessage(aiRaw: Value, threadId: string, nowMillis: nat, nowIso: string): ChatMessage {
    ChatMessage(
      JsString(Coalesce(Get(aiRaw, "id"), Str(GeneratedId(nowMillis)))),
      threadId,
      Or(Get(aiRaw, "role"), Str("assistant")),
      Get(aiRaw, "content"),
      Or(Or(Get(aiRaw, "timestamp"), Get(aiRaw, "createdAt")), Str(nowIso)),
      Get(aiRaw, "model"),
      Get(aiRaw, "type"),
      Get(aiRaw, "nextAction"),
      Get(aiRaw, "data"),
      Get(aiRaw, "phase"),
      Mapped(MapFollowUpQuestion(Get(aiRaw, "followUpQuestion"), threadId, aiRaw)))
  }

  const GeminiDefaultModel := "gemini-2.0-flash"
  const UnavailableReply := "죄송합니다. 현재 AI 서비스에 연결할 수 없습니다. 잠시 후 다시 시도해주세요."

  /** `messages[messages.length - 1]` of the thread endpoint's body, when
      `sendMessage` gets that far without throwing: a falsy body or an empty
      one throws, so does reading `followUpQuestion` off a null or undefined
      element, and a body without a length reads `undefined`. A string body
      gives its last character. */
  function LastMessage(body: Value): (r: Option<Value>)
    ensures body.Arr? ==> (r.Some? <==> |body.items| > 0 && !Nullish(body.items[|body.items| - 1]))
    ensures body.Arr? && r.Some? ==> r.value == body.items[|body.items| - 1]
    ensures !body.Arr? && !body.Str? ==> r.None?
    ensures r.Some? ==> !Nullish(r.value)
  {
    match body
    case Arr(items) =>
      if |items| == 0 || Nullish(items[|items| - 1]) then None else Some(items[|items| - 1])
    case Str(s) => if |s| == 0 then None else Some(Str([s[|s| - 1]]))
    case _ => None
  }

  /** `sendMessage`: the thread endpoint's last message; when that call fails
      or throws while reading its body, the Gemini endpoint's reply; when that
      fails too, or its body is null, a fixed apology. `primary` and `gemini`
      are the endpoints' response bodies, `None` for a failed request. */
  function SendMessageReply(primary: Option<Value>, gemini: Option<Value>, threadId: string,
                            nowMillis: nat, nowIso: string): ChatMessage {
    var aiRaw := if primary.Some? then LastMessage(primary.value) else None;
    if aiRaw.Some? then
      MapSentMessage(aiRaw.value, threadId, nowMillis, nowIso)
    else if gemini.Some? && !Nullish(gemini.value) then
      ChatMessage(GeneratedId(nowMillis), threadId, Str("assistant"), Get(gemini.value, "response"), Str(nowIso),
                  Or(Get(gemini.value, "model"), Str(GeminiDefaultModel)), Undefined, Undefined, Undefined, Undefined, NotSet)
    else
      ChatMessage(GeneratedId(nowMillis), threadId, Str("assistant"), Str(UnavailableReply), Str(nowIso),
                  Str("mock"), Undefined, Undefined, Undefined, Undefined, NotSet)
  }

  /** The reply always belongs to the caller's thread. A non-empty array
      whose last element is present gives that element's content, with role
      'assistant' unless it says otherwise; a null or undefined last element,
      an empty array or no array at all sends the caller to Gemini, and
      without a Gemini reply to the apology. Only a mapped reply carries a
      follow-up question. */
  lemma SendMessageReplySources(primary: Option<Value>, gemini: Option<Value>, threadId: string,
                                nowMillis: nat, nowIso: string)
    ensures SendMessageReply(primary, gemini, threadId, nowMillis, nowIso).threadId == threadId
    ensures primary.Some? && primary.value.Arr? && |primary.value.items| > 0
            && !Nullish(primary.value.items[|primary.value.items| - 1]) ==>
      var last := primary.value.items[|primary.value.items| - 1];
      var r := SendMessageReply(primary, gemini, threadId, nowMillis, nowIso);
      r.content == Get(last, "content")
      && (Truthy(Get(last, "role")) ==> r.role == Get(last, "role"))
      && (!Truthy(Get(last, "role")) ==> r.role == Str("assistant"))
    ensures SendMessageReply(primary, gemini, threadId, nowMillis, nowIso).followUp.NotSet? <==>
      primary.None? || LastMessage(primary.value).None?
    ensures (primary.None? || LastMessage(primary.value).None?) ==>
      var r := SendMessageReply(primary, gemini, threadId, nowMillis, nowIso);
      r.role == Str("assistant")
      && (gemini.Some? && !Nullish(gemini.value) ==> r.content == Get(gemini.value, "response"))
      && (gemini.None? || Nullish(gemini.value) ==> r.content == Str(UnavailableReply) && r.model == Str("mock"))
  {
  }

  /** The input that shows the throw: a body ending in `null` is answered by
      Gemini, not mapped. */
  lemma NullLastElementFallsBack(threadId: string, nowMillis: nat, nowIso: string)
    ensures var r := SendMessageReply(Some(Arr([Obj([("content", Str("hi"))]), Null])),
                                      Some(Obj([("response", Str("g"))])), threadId, nowMillis, nowIso);
      r.content == Str("g") && r.followUp == NotSet
  {
    assert "response"[0] != "model"[0];
  }

  /** One element of `getMessages`: unlike `sendMessage`, the creation time
      comes before the timestamp, content defaults to '', and the follow-up
      question is kept as sent. */
  function MapListedMessage(msg: Value, threadId: string, nowMillis: nat, nowIso: string): ChatMessage {
    ChatMessage(
      JsString(Coalesce(Get(msg, "id"), Str(GeneratedId(nowMillis)))),
      threadId,
      Or(Get(msg, "role"), Str("assistant")),
      Or(Get(msg, "content"), Str("")),
      Or(Or(Get(msg, "createdAt"), Get(msg, "timestamp")), Str(nowIso)),
      Get(msg, "model"),
      Get(msg, "type"),
      Get(msg, "nextAction"),
      Get(msg, "data"),
      Get(msg, "phase"),
      Raw(Get(msg, "followUpQuestion")))
  }

  function MapListedMessages(items: seq<Value>, threadId: string, nowMillis: nat, nowIso: string): (r: seq<ChatMessage>)
    ensures |r| == |items|
    ensures forall i :: 0 <= i < |items| ==> r[i] == MapListedMessage(items[i], threadId, nowMillis, nowIso)
  {
    if |items| == 0 then []
    else [MapListedMessage(items[0], threadId, nowMillis, nowIso)] + MapListedMessages(items[1..], threadId, nowMillis, nowIso)
  }

  predicate HasNullish(items: seq<Value>) {
    exists i :: 0 <= i < |items| && Nullish(items[i])
  }

  /** `getMessages`: the server's array mapped element by element, or empty
      when the request fails, the body is not an array, or reading `msg.id`
      off a null or undefined element throws. */
  function GetMessages(response: Option<Value>, threadId: string, nowMillis: nat, nowIso: string): seq<ChatMessage> {
    match response
    case Some(Arr(items)) => if HasNullish(items) then [] else MapListedMessages(items, threadId, nowMillis, nowIso)
    case _ => []
  }

  /** Listed messages keep the server's order and count, all belong to the
      caller's thread, and their content is always a value (never undefined);
      a single null or undefined element empties the whole list. */
  lemma GetMessagesKeepsOrder(response: Option<Value>, threadId: string, nowMillis: nat, nowIso: string)
    ensures response.Some? && response.value.Arr? && !HasNullish(response.value.items) ==>
      |GetMessages(response, threadId, nowMillis, nowIso)| == |response.value.items|
    ensures (response.None? || !response.value.Arr? || HasNullish(response.value.items)) ==>
      GetMessages(response, threadId, nowMillis, nowIso) == []
    ensures forall i :: 0 <= i < |GetMessages(response, threadId, nowMillis, nowIso)| ==>
      GetMessages(response, threadId, nowMillis, nowIso)[i].threadId == threadId
      && GetMessages(response, threadId, nowMillis, nowIso)[i].content != Undefined
      && GetMessages(response, threadId, nowMillis, nowIso)[i].content == Or(Get(response.value.items[i], "content"), Str(""))
  {
  }

  // ---------------------------------------------------------------------------
  // The fallback phase machine

  const Phase1 := "PHASE_1"
  const Phase1Processing := "PHASE_1_PROCESSING"
  const Phase2 := "PHASE_2"

  const TravelWords: seq<string> := ["여행", "서울", "부산", "제주", "강릉", "경주"]
  const Destinations: seq<string> := ["서울", "부산", "제주", "강릉", "경주"]
  const DefaultDestination := "서울"
  const DateWords: seq<string> := ["일", "월", "주", "명", "사람"]

  predicate ContainsAny(s: string, words: seq<string>) {
    exists i :: 0 <= i < |words| && Contains(s, words[i])
  }

  /** The first of `names` the text contains, or `fallback` when it
      contains none. */
  function FirstNamed(lower: string, names: seq<string>, fallback: string): string
    decreases |names|
  {
    if |names| == 0 then fallback
    else if Contains(lower, names[0]) then names[0]
    else FirstNamed(lower, names[1..], fallback)
  }

  /** The name picked is the earliest one the text contains; the fallback
      is picked exactly when it contains none. */
  lemma {:induction false} FirstNamedIsFirst(lower: string, names: seq<string>, fallback: string)
    ensures (forall j :: 0 <= j < |names| ==> !Contains(lower, names[j])) ==>
      FirstNamed(lower, names, fallback) == fallback
    ensures (exists j :: 0 <= j < |names| && Contains(lower, names[j])) ==>
      (exists i :: 0 <= i < |names| && names[i] == FirstNamed(lower, names, fallback)
        && Contains(lower, names[i]) && forall j :: 0 <= j < i ==> !Contains(lower, names[j]))
  {
    FirstNamedNone(lower, names, fallback);
    if exists j :: 0 <= j < |names| && Contains(lower, names[j]) {
      var j :| 0 <= j < |names| && Contains(lower, names[j]);
      FirstNamedEarliest(lower, names, fallback, j);
    }
  }

  lemma {:induction false} FirstNamedNone(lower: string, names: seq<string>, fallback: string)
    ensures (forall j :: 0 <= j < |names| ==> !Contains(lower, names[j])) ==>
      FirstNamed(lower, names, fallback) == fallback
    decreases |names|
  {
    if |names| > 0 && !Contains(lower, names[0]) {
      FirstNamedNone(lower, names[1..], fallback);
      if forall j :: 0 <= j < |names| ==> !Contains(lower, names[j]) {
        assert forall j :: 0 <= j < |names[1..]| ==> names[1..][j] == names[j + 1];
      }
    }
  }

  lemma {:induction false} FirstNamedEarliest(lower: string, names: seq<string>, fallback: string, j: nat)
    requires j < |names| && Contains(lower, names[j])
    ensures exists i :: (0 <= i <= j && names[i] == FirstNamed(lower, names, fallback)
      && Contains(lower, names[i]) && forall k :: 0 <= k < i ==> !Contains(lower, names[k]))
    decreases |names|
  {
    if !Contains(lower, names[0]) {
      assert names[1..][j - 1] == names[j];
      FirstNamedEarliest(lower, names[1..], fallback, j - 1);
      var i :| 0 <= i <= j - 1 && names[1..][i] == FirstNamed(lower, names[1..], fallback)
        && Contains(lower, names[1..][i]) && forall k :: 0 <= k < i ==> !Contains(lower, names[1..][k]);
      assert names[i + 1] == names[1..][i];
      assert forall k :: 1 <= k < i + 1 ==> names[k] == names[1..][k - 1];
    }
  }

  /** The four replies the machine gives; the greeting names the
      destination. */
  datatype ReplyKind = Greeting(destination: string) | PlacePrompt | PlaceReminder | DefaultHelp

  /** A reply of the machine; its `response` text is `ResponseText(kind)`. */
  datatype MockReply = MockReply(kind: ReplyKind, phase: string, intent: Option<string>,
                                 destination: Option<string>, showPlaceSelection: bool, threadId: string)

  /** The text of each reply. */
  function ResponseText(kind: ReplyKind): string {
    match kind
    case Greeting(destination) => GreetingFor(destination)
    case PlacePrompt => PlaceSelectionPrompt
    case PlaceReminder => PlaceSelectionReminder
    case DefaultHelp => DefaultReply
  }

  function GreetingFor(destination: string): string {
    "안녕하세요! " + destination + " 여행을 계획 중이시군요! 🎉\n\n완벽한 여행 일정을 만들어드리기 위해 몇 가지 정보가 필요해요.\n\n먼저 여행 날짜와 인원수를 알려주시겠어요?\n예) 12월 20일부터 3일간, 2명이서 갈 예정이에요"
  }

  const PlaceSelectionPrompt := "좋습니다! 여행 정보를 확인했어요.\n\n이제 방문하고 싶은 장소들을 선택해주세요. 아래에서 관심 있는 장소들을 골라보세요! 🗺️\n\n추천 장소들은 오렌지색 배지로 표시되어 있어요."
  const PlaceSelectionReminder := "장소를 선택해주시면 최적의 동선으로 일정을 짜드릴게요! 원하시는 장소들을 선택해주세요."
  const DefaultReply := "무엇을 도와드릴까요? 여행 계획이 필요하시면 \"서울 여행 가고 싶어\" 같이 말씀해주세요!"

  /** The session-storage key of a thread's phase. */
  function PhaseKey(threadId: string): string {
    "phase_" + threadId
  }

  /** The phases the machine stores, `PHASE_1_PROCESSING` and `PHASE_2`;
      with nothing stored a thread is in `PHASE_1`. */
  datatype StoredPhase = Processing | Placing

  /** One step of the machine: the phase stored for the thread (if any) and
      the message give the phase to store (if it changes) and the reply. */
  function MockStep(stored: Option<StoredPhase>, message: string, threadId: string): (Option<StoredPhase>, MockReply) {
    MockStepOn(stored, ToLower(message), threadId)
  }

  /** The step on the lower-cased message. */
  function MockStepOn(stored: Option<StoredPhase>, lower: string, threadId: string): (Option<StoredPhase>, MockReply) {
    var destination := FirstNamed(lower, Destinations, DefaultDestination);
    var (next, kind) := MockTransition(stored, ContainsAny(lower, TravelWords), ContainsAny(lower, DateWords), destination);
    (next, ReplyFor(kind, threadId))
  }

  /** The step given whether the message holds a travel word and a date or
      head-count word: the phase to store and the reply to give. */
  function MockTransition(stored: Option<StoredPhase>, travel: bool, dates: bool, destination: string)
    : (Option<StoredPhase>, ReplyKind)
  {
    if travel && stored.None? then (Some(Processing), Greeting(destination))
    else if dates && stored == Some(Processing) then (Some(Placing), PlacePrompt)
    else if stored == Some(Placing) then (None, PlaceReminder)
    else (None, DefaultHelp)
  }

  /** The reply of each kind; the place selection is shown with the prompt
      and the reminder. */
  function ReplyFor(kind: ReplyKind, threadId: string): (r: MockReply)
    ensures r.kind == kind && r.threadId == threadId
    ensures r.showPlaceSelection <==> kind == PlacePrompt || kind == PlaceReminder
  {
    match kind
    case Greeting(destination) => MockReply(kind, Phase1, Some("TRAVEL_PLANNING"), Some(destination), false, threadId)
    case PlacePrompt => MockReply(kind, Phase2, None, None, true, threadId)
    case PlaceReminder => MockReply(kind, Phase2, None, None, true, threadId)
    case DefaultHelp => MockReply(kind, Phase1, None, None, false, threadId)
  }

  /** How far along the machine a thread is. */
  function Rank(stored: Option<StoredPhase>): nat {
    match stored
    case None => 0
    case Some(Processing) => 1
    case Some(Placing) => 2
  }

  /** The machine only moves forward, one phase at a time, and phase 2 is
      never left; the place selection is offered exactly in phase 2 or on
      entering it. */
  lemma MockStepMovesForward(stored: Option<StoredPhase>, message: string, threadId: string)
    ensures MockStep(stored, message, threadId).0.Some? ==>
      Rank(MockStep(stored, message, threadId).0) == Rank(stored) + 1
    ensures stored == Some(Placing) ==>
      (MockStep(stored, message, threadId).0 == None && MockStep(stored, message, threadId).1.showPlaceSelection)
    ensures MockStep(stored, message, threadId).1.showPlaceSelection <==>
      stored == Some(Placing) || MockStep(stored, message, threadId).0 == Some(Placing)
  {
    var lower := ToLower(message);
    MockTransitionMovesForward(stored, ContainsAny(lower, TravelWords), ContainsAny(lower, DateWords),
                               FirstNamed(lower, Destinations, DefaultDestination));
  }

  lemma MockTransitionMovesForward(stored: Option<StoredPhase>, travel: bool, dates: bool, destination: string)
    ensures var (next, kind) := MockTransition(stored, travel, dates, destination);
      && (next.Some? ==> Rank(next) == Rank(stored) + 1)
      && (stored == Some(Placing) ==> next == None && kind == PlaceReminder)
      && (kind == PlacePrompt || kind == PlaceReminder <==> stored == Some(Placing) || next == Some(Placing))
  {
  }

  /** A travel word in phase 1 moves to processing, date or head-count
      words in processing move to phase 2, and every reply names the
      caller's thread. */
  lemma MockStepPhases(stored: Option<StoredPhase>, message: string, threadId: string)
    ensures stored.None? && ContainsAny(ToLower(message), TravelWords) ==>
      MockStep(stored, message, threadId).0 == Some(Processing)
    ensures stored == Some(Processing) && ContainsAny(ToLower(message), DateWords) ==>
      MockStep(stored, message, threadId).0 == Some(Placing)
    ensures MockStep(stored, message, threadId).1.threadId == threadId
  {
  }

  /** The unified endpoint with its fallback: the per-thread phase store is
      the machine's state. */
  datatype UnifiedReply = FromServer(body: Value) | FromMock(reply: MockReply)

  class UnifiedChat {
    /** The session store's `phase_<thread id>` entries. */
    var phases: map<string, StoredPhase>

    constructor()
      ensures phases == map[]
    {
      phases := map[];
    }

    /** `sendUnifiedMessage`; `server` is the endpoint's body, `None` for a
        failed request. */
    method SendUnifiedMessage(threadId: string, message: string, server: Option<Value>) returns (r: UnifiedReply)
      modifies this
      ensures server.Some? ==> r == FromServer(server.value) && phases == old(phases)
      ensures server.None? ==>
        var stored := if PhaseKey(threadId) in old(phases) then Some(old(phases)[PhaseKey(threadId)]) else None;
        var (write, reply) := MockStep(stored, message, threadId);
        r == FromMock(reply)
        && phases == if write.Some? then old(phases)[PhaseKey(threadId) := write.value] else old(phases)
    {
      if server.Some? {
        return FromServer(server.value);
      }
      var key := PhaseKey(threadId);
      var stored := if key in phases then Some(phases[key]) else None;
      var step := MockStep(stored, message, threadId);
      if step.0.Some? {
        phases := phases[key := step.0.value];
      }
      r := FromMock(step.1);
    }
  }
}
