/** The follow-up service's normaliser: every server answer of the follow-up
    question flow passes through it before the screen sees it. */
module FollowUpService {
  import opened JsValue

  const InvalidPayloadError := "Invalid follow-up response payload"
  const MissingSessionError := "Follow-up response is missing sessionId"

  /** `FollowUpResponse`; the fields the normaliser copies unchanged stay
      raw values. */
  datatype FollowUpResponse = FollowUpResponse(
    sessionId: Value,
    threadId: Value,
    questionType: Value,
    question: Value,
    helpText: Value,
    quickOptions: Value,
    exampleAnswers: Value,
    inputType: Value,
    uiType: Value,
    currentStep: Value,
    progressPercentage: Value,
    remainingQuestions: Value,
    collectedInfo: Value,
    canGeneratePlan: Value,
    isComplete: Value,
    message: Value,
    dedupeKey: Value)

  /** `raw.sessionId || raw.threadId` */
  function SessionIdOf(raw: Value): Value {
    Or(Get(raw, "sessionId"), Get(raw, "threadId"))
  }

  /** `normalizeFollowUpResponse(raw)`; a thrown error is a `Failure`. */
  function NormalizeFollowUpResponse(raw: Value): Result<FollowUpResponse> {
    if !Truthy(raw) then Failure(InvalidPayloadError)
    else
      var sessionId := SessionIdOf(raw);
      if !Truthy(sessionId) then Failure(MissingSessionError)
      else Ok(FollowUpResponse(
        sessionId,
        Or(Get(raw, "threadId"), sessionId),
        Or(Get(raw, "questionType"), Str("follow_up")),
        Or(Or(Get(raw, "question"), Get(raw, "message")), Str("")),
        Get(raw, "helpText"),
        Or(Get(raw, "quickOptions"), Arr([])),
        Or(Get(raw, "exampleAnswers"), Arr([])),
        Get(raw, "inputType"),
        Get(raw, "uiType"),
        Get(raw, "currentStep"),
        Coalesce(Get(raw, "progressPercentage"), Num(0.0)),
        Coalesce(Get(raw, "remainingQuestions"), Num(0.0)),
        Get(raw, "collectedInfo"),
        Coalesce(Get(raw, "canGeneratePlan"), Bool(false)),
        Coalesce(Get(raw, "isComplete"), Bool(false)),
        Or(Get(raw, "message"), Get(raw, "question")),
        Get(raw, "dedupeKey")))
  }

  /** The normaliser fails exactly on a falsy payload or one with neither a
      session id nor a thread id, with the message for the first check that
      fails. */
  lemma NormalizeFailures(raw: Value)
    ensures NormalizeFollowUpResponse(raw).Failure? <==>
      !Truthy(raw) || (!Truthy(Get(raw, "sessionId")) && !Truthy(Get(raw, "threadId")))
    ensures !Truthy(raw) ==> NormalizeFollowUpResponse(raw) == Failure(InvalidPayloadError)
    ensures Truthy(raw) && !Truthy(Get(raw, "sessionId")) && !Truthy(Get(raw, "threadId")) ==>
      NormalizeFollowUpResponse(raw) == Failure(MissingSessionError)
  {
  }

  /** A normalised answer always has a session id and a thread id: the
      session id is the payload's own when it has one and its thread id
      otherwise, and the thread id falls back to the session id. */
  lemma NormalizedIds(raw: Value)
    requires NormalizeFollowUpResponse(raw).Ok?
    ensures var r := NormalizeFollowUpResponse(raw).value;
      Truthy(r.sessionId) && Truthy(r.threadId)
      && (Truthy(Get(raw, "sessionId")) ==> r.sessionId == Get(raw, "sessionId"))
      && (!Truthy(Get(raw, "sessionId")) ==> r.sessionId == Get(raw, "threadId") && r.threadId == r.sessionId)
      && (Truthy(Get(raw, "threadId")) ==> r.threadId == Get(raw, "threadId"))
  {
  }

  /** The question and the message stand in for each other: either is
      truthy exactly when the payload has a truthy question or message, and
      a payload with neither gets the empty question. */
  lemma NormalizedQuestionAndMessage(raw: Value)
    requires NormalizeFollowUpResponse(raw).Ok?
    ensures var r := NormalizeFollowUpResponse(raw).value;
      var some := Truthy(Get(raw, "question")) || Truthy(Get(raw, "message"));
      (Truthy(r.question) <==> some) && (Truthy(r.message) <==> some)
      && (!some ==> r.question == Str(""))
      && (Truthy(Get(raw, "question")) ==> r.question == Get(raw, "question"))
      && (Truthy(Get(raw, "message")) ==> r.message == Get(raw, "message"))
  {
  }

  /** Counters and flags default only when missing (`??`), so a 0 or a
      `false` from the server is kept; the type and the two lists default
      whenever falsy (`||`). */
  lemma NormalizedDefaults(raw: Value)
    requires NormalizeFollowUpResponse(raw).Ok?
    ensures var r := NormalizeFollowUpResponse(raw).value;
      (Nullish(Get(raw, "progressPercentage")) ==> r.progressPercentage == Num(0.0))
      && (!Nullish(Get(raw, "progressPercentage")) ==> r.progressPercentage == Get(raw, "progressPercentage"))
      && (Nullish(Get(raw, "remainingQuestions")) ==> r.remainingQuestions == Num(0.0))
      && (!Nullish(Get(raw, "remainingQuestions")) ==> r.remainingQuestions == Get(raw, "remainingQuestions"))
      && (Nullish(Get(raw, "canGeneratePlan")) ==> r.canGeneratePlan == Bool(false))
      && (!Nullish(Get(raw, "canGeneratePlan")) ==> r.canGeneratePlan == Get(raw, "canGeneratePlan"))
      && (Nullish(Get(raw, "isComplete")) ==> r.isComplete == Bool(false))
      && (!Nullish(Get(raw, "isComplete")) ==> r.isComplete == Get(raw, "isComplete"))
      && (Truthy(Get(raw, "questionType")) ==> r.questionType == Get(raw, "questionType"))
      && (!Truthy(Get(raw, "questionType")) ==> r.questionType == Str("follow_up"))
      && (!Truthy(Get(raw, "quickOptions")) ==> r.quickOptions == Arr([]))
      && (!Truthy(Get(raw, "exampleAnswers")) ==> r.exampleAnswers == Arr([]))
      && r.helpText == Get(raw, "helpText") && r.currentStep == Get(raw, "currentStep")
      && r.collectedInfo == Get(raw, "collectedInfo") && r.dedupeKey == Get(raw, "dedupeKey")
  {
  }
}
