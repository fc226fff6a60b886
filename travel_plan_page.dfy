/** The travel plan page: it finds the final itinerary in a conversation,
    loads a stored itinerary for the thread in the address (or the built-in
    sample), and shows one day at a time. */
module TravelPlanPage {
  import opened JsValue
  import opened StageClassifier
  import StagePanel

  const FinalItineraryType := "FINAL_ITINERARY_CREATED"
  const NoItineraryError := "생성된 여행 일정이 없습니다. AI에게 여행 계획 생성을 다시 요청해보세요."

  /** A message that carries the final itinerary: its type says so, or its
      data holds a truthy `itinerary`. */
  predicate CarriesItinerary(m: Message) {
    m.msgType == Some(FinalItineraryType) || (Truthy(m.data) && Truthy(Get(m.data, "itinerary")))
  }

  /** `[...messages].reverse().find(...)` */
  function FindFinalItineraryMessage(messages: seq<Message>): Option<Message> {
    if |messages| == 0 then None
    else if CarriesItinerary(messages[|messages| - 1]) then Some(messages[|messages| - 1])
    else FindFinalItineraryMessage(messages[..|messages| - 1])
  }

  /** The search finds the last message that carries the itinerary, and
      nothing exactly when no message does. */
  lemma {:induction false} FindFinalIsLast(messages: seq<Message>)
    ensures FindFinalItineraryMessage(messages).None? <==>
      forall i :: 0 <= i < |messages| ==> !CarriesItinerary(messages[i])
    ensures FindFinalItineraryMessage(messages).Some? ==>
      exists i :: 0 <= i < |messages| && messages[i] == FindFinalItineraryMessage(messages).value
        && CarriesItinerary(messages[i])
        && forall j :: i < j < |messages| ==> !CarriesItinerary(messages[j])
    decreases |messages|
  {
    if |messages| > 0 {
      var prefix := messages[..|messages| - 1];
      FindFinalIsLast(prefix);
      if !CarriesItinerary(messages[|messages| - 1]) {
        if FindFinalItineraryMessage(prefix).Some? {
          var i :| 0 <= i < |prefix| && prefix[i] == FindFinalItineraryMessage(prefix).value
            && CarriesItinerary(prefix[i])
            && forall j :: i < j < |prefix| ==> !CarriesItinerary(prefix[j]);
          assert messages[i] == prefix[i];
        } else {
          assert forall i :: 0 <= i < |prefix| ==> messages[i] == prefix[i];
        }
      }
    }
  }

  /** The header figures kept beside the itinerary. */
  datatype Meta = Meta(totalDays: Value, totalDistance: Value, totalTime: Value, destination: Value, budget: Value)

  const NoMeta := Meta(Undefined, Undefined, Undefined, Undefined, Undefined)

  /** A payload with nothing to show: falsy, without a truthy itinerary, or
      with an empty one. */
  predicate NoItinerary(payload: Value) {
    !Truthy(payload) || !Truthy(Get(payload, "itinerary")) || Get(Get(payload, "itinerary"), "length") == Num(0.0)
  }

  function MetaOf(payload: Value): Meta {
    var itinerary := Get(payload, "itinerary");
    Meta(Coalesce(Get(payload, "totalDays"), Get(itinerary, "length")),
         Get(payload, "totalDistance"), Get(payload, "totalTime"),
         Get(payload, "destination"), Get(payload, "budget"))
  }

  /** For an itinerary array, the day count is the payload's own when given
      and the number of days otherwise. */
  lemma MetaDays(payload: Value, days: seq<Value>)
    requires Get(payload, "itinerary") == Arr(days)
    ensures !Nullish(Get(payload, "totalDays")) ==> MetaOf(payload).totalDays == Get(payload, "totalDays")
    ensures Nullish(Get(payload, "totalDays")) ==> MetaOf(payload).totalDays == Num(|days| as real)
    ensures !NoItinerary(payload) ==> |days| > 0
  {
  }

  /** Where the page reads a stored itinerary. */
  function StorageKey(threadId: string): string {
    "itinerary_" + threadId
  }

  /** What the load effect hands to hydration: the stored entry for the thread,
      parsed, or the sample itinerary when there is no thread id, no stored
      entry, or the entry does not parse. `parse` stands for `JSON.parse`,
      with `None` for a parse error. */
  function LoadedPayload(threadId: Option<string>, storage: map<string, string>,
                         parse: string -> Option<Value>, sample: Value): Value {
    if threadId.None? || threadId.value == "" then sample
    else if StorageKey(threadId.value) !in storage || storage[StorageKey(threadId.value)] == "" then sample
    else match parse(storage[StorageKey(threadId.value)])
      case Some(v) => v
      case None => sample
  }

  /** The sample is used exactly when one of the three fallbacks applies. */
  lemma LoadedPayloadFallsBack(threadId: Option<string>, storage: map<string, string>,
                               parse: string -> Option<Value>, sample: Value)
    ensures (threadId.None? || threadId.value == "") ==> LoadedPayload(threadId, storage, parse, sample) == sample
    ensures threadId.Some? && threadId.value != "" && StorageKey(threadId.value) in storage ==>
      var stored := storage[StorageKey(threadId.value)];
      (stored != "" && parse(stored).Some? ==> LoadedPayload(threadId, storage, parse, sample) == parse(stored).value)
      && (stored == "" || parse(stored).None? ==> LoadedPayload(threadId, storage, parse, sample) == sample)
    ensures threadId.Some? && StorageKey(threadId.value) !in storage ==> LoadedPayload(threadId, storage, parse, sample) == sample
  {
  }

  /** `selectedDay - 1`: the day number coerced as `-` does, less one. */
  function DayIndex(selectedDay: Value): (r: Value)
    ensures r.Num? || r.NaN?
  {
    match JsNumber(selectedDay)
    case Num(d) => Num(d - 1.0)
    case _ => NaN
  }

  /** `v[i]` for a numeric key `i`: an element of an array or a character
      of a string at a whole index in range, the property named `String(i)`
      of an object, and `undefined` otherwise. */
  function ElementAt(v: Value, i: Value): Value
    requires i.Num? || i.NaN?
  {
    match v
    case Arr(items) =>
      if i.Num? && i.n == i.n.Floor as real && 0 <= i.n.Floor < |items| then items[i.n.Floor] else Undefined
    case Str(s) =>
      if i.Num? && i.n == i.n.Floor as real && 0 <= i.n.Floor < |s| then Str([s[i.n.Floor]]) else Undefined
    case Obj(fields) => Lookup(fields, JsString(i))
    case _ => Undefined
  }

  /** `itinerary[selectedDay - 1]` */
  function DayAt(itinerary: Value, selectedDay: Value): Value {
    ElementAt(itinerary, DayIndex(selectedDay))
  }

  /** Day n (counting from 1) shows the n-th element of an array itinerary,
      the n-th character of a string one and the property named n - 1 of an
      object one; anything outside an array's or string's days shows
      nothing. */
  lemma DayAtIsNthDay(days: seq<Value>, text: string, fields: seq<(string, Value)>, n: int)
    ensures 1 <= n <= |days| ==> DayAt(Arr(days), Num(n as real)) == days[n - 1]
    ensures (n < 1 || n > |days|) ==> DayAt(Arr(days), Num(n as real)) == Undefined
    ensures 1 <= n <= |text| ==> DayAt(Str(text), Num(n as real)) == Str([text[n - 1]])
    ensures (n < 1 || n > |text|) ==> DayAt(Str(text), Num(n as real)) == Undefined
    ensures DayAt(Obj(fields), Num(n as real)) == Lookup(fields, IntToDecimal(n - 1))
  {
    assert ((n - 1) as real).Floor == n - 1;
    assert (n as real) - 1.0 == (n - 1) as real;
    NumberToStringOfInt(n - 1);
  }

  /** The day tab for element i: `day.day || i + 1`. */
  function DayTabTarget(day: Value, index: nat): Value {
    Or(Get(day, "day"), Num((index + 1) as real))
  }

  /** A tab whose day has no day number selects its own position. */
  lemma DayTabWithoutNumber(days: seq<Value>, index: nat)
    requires index < |days| && !Truthy(Get(days[index], "day"))
    ensures DayAt(Arr(days), DayTabTarget(days[index], index)) == days[index]
  {
    DayAtIsNthDay(days, "", [], index + 1);
  }

  /** The load effect's branches: the stored entry when there is a thread id
      and a stored entry that parses, otherwise the sample. */
  method ChoosePayload(id: Option<string>, storage: map<string, string>,
                       parse: string -> Option<Value>, sample: Value) returns (payload: Value)
    ensures payload == LoadedPayload(id, storage, parse, sample)
  {
    if id.Some? && id.value != "" {
      var key := StorageKey(id.value);
      if key in storage && storage[key] != "" {
        var parsed := parse(storage[key]);
        if parsed.Some? {
          payload := parsed.value;
        } else {
          payload := sample;
        }
      } else {
        payload := sample;
      }
    } else {
      payload := sample;
    }
  }

  class TravelPlan {
    var selectedDay: Value
    var threadId: Option<string>
    var loading: bool
    var error: Option<string>
    var itinerary: Value
    var meta: Meta

    constructor()
      ensures selectedDay == Num(1.0) && threadId == None && loading
      ensures error == None && itinerary == Arr([]) && meta == NoMeta
    {
      selectedDay := Num(1.0);
      threadId := None;
      loading := true;
      error := None;
      itinerary := Arr([]);
      meta := NoMeta;
    }

    /** The day on show. */
    function CurrentDayData(): Value
      reads this
    {
      DayAt(itinerary, selectedDay)
    }

    /** The day count in the header: `meta.totalDays ?? itinerary.length`. */
    function DaysShown(): Value
      reads this
    {
      Coalesce(meta.totalDays, Get(itinerary, "length"))
    }

    method HydrateItinerary(payload: Value)
      modifies this
      ensures NoItinerary(payload) ==>
        error == Some(NoItineraryError) && itinerary == Arr([]) && meta == old(meta)
      ensures !NoItinerary(payload) ==>
        itinerary == Get(payload, "itinerary") && meta == MetaOf(payload) && error == old(error)
      ensures selectedDay == old(selectedDay) && threadId == old(threadId) && loading == old(loading)
    {
      if NoItinerary(payload) {
        error := Some(NoItineraryError);
        itinerary := Arr([]);
        return;
      }
      itinerary := Get(payload, "itinerary");
      meta := MetaOf(payload);
    }

    /** The effect run when the address changes. */
    method LoadFromLocation(id: Option<string>, storage: map<string, string>,
                            parse: string -> Option<Value>, sample: Value)
      modifies this
      ensures threadId == id && !loading && selectedDay == old(selectedDay)
      ensures var payload := LoadedPayload(id, storage, parse, sample);
        (NoItinerary(payload) ==> error == Some(NoItineraryError) && itinerary == Arr([]) && meta == old(meta))
        && (!NoItinerary(payload) ==> itinerary == Get(payload, "itinerary") && meta == MetaOf(payload) && error == old(error))
    {
      threadId := id;
      loading := true;
      var payload := ChoosePayload(id, storage, parse, sample);
      HydrateItinerary(payload);
      loading := false;
    }

    /** A day tab. */
    method DayTabClicked(day: Value, index: nat)
      modifies this
      ensures selectedDay == DayTabTarget(day, index)
      ensures itinerary == old(itinerary) && meta == old(meta) && error == old(error)
      ensures threadId == old(threadId) && loading == old(loading)
    {
      selectedDay := DayTabTarget(day, index);
    }

    /** The header's duration label, by the same rule as the progress panel. */
    function DurationShown(): string
      reads this
    {
      StagePanel.FormatDuration(meta.totalTime)
    }
  }
}
