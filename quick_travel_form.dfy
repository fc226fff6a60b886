/** The quick travel form in the chat: a plain object of form fields updated
    by spreading (`{ ...prev, [name]: value }`), a departure search showing a
    handful of results, a list of interests toggled on and off, and a
    booking-receipt upload whose recognised fields prefill the form. */
module QuickTravelForm {
  import opened JsValue
  import opened Records
  import opened Lists

  /** The form object, its fields in their order. */
  type Form = seq<(string, Value)>

  const DefaultForm: Form := [
    ("destination", Str("")),
    ("destinationUndecided", Bool(false)),
    ("departureLocation", Str("")),
    ("departureLat", Num(0.0)),
    ("departureLng", Num(0.0)),
    ("startDate", Str("")),
    ("departureTime", Str("09:00")),
    ("endDate", Str("")),
    ("endTime", Str("18:00")),
    ("travelCompanion", Str("커플")),
    ("travelers", Str("2")),
    ("travelStyle", Str("균형잡힌")),
    ("budget", Str("중간")),
    ("accommodation", Str("호텔")),
    ("transportation", Str("대중교통")),
    ("interests", Arr([]))]

  /** `form.name`, `undefined` when the form has no such field. */
  function Field(form: Form, name: string): Value {
    match Find(form, name)
    case Some(v) => v
    case None => Undefined
  }

  const MaxSearchResults := 5

  /** `data.slice(0, 5)` */
  function ShownResults(data: seq<Value>): seq<Value> {
    Slice(data, 0, MaxSearchResults)
  }

  /** At most five results are shown, the first ones found, in order. */
  lemma ShownResultsArePrefix(data: seq<Value>)
    ensures |ShownResults(data)| == Min(|data|, MaxSearchResults)
    ensures ShownResults(data) == data[..Min(|data|, MaxSearchResults)]
  {
  }

  /** `toggleDestinationUndecided`: flip the flag; turning it on clears the
      destination. */
  function ToggleUndecided(form: Form): Form {
    var wasUndecided := Truthy(Field(form, "destinationUndecided"));
    Put(Put(form, "destinationUndecided", Bool(!wasUndecided)),
        "destination", if !wasUndecided then Str("") else Field(form, "destination"))
  }

  lemma ToggleUndecidedEffect(form: Form, k: string)
    ensures Field(ToggleUndecided(form), "destinationUndecided") == Bool(!Truthy(Field(form, "destinationUndecided")))
    ensures !Truthy(Field(form, "destinationUndecided")) ==> Field(ToggleUndecided(form), "destination") == Str("")
    ensures Truthy(Field(form, "destinationUndecided")) ==> Field(ToggleUndecided(form), "destination") == Field(form, "destination")
    ensures k != "destination" && k != "destinationUndecided" ==> Find(ToggleUndecided(form), k) == Find(form, k)
  {
    var wasUndecided := Truthy(Field(form, "destinationUndecided"));
    var f1 := Put(form, "destinationUndecided", Bool(!wasUndecided));
    var d := if !wasUndecided then Str("") else Field(form, "destination");
    PutFind(form, "destinationUndecided", Bool(!wasUndecided), k);
    PutFind(form, "destinationUndecided", Bool(!wasUndecided), "destination");
    PutFind(form, "destinationUndecided", Bool(!wasUndecided), "destinationUndecided");
    PutFind(f1, "destination", d, k);
    PutFind(f1, "destination", d, "destinationUndecided");
    PutFind(f1, "destination", d, "destination");
  }

  /** `handleInterestToggle` on the interests array. */
  function ToggleInterest(form: Form, interest: string): Form {
    match Field(form, "interests")
    case Arr(items) => Put(form, "interests", Arr(ToggleIn(items, Str(interest))))
    case _ => form
  }

  /** A listed interest is removed and another appended; toggling an
      interest that was not listed twice gives the list back. */
  lemma ToggleInterestTwice(form: Form, interest: string, items: seq<Value>)
    requires Field(form, "interests") == Arr(items) && Str(interest) !in items
    ensures Field(ToggleInterest(form, interest), "interests") == Arr(items + [Str(interest)])
    ensures Field(ToggleInterest(ToggleInterest(form, interest), interest), "interests") == Arr(items)
  {
    var f1 := Put(form, "interests", Arr(ToggleIn(items, Str(interest))));
    PutFind(form, "interests", Arr(ToggleIn(items, Str(interest))), "interests");
    PutFind(f1, "interests", Arr(ToggleIn(ToggleIn(items, Str(interest)), Str(interest))), "interests");
    ToggleInFlips(items, Str(interest), Str(interest));
  }

  /** `if (result[from]) form[to] = result[from]` */
  function CopyIfPresent(form: Form, result: Value, from: string, to: string): Form {
    if Truthy(Get(result, from)) then Put(form, to, Get(result, from)) else form
  }

  /** The receipt's fields poured into the form: hotel, check-in and
      check-out date and time, and the destination (`region || address`),
      which is taken only when there is an address. */
  function OcrPrefill(form: Form, result: Value): Form {
    var f := CopyReceipt(form, result);
    if Truthy(Get(result, "address")) then Put(f, "destination", Or(Get(result, "region"), Get(result, "address")))
    else f
  }

  lemma CopyIfPresentFind(form: Form, result: Value, from: string, to: string, k: string)
    ensures Find(CopyIfPresent(form, result, from, to), k) ==
      if k == to && Truthy(Get(result, from)) then Some(Get(result, from)) else Find(form, k)
  {
    PutFind(form, to, Get(result, from), k);
  }

  /** The receipt field a form field is prefilled from, if any (the
      destination aside). */
  function ReceiptSource(field: string): Option<string> {
    if field == "accommodation" then Some("hotelName")
    else if field == "startDate" then Some("checkIn")
    else if field == "departureTime" then Some("checkInTime")
    else if field == "endDate" then Some("checkOut")
    else if field == "endTime" then Some("checkOutTime")
    else None
  }

  /** The five copies before the destination. */
  function CopyReceipt(form: Form, result: Value): Form {
    var f := CopyIfPresent(form, result, "hotelName", "accommodation");
    var f := CopyIfPresent(f, result, "checkIn", "startDate");
    var f := CopyIfPresent(f, result, "checkInTime", "departureTime");
    var f := CopyIfPresent(f, result, "checkOut", "endDate");
    CopyIfPresent(f, result, "checkOutTime", "endTime")
  }

  lemma CopyReceiptFind(form: Form, result: Value, k: string)
    ensures Find(CopyReceipt(form, result), k) ==
      match ReceiptSource(k)
      case Some(src) => if Truthy(Get(result, src)) then Some(Get(result, src)) else Find(form, k)
      case None => Find(form, k)
  {
    var f1 := CopyIfPresent(form, result, "hotelName", "accommodation");
    var f2 := CopyIfPresent(f1, result, "checkIn", "startDate");
    var f3 := CopyIfPresent(f2, result, "checkInTime", "departureTime");
    var f4 := CopyIfPresent(f3, result, "checkOut", "endDate");
    CopyIfPresentFind(form, result, "hotelName", "accommodation", k);
    CopyIfPresentFind(f1, result, "checkIn", "startDate", k);
    CopyIfPresentFind(f2, result, "checkInTime", "departureTime", k);
    CopyIfPresentFind(f3, result, "checkOut", "endDate", k);
    CopyIfPresentFind(f4, result, "checkOutTime", "endTime", k);
  }

  /** The prefill overwrites only the fields the receipt has: a field with
      a receipt source takes the receipt's value when it is present and
      keeps its own otherwise, every other field but the destination keeps
      its value, and the destination changes only when there is an address
      (`region || address`), whatever the region says. */
  lemma OcrPrefillOnlyPresent(form: Form, result: Value, k: string)
    ensures k != "destination" ==>
      Find(OcrPrefill(form, result), k) ==
        match ReceiptSource(k)
        case Some(src) => if Truthy(Get(result, src)) then Some(Get(result, src)) else Find(form, k)
        case None => Find(form, k)
    ensures Truthy(Get(result, "address")) ==>
      Field(OcrPrefill(form, result), "destination") == Or(Get(result, "region"), Get(result, "address"))
    ensures !Truthy(Get(result, "address")) ==> Find(OcrPrefill(form, result), "destination") == Find(form, "destination")
  {
    var f := CopyReceipt(form, result);
    assert OcrPrefill(form, result) ==
      if Truthy(Get(result, "address")) then Put(f, "destination", Or(Get(result, "region"), Get(result, "address"))) else f;
    CopyReceiptFind(form, result, k);
    CopyReceiptFind(form, result, "destination");
    PutFind(f, "destination", Or(Get(result, "region"), Get(result, "address")), k);
    PutFind(f, "destination", Or(Get(result, "region"), Get(result, "address")), "destination");
  }

  /** A departure search result picked: its name and its coordinates
      (`parseFloat(y)` the latitude, `parseFloat(x)` the longitude). */
  function SelectDeparture(form: Form, placeName: Value, x: string, y: string): Form {
    Put(Put(Put(form, "departureLocation", placeName), "departureLat", ParseFloatValue(y)),
        "departureLng", ParseFloatValue(x))
  }

  lemma SelectDepartureFields(form: Form, placeName: Value, x: string, y: string, k: string)
    ensures Field(SelectDeparture(form, placeName, x, y), "departureLocation") == placeName
    ensures Field(SelectDeparture(form, placeName, x, y), "departureLng") == ParseFloatValue(x)
    ensures k != "departureLocation" && k != "departureLat" && k != "departureLng" ==>
      Find(SelectDeparture(form, placeName, x, y), k) == Find(form, k)
  {
    var f1 := Put(form, "departureLocation", placeName);
    var f2 := Put(f1, "departureLat", ParseFloatValue(y));
    PutFind(form, "departureLocation", placeName, k);
    PutFind(f1, "departureLat", ParseFloatValue(y), k);
    PutFind(f2, "departureLng", ParseFloatValue(x), k);
    PutFind(form, "departureLocation", placeName, "departureLocation");
    PutFind(f1, "departureLat", ParseFloatValue(y), "departureLocation");
    PutFind(f2, "departureLng", ParseFloatValue(x), "departureLocation");
    PutFind(f2, "departureLng", ParseFloatValue(x), "departureLng");
  }

  /** What submit hands on: the form plus the uploaded file and the
      recognised data. */
  function Submission(form: Form, file: Value, ocrData: Value): Form {
    Put(Put(form, "ocrFile", file), "ocrData", ocrData)
  }

  lemma SubmissionKeepsForm(form: Form, file: Value, ocrData: Value, k: string)
    ensures Find(Submission(form, file, ocrData), k) ==
      if k == "ocrData" then Some(ocrData) else if k == "ocrFile" then Some(file) else Find(form, k)
  {
    PutFind(form, "ocrFile", file, k);
    PutFind(Put(form, "ocrFile", file), "ocrData", ocrData, k);
  }

  class QuickForm {
    var form: Form
    var searchResults: seq<Value>
    var showSearchResults: bool
    var uploadedFile: Value
    var ocrData: Value

    constructor()
      ensures form == DefaultForm && searchResults == [] && !showSearchResults
      ensures uploadedFile == Null && ocrData == Null
    {
      form := DefaultForm;
      searchResults := [];
      showSearchResults := false;
      uploadedFile := Null;
      ocrData := Null;
    }

    /** `handleInputChange`: the named field takes the value; typing a
        departure schedules a search for it (returned), and emptying the
        departure clears and hides the results. */
    method HandleInputChange(name: string, value: string) returns (search: Option<string>)
      modifies this
      ensures form == Put(old(form), name, Str(value))
      ensures search == if name == "departureLocation" && |value| > 0 then Some(value) else None
      ensures name == "departureLocation" && |value| == 0 ==> searchResults == [] && !showSearchResults
      ensures !(name == "departureLocation" && |value| == 0) ==>
        searchResults == old(searchResults) && showSearchResults == old(showSearchResults)
      ensures uploadedFile == old(uploadedFile) && ocrData == old(ocrData)
    {
      form := Put(form, name, Str(value));
      search := None;
      if name == "departureLocation" && |value| > 0 {
        search := Some(value);
      } else if name == "departureLocation" && |value| == 0 {
        showSearchResults := false;
        searchResults := [];
      }
    }

    /** The keyword search answered: the first five places, or nothing. */
    method SearchCompleted(data: seq<Value>, ok: bool)
      modifies this
      ensures ok ==> searchResults == ShownResults(data) && showSearchResults
      ensures !ok ==> searchResults == [] && !showSearchResults
      ensures |searchResults| <= MaxSearchResults
      ensures form == old(form) && uploadedFile == old(uploadedFile) && ocrData == old(ocrData)
    {
      if ok {
        searchResults := ShownResults(data);
        showSearchResults := true;
      } else {
        searchResults := [];
        showSearchResults := false;
      }
    }

    /** A search result was picked. */
    method SelectPlace(placeName: Value, x: string, y: string)
      modifies this
      ensures form == SelectDeparture(old(form), placeName, x, y)
      ensures searchResults == [] && !showSearchResults
      ensures uploadedFile == old(uploadedFile) && ocrData == old(ocrData)
    {
      showSearchResults := false;
      searchResults := [];
      form := SelectDeparture(form, placeName, x, y);
    }

    method ToggleDestinationUndecided()
      modifies this
      ensures form == ToggleUndecided(old(form))
      ensures searchResults == old(searchResults) && showSearchResults == old(showSearchResults)
      ensures uploadedFile == old(uploadedFile) && ocrData == old(ocrData)
    {
      form := ToggleUndecided(form);
    }

    method HandleInterestToggle(interest: string)
      modifies this
      ensures form == ToggleInterest(old(form), interest)
      ensures searchResults == old(searchResults) && showSearchResults == old(showSearchResults)
      ensures uploadedFile == old(uploadedFile) && ocrData == old(ocrData)
    {
      form := ToggleInterest(form, interest);
    }

    /** A file was chosen (`viaDrop` false) or dropped; a dropped file must
        be an image. `result` is the recognition service's answer, `None`
        when the request failed or was refused. */
    method UploadReceipt(file: Value, fileType: string, viaDrop: bool, result: Option<Value>)
      modifies this
      ensures var accepted := Truthy(file) && (!viaDrop || "image/" <= fileType);
        (!accepted ==> form == old(form) && uploadedFile == old(uploadedFile) && ocrData == old(ocrData))
        && (accepted ==>
              uploadedFile == file
              && (result.Some? ==> ocrData == result.value && form == OcrPrefill(old(form), result.value))
              && (result.None? ==> ocrData == old(ocrData) && form == old(form)))
      ensures searchResults == old(searchResults) && showSearchResults == old(showSearchResults)
    {
      if !Truthy(file) || (viaDrop && !("image/" <= fileType)) {
        return;
      }
      uploadedFile := file;
      if result.Some? {
        ocrData := result.value;
        form := OcrPrefill(form, result.value);
      }
    }

    method RemoveFile()
      modifies this
      ensures uploadedFile == Null && ocrData == Null
      ensures form == old(form) && searchResults == old(searchResults) && showSearchResults == old(showSearchResults)
    {
      uploadedFile := Null;
      ocrData := Null;
    }

    function HandleSubmit(): Form
      reads this
    {
      Submission(form, uploadedFile, ocrData)
    }
  }
}
