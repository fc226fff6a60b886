/** The travel form modal: destinations added one at a time (or marked
    undecided), a departure place, dates, and travel styles toggled on and
    off; opening it with initial data merges that data in, and submitting
    checks the required fields in order. */
module TravelFormModal {
  import opened JsValue
  import opened Lists

  datatype Coordinates = Coordinates(lat: Value, lng: Value)

  datatype TravelFormData = TravelFormData(
    destinations: seq<string>,
    departureLocation: string,
    departureCoordinates: Option<Coordinates>,
    startDate: string,
    endDate: string,
    departureTime: string,
    endTime: string,
    companionType: string,
    travelers: int,
    budget: int,
    travelStyle: seq<string>,
    destinationUndecided: Option<bool>)

  /** The form a fresh modal shows. */
  const InitialForm := TravelFormData([], "", None, "", "", "09:00", "18:00", "가족", 2, 1000000, ["culture"], None)

  /** `Partial<TravelFormData>`: every field may be missing (`None`);
      `startDate` and `endDate` are `travelDates?.startDate` and
      `travelDates?.endDate`. */
  datatype InitialData = InitialData(
    destinations: Option<seq<string>>,
    departureLocation: Option<string>,
    departureCoordinates: Option<Coordinates>,
    startDate: Option<string>,
    endDate: Option<string>,
    departureTime: Option<string>,
    endTime: Option<string>,
    companionType: Option<string>,
    travelers: Option<int>,
    budget: Option<int>,
    travelStyle: Option<seq<string>>,
    destinationUndecided: Option<bool>)

  function OrElse<T>(given: Option<T>, previous: T): T {
    if given.Some? then given.value else previous
  }

  /** The initial-data merge: each field is the given one `?? previous`,
      except `destinationUndecided`, copied as given. */
  function Merge(prev: TravelFormData, init: InitialData): TravelFormData {
    TravelFormData(
      OrElse(init.destinations, prev.destinations),
      OrElse(init.departureLocation, prev.departureLocation),
      if init.departureCoordinates.Some? then init.departureCoordinates else prev.departureCoordinates,
      OrElse(init.startDate, prev.startDate),
      OrElse(init.endDate, prev.endDate),
      OrElse(init.departureTime, prev.departureTime),
      OrElse(init.endTime, prev.endTime),
      OrElse(init.companionType, prev.companionType),
      OrElse(init.travelers, prev.travelers),
      OrElse(init.budget, prev.budget),
      OrElse(init.travelStyle, prev.travelStyle),
      init.destinationUndecided)
  }

  const NoInitialData := InitialData(None, None, None, None, None, None, None, None, None, None, None, None)

  /** Merging the same data twice is merging it once; data that gives
      nothing keeps every field but the undecided flag, which it clears. */
  lemma MergeIdempotent(prev: TravelFormData, init: InitialData)
    ensures Merge(Merge(prev, init), init) == Merge(prev, init)
    ensures Merge(prev, NoInitialData) == prev.(destinationUndecided := None)
  {
  }

  const MissingDeparture := "출발지를 선택해주세요."
  const MissingDestination := "최소 하나 이상의 여행지를 입력해주세요."
  const MissingDates := "여행 날짜를 선택해주세요."

  /** `handleSubmit`: the first missing field's alert, or the form handed
      on, with no destinations when they are undecided. */
  function Submission(form: TravelFormData, undecided: bool): (r: Result<TravelFormData>)
    ensures r.Ok? <==> form.departureLocation != "" && (undecided || |form.destinations| > 0)
                       && form.startDate != "" && form.endDate != ""
    ensures form.departureLocation == "" ==> r == Failure(MissingDeparture)
    ensures form.departureLocation != "" && !undecided && |form.destinations| == 0 ==> r == Failure(MissingDestination)
    ensures (form.departureLocation != "" && (undecided || |form.destinations| > 0)
             && (form.startDate == "" || form.endDate == "")) ==> r == Failure(MissingDates)
    ensures r.Ok? ==>
      (r.value.destinationUndecided == Some(undecided)
       && r.value.destinations == (if undecided then [] else form.destinations)
       && r.value.(destinations := form.destinations, destinationUndecided := form.destinationUndecided) == form)
  {
    if form.departureLocation == "" then Failure(MissingDeparture)
    else if !undecided && |form.destinations| == 0 then Failure(MissingDestination)
    else if form.startDate == "" || form.endDate == "" then Failure(MissingDates)
    else Ok(form.(destinations := if undecided then [] else form.destinations,
                  destinationUndecided := Some(undecided)))
  }

  /** `filter((_, i) => i !== index)`: drops exactly the element at index,
      if there is one. */
  function RemoveAt<T>(s: seq<T>, index: int): (r: seq<T>)
    ensures 0 <= index < |s| ==>
      (|r| == |s| - 1
       && (forall i :: 0 <= i < index ==> r[i] == s[i])
       && (forall i :: index <= i < |r| ==> r[i] == s[i + 1]))
    ensures !(0 <= index < |s|) ==> r == s
    decreases |s|
  {
    if |s| == 0 then []
    else if index == 0 then s[1..]
    else [s[0]] + RemoveAt(s[1..], index - 1)
  }

  class TravelForm {
    var formData: TravelFormData
    var currentDestination: string
    var isDestinationUndecided: bool

    constructor()
      ensures formData == InitialForm && currentDestination == "" && !isDestinationUndecided
    {
      formData := InitialForm;
      currentDestination := "";
      isDestinationUndecided := false;
    }

    /** The departure search picked a place. */
    method HandleDepartureSelect(placeName: string, x: string, y: string)
      modifies this
      ensures formData == old(formData).(departureLocation := placeName,
                                         departureCoordinates := Some(Coordinates(ParseFloatValue(y), ParseFloatValue(x))))
      ensures currentDestination == old(currentDestination) && isDestinationUndecided == old(isDestinationUndecided)
    {
      formData := formData.(departureLocation := placeName,
                            departureCoordinates := Some(Coordinates(ParseFloatValue(y), ParseFloatValue(x))));
    }

    /** `handleAddDestination`: nothing while undecided; a non-empty input
        not yet listed is appended and the input cleared. */
    method HandleAddDestination()
      modifies this
      ensures old(isDestinationUndecided) || old(currentDestination) == "" || old(currentDestination) in old(formData.destinations) ==>
        formData == old(formData) && currentDestination == old(currentDestination)
      ensures !old(isDestinationUndecided) && old(currentDestination) != "" && old(currentDestination) !in old(formData.destinations) ==>
        formData == old(formData).(destinations := old(formData.destinations) + [old(currentDestination)])
        && currentDestination == ""
      ensures NoDuplicates(old(formData.destinations)) ==> NoDuplicates(formData.destinations)
      ensures isDestinationUndecided == old(isDestinationUndecided)
    {
      if isDestinationUndecided {
        return;
      }
      if currentDestination != "" && currentDestination !in formData.destinations {
        formData := formData.(destinations := formData.destinations + [currentDestination]);
        currentDestination := "";
      }
    }

    method HandleRemoveDestination(index: int)
      modifies this
      ensures formData == old(formData).(destinations := RemoveAt(old(formData.destinations), index))
      ensures currentDestination == old(currentDestination) && isDestinationUndecided == old(isDestinationUndecided)
    {
      formData := formData.(destinations := RemoveAt(formData.destinations, index));
    }

    method HandleDateRangeSelect(startDate: string, endDate: string)
      modifies this
      ensures formData == old(formData).(startDate := startDate, endDate := endDate)
      ensures currentDestination == old(currentDestination) && isDestinationUndecided == old(isDestinationUndecided)
    {
      formData := formData.(startDate := startDate, endDate := endDate);
    }

    /** `handleStyleToggle`: a listed style is removed, another appended. */
    method HandleStyleToggle(style: string)
      modifies this
      ensures formData == old(formData).(travelStyle := ToggleIn(old(formData.travelStyle), style))
      ensures currentDestination == old(currentDestination) && isDestinationUndecided == old(isDestinationUndecided)
    {
      var newStyles := if style in formData.travelStyle then Without(formData.travelStyle, style)
                       else formData.travelStyle + [style];
      formData := formData.(travelStyle := newStyles);
    }

    /** The effect run when the modal opens or its initial data changes. */
    method OnOpen(isOpen: bool, initialData: Option<InitialData>)
      modifies this
      ensures !isOpen ==>
        formData == old(formData) && currentDestination == old(currentDestination)
        && isDestinationUndecided == old(isDestinationUndecided)
      ensures isOpen && initialData.Some? ==>
        formData == Merge(old(formData), initialData.value) && currentDestination == ""
        && isDestinationUndecided == (initialData.value.destinationUndecided == Some(true))
      ensures isOpen && initialData.None? ==>
        formData == old(formData) && currentDestination == old(currentDestination) && !isDestinationUndecided
    {
      if !isOpen {
        return;
      }
      if initialData.Some? {
        formData := Merge(formData, initialData.value);
        isDestinationUndecided := initialData.value.destinationUndecided == Some(true);
        currentDestination := "";
      } else {
        isDestinationUndecided := false;
      }
    }

    /** Turning "undecided" on clears the destinations and the input;
        turning it off keeps the destinations. */
    method ToggleDestinationUndecided()
      modifies this
      ensures isDestinationUndecided == !old(isDestinationUndecided)
      ensures isDestinationUndecided ==>
        formData == old(formData).(destinations := [], destinationUndecided := Some(true)) && currentDestination == ""
      ensures !isDestinationUndecided ==>
        formData == old(formData).(destinationUndecided := Some(false)) && currentDestination == old(currentDestination)
    {
      var next := !isDestinationUndecided;
      if next {
        formData := formData.(destinations := [], destinationUndecided := Some(true));
        currentDestination := "";
      } else {
        formData := formData.(destinationUndecided := Some(false));
      }
      isDestinationUndecided := next;
    }

    function HandleSubmit(): Result<TravelFormData>
      reads this
    {
      Submission(formData, isDestinationUndecided)
    }
  }
}
