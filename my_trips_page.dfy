/** The trips page: each trip's status label and colour, and the list
    narrowed by the selected filter tab. */
module MyTripsPage {
  import opened JsValue
  import opened Lists

  datatype TripStatus = Planning | Confirmed | Ongoing | Completed

  function StatusName(status: TripStatus): string {
    match status
    case Planning => "PLANNING"
    case Confirmed => "CONFIRMED"
    case Ongoing => "ONGOING"
    case Completed => "COMPLETED"
  }

  datatype Trip = Trip(id: int, title: string, destination: string, startDate: string, endDate: string, status: TripStatus)

  /** Days from now to a start date, rounded up; none where the date does
      not parse (the comparison with NaN is false). The clock is a
      parameter. */
  type DaysUntil = string -> Option<int>

  const OngoingLabel := "진행 중"
  const CompletedLabel := "완료"

  /** `getStatusLabel` */
  function StatusLabel(status: TripStatus, daysUntil: Option<int>): string {
    if status == Planning then "PLANNING"
    else if status == Confirmed && daysUntil.Some? && daysUntil.value > 0 then "D-" + IntToDecimal(daysUntil.value)
    else if status == Ongoing then OngoingLabel
    else if status == Completed then CompletedLabel
    else StatusName(status)
  }

  /** `getStatusColor`: decided by the label alone. */
  function StatusColor(shown: string): string {
    if Contains(shown, "D-") then "status-upcoming"
    else if shown == OngoingLabel then "status-ongoing"
    else if shown == CompletedLabel then "status-completed"
    else ""
  }

  /** A string without one of sub's characters does not contain sub. */
  lemma {:induction false} MissingCharNotContained(s: string, sub: string, c: char)
    requires c in sub && c !in s
    ensures !Contains(s, sub)
    decreases |s|
  {
    if |s| > 0 {
      MissingCharNotContained(s[1..], sub, c);
    }
  }

  /** A label reads as upcoming exactly for a confirmed trip still ahead;
      a planned trip is labelled as such whatever its date, and a confirmed
      trip that has started reads as confirmed. */
  lemma LabelUpcoming(status: TripStatus, daysUntil: Option<int>)
    ensures Contains(StatusLabel(status, daysUntil), "D-") <==>
      status == Confirmed && daysUntil.Some? && daysUntil.value > 0
    ensures status == Planning ==> StatusLabel(status, daysUntil) == "PLANNING"
    ensures status == Confirmed && !(daysUntil.Some? && daysUntil.value > 0) ==> StatusLabel(status, daysUntil) == "CONFIRMED"
  {
    var shown := StatusLabel(status, daysUntil);
    if status == Confirmed && daysUntil.Some? && daysUntil.value > 0 {
      ContainsAt(shown, "D-", 0);
    } else {
      MissingCharNotContained(shown, "D-", '-');
    }
  }

  /** The colour follows the status: upcoming for a confirmed trip still
      ahead, the ongoing and completed colours for those statuses, and none
      otherwise. */
  lemma StatusColors(status: TripStatus, daysUntil: Option<int>)
    ensures var color := StatusColor(StatusLabel(status, daysUntil));
      (color == "status-upcoming" <==> status == Confirmed && daysUntil.Some? && daysUntil.value > 0)
      && (color == "status-ongoing" <==> status == Ongoing)
      && (color == "status-completed" <==> status == Completed)
      && (color == "" <==> status == Planning || (status == Confirmed && !(daysUntil.Some? && daysUntil.value > 0)))
  {
    LabelUpcoming(status, daysUntil);
  }

  /** The four tabs: '전체', '예정된 여행', '진행 중', '완료된 여행'. */
  datatype TripFilter = AllTrips | UpcomingTrips | OngoingTrips | CompletedTrips

  /** The test `filteredTrips` applies to one trip. */
  function Passes(filter: TripFilter, trip: Trip, daysUntil: DaysUntil): bool {
    match filter
    case AllTrips => true
    case UpcomingTrips =>
      Contains(StatusLabel(trip.status, daysUntil(trip.startDate)), "D-") || trip.status == Planning
    case OngoingTrips => trip.status == Ongoing
    case CompletedTrips => trip.status == Completed
  }

  function FilteredTrips(trips: seq<Trip>, filter: TripFilter, daysUntil: DaysUntil): seq<Trip> {
    Filter(trips, t => Passes(filter, t, daysUntil))
  }

  /** The filtered list keeps the trips' order, keeps every trip on the
      first tab, and on the others keeps exactly the planned or upcoming
      confirmed trips, the ongoing ones, or the completed ones. */
  lemma FilteredTripsSelect(trips: seq<Trip>, filter: TripFilter, daysUntil: DaysUntil, t: Trip)
    ensures IsSubsequence(FilteredTrips(trips, filter, daysUntil), trips)
    ensures filter == AllTrips ==> FilteredTrips(trips, filter, daysUntil) == trips
    ensures t in FilteredTrips(trips, filter, daysUntil) <==>
      t in trips
      && match filter
         case AllTrips => true
         case UpcomingTrips =>
           t.status == Planning
           || (t.status == Confirmed && daysUntil(t.startDate).Some? && daysUntil(t.startDate).value > 0)
         case OngoingTrips => t.status == Ongoing
         case CompletedTrips => t.status == Completed
  {
    var keep := u => Passes(filter, u, daysUntil);
    FilterIsSubsequence(trips, keep);
    FilterMembers(trips, keep, t);
    LabelUpcoming(t.status, daysUntil(t.startDate));
    if filter == AllTrips {
      FilterKeepsAll(trips, keep);
    }
  }

  class MyTrips {
    var trips: seq<Trip>
    var selectedFilter: TripFilter

    constructor()
      ensures trips == [] && selectedFilter == AllTrips
    {
      trips := [];
      selectedFilter := AllTrips;
    }

    /** `loadTrips`: the user's trips, or none when the request failed. */
    method LoadTrips(result: Option<seq<Trip>>)
      modifies this
      ensures trips == (if result.Some? then result.value else [])
      ensures selectedFilter == old(selectedFilter)
    {
      trips := if result.Some? then result.value else [];
    }

    method SelectFilter(filter: TripFilter)
      modifies this
      ensures selectedFilter == filter && trips == old(trips)
    {
      selectedFilter := filter;
    }

    /** The trips shown, and their count in the summary. */
    function Shown(daysUntil: DaysUntil): seq<Trip>
      reads this
    {
      FilteredTrips(trips, selectedFilter, daysUntil)
    }
  }
}
