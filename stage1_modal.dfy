/** The stage-1 place selection modal: a set of selected place ids and a
    page index over the places, five to a page. */
module Stage1Modal {
  import opened StageTypes
  import opened Lists

  const PlacesPerPage: nat := 5

  /** `Math.ceil(n / 5)` */
  function TotalPages(n: nat): nat {
    (n + PlacesPerPage - 1) / PlacesPerPage
  }

  lemma TotalPagesIsCeiling(n: nat)
    ensures PlacesPerPage * TotalPages(n) >= n
    ensures n > 0 ==> PlacesPerPage * (TotalPages(n) - 1) < n
    ensures n == 0 <==> TotalPages(n) == 0
  {
    var t := TotalPages(n);
    assert n + 4 == 5 * t + (n + 4) % 5;
  }

  /** The places shown on a page: `slice(page * 5, (page + 1) * 5)`. */
  function PageSlice(places: seq<Stage1Place>, page: int): seq<Stage1Place> {
    Slice(places, page * PlacesPerPage, (page + 1) * PlacesPerPage)
  }

  /** Pages 0 .. count−1 read in order. */
  function PagesUpTo(places: seq<Stage1Place>, count: nat): seq<Stage1Place> {
    if count == 0 then [] else PagesUpTo(places, count - 1) + PageSlice(places, count - 1)
  }

  /** A page holds at most five places; a page inside the range holds at
      least one. */
  lemma PageSize(places: seq<Stage1Place>, page: nat)
    ensures |PageSlice(places, page)| <= PlacesPerPage
    ensures page < TotalPages(|places|) ==> |PageSlice(places, page)| > 0
  {
    SliceBounds(places, page * PlacesPerPage, (page + 1) * PlacesPerPage);
    if page < TotalPages(|places|) {
      TotalPagesIsCeiling(|places|);
      assert page * PlacesPerPage < |places|;
    }
  }

  lemma {:induction false} PagesUpToIsPrefix(places: seq<Stage1Place>, count: nat)
    ensures PagesUpTo(places, count) == Slice(places, 0, count * PlacesPerPage)
  {
    if count > 0 {
      PagesUpToIsPrefix(places, count - 1);
      SliceAdjacent(places, 0, (count - 1) * PlacesPerPage, count * PlacesPerPage);
    }
  }

  /** Reading every page in order gives back all the places exactly once. */
  lemma PagesCoverPlaces(places: seq<Stage1Place>)
    ensures PagesUpTo(places, TotalPages(|places|)) == places
  {
    PagesUpToIsPrefix(places, TotalPages(|places|));
    TotalPagesIsCeiling(|places|);
    assert places[0..|places|] == places;
  }

  /** The "‹" button: `Math.max(0, page − 1)`. */
  function PrevPage(page: int): int {
    Max(0, page - 1)
  }

  /** The "›" button as written: `Math.min(totalPages − 1, page + 1)`. */
  function NextPageAsWritten(page: int, totalPages: nat): int {
    Min(totalPages - 1, page + 1)
  }

  /** The "›" button kept inside [0, totalPages − 1], and at 0 when there is
      no page at all. */
  function NextPage(page: int, totalPages: nat): (r: int)
    ensures r >= 0
  {
    Max(0, NextPageAsWritten(page, totalPages))
  }

  /** A page index is in range when it is a page that exists, or 0 when there
      are no places. */
  predicate PageInRange(page: int, n: nat) {
    0 <= page && (page < TotalPages(n) || (n == 0 && page == 0))
  }

  /** With no places, "›" is enabled on page 0 and moves to page −1. */
  lemma NextPageAsWrittenLeavesRange()
    ensures 0 != TotalPages(0) - 1
    ensures NextPageAsWritten(0, TotalPages(0)) == -1
    ensures !PageInRange(NextPageAsWritten(0, TotalPages(0)), 0)
  {
  }

  /** With at least one place the written button already stays in range. */
  lemma NextPageAsWrittenInRange(page: int, n: nat)
    requires n > 0 && PageInRange(page, n)
    ensures PageInRange(NextPageAsWritten(page, TotalPages(n)), n)
    ensures NextPageAsWritten(page, TotalPages(n)) == NextPage(page, TotalPages(n))
  {
    TotalPagesIsCeiling(n);
  }

  /** Both buttons keep the page index in range for every number of places,
      and each moves by at most one page. */
  lemma NavigationStaysInRange(page: int, n: nat)
    requires PageInRange(page, n)
    ensures PageInRange(PrevPage(page), n)
    ensures PageInRange(NextPage(page, TotalPages(n)), n)
    ensures page - 1 <= PrevPage(page) <= page
    ensures page <= NextPage(page, TotalPages(n)) <= page + 1
  {
    TotalPagesIsCeiling(n);
  }

  /** The places the modal confirms: those whose id is selected, in their
      original order. */
  function SelectedInOrder(places: seq<Stage1Place>, selected: set<PlaceId>): seq<Stage1Place> {
    Filter(places, (p: Stage1Place) => p.id in selected)
  }

  lemma SelectedInOrderIsSelection(places: seq<Stage1Place>, selected: set<PlaceId>, p: Stage1Place)
    ensures p in SelectedInOrder(places, selected) <==> p in places && p.id in selected
    ensures IsSubsequence(SelectedInOrder(places, selected), places)
  {
    FilterMembers(places, (q: Stage1Place) => q.id in selected, p);
    FilterIsSubsequence(places, (q: Stage1Place) => q.id in selected);
  }

  class Stage1PlaceSelectionModal {
    const places: seq<Stage1Place>
    var selectedPlaces: set<PlaceId>
    var currentPage: int

    constructor(places: seq<Stage1Place>)
      ensures this.places == places
      ensures selectedPlaces == {} && currentPage == 0
    {
      this.places := places;
      selectedPlaces := {};
      currentPage := 0;
    }

    function TotalPageCount(): nat
      reads this
    {
      TotalPages(|places|)
    }

    /** The five (or fewer) places on the current page. */
    function CurrentPlaces(): seq<Stage1Place>
      reads this
    {
      PageSlice(places, currentPage)
    }

    predicate ConfirmDisabled()
      reads this
    {
      |selectedPlaces| == 0
    }

    method TogglePlaceSelection(placeId: PlaceId)
      modifies this
      ensures selectedPlaces == Toggle(old(selectedPlaces), placeId)
      ensures currentPage == old(currentPage)
    {
      var newSelection := selectedPlaces;
      if placeId in newSelection {
        newSelection := newSelection - {placeId};
      } else {
        newSelection := newSelection + {placeId};
      }
      selectedPlaces := newSelection;
    }

    method HandleConfirm() returns (selected: seq<Stage1Place>)
      ensures selected == SelectedInOrder(places, selectedPlaces)
    {
      selected := SelectedInOrder(places, selectedPlaces);
    }

    /** "‹", which is disabled on page 0. */
    method PrevClicked()
      modifies this
      ensures currentPage == if old(currentPage) == 0 then 0 else PrevPage(old(currentPage))
      ensures selectedPlaces == old(selectedPlaces)
    {
      if currentPage != 0 {
        currentPage := PrevPage(currentPage);
      }
    }

    /** "›", which is disabled on the last page; with no place at all there
        is no last page, and a click moves to page −1. */
    method NextClicked()
      modifies this
      ensures currentPage == if old(currentPage) == TotalPageCount() - 1 then old(currentPage)
                             else NextPageAsWritten(old(currentPage), TotalPageCount())
      ensures selectedPlaces == old(selectedPlaces)
    {
      if currentPage != TotalPageCount() - 1 {
        currentPage := NextPageAsWritten(currentPage, TotalPageCount());
      }
    }

    /** A pagination dot; there is one per page. */
    method DotClicked(index: nat)
      requires index < TotalPageCount()
      modifies this
      ensures currentPage == index
      ensures selectedPlaces == old(selectedPlaces)
    {
      currentPage := index;
    }
  }
}
