/** The chat screen's inline place selection form: the places split into three
    time blocks (morning, afternoon, evening), a set of selected ids, and a
    confirm that falls back to the recommended places when nothing selected
    is among them. */
module PlaceSelectionForm {
  import opened StageTypes
  import opened Lists
  import Stage1Modal

  const BlockCount: nat := 3

  /** `Math.ceil(n / 3)` */
  function BlockSize(n: nat): nat {
    (n + BlockCount - 1) / BlockCount
  }

  /** The three blocks: `[0, b)`, `[b, 2b)` and `[2b, n)` for b = ⌈n/3⌉. */
  function TimeBlocks(places: seq<Stage1Place>): (blocks: seq<seq<Stage1Place>>)
    ensures |blocks| == BlockCount
  {
    var b := BlockSize(|places|);
    [Slice(places, 0, b), Slice(places, b, b * 2), SliceFrom(places, b * 2)]
  }

  /** The blocks read in order give back every place once; no block holds
      more than ⌈n/3⌉ places, and the first block is empty only when there
      are no places. */
  lemma TimeBlocksPartition(places: seq<Stage1Place>)
    ensures TimeBlocks(places)[0] + TimeBlocks(places)[1] + TimeBlocks(places)[2] == places
    ensures forall k :: 0 <= k < BlockCount ==> |TimeBlocks(places)[k]| <= BlockSize(|places|)
    ensures |places| > 0 ==> |TimeBlocks(places)[0]| > 0
  {
    var n := |places|;
    var b := BlockSize(n);
    assert n + 2 == 3 * b + (n + 2) % 3;
    SliceAdjacent(places, 0, b, b * 2);
    if b * 2 <= n {
      SliceAdjacent(places, 0, b * 2, n);
      SliceBounds(places, b * 2, n);
    } else {
      assert SliceFrom(places, b * 2) == [];
      assert Slice(places, 0, b * 2) == places[0..n];
    }
    SliceBounds(places, 0, b);
    SliceBounds(places, b, b * 2);
    assert places[0..n] == places;
  }

  function Recommended(places: seq<Stage1Place>): seq<Stage1Place> {
    Filter(places, (p: Stage1Place) => p.isRecommended)
  }

  /** What confirm hands on: the selected places in order, or, when that is
      empty, the recommended ones. */
  function Confirmed(places: seq<Stage1Place>, selected: set<PlaceId>): seq<Stage1Place> {
    var chosen := Stage1Modal.SelectedInOrder(places, selected);
    if |chosen| == 0 then Recommended(places) else chosen
  }

  /** Confirm hands on the selected places when some place is selected, and
      otherwise every recommended place; in both cases a sub-list of the
      places in their order. */
  lemma ConfirmedIsSelectionOrFallback(places: seq<Stage1Place>, selected: set<PlaceId>, p: Stage1Place)
    ensures (exists i :: 0 <= i < |places| && places[i].id in selected) ==>
      (p in Confirmed(places, selected) <==> p in places && p.id in selected)
    ensures (forall i :: 0 <= i < |places| ==> places[i].id !in selected) ==>
      (p in Confirmed(places, selected) <==> p in places && p.isRecommended)
    ensures IsSubsequence(Confirmed(places, selected), places)
  {
    var keep := (q: Stage1Place) => q.id in selected;
    var rec := (q: Stage1Place) => q.isRecommended;
    Stage1Modal.SelectedInOrderIsSelection(places, selected, p);
    FilterMembers(places, rec, p);
    FilterIsSubsequence(places, rec);
    if exists i :: 0 <= i < |places| && places[i].id in selected {
      var i :| 0 <= i < |places| && places[i].id in selected;
      Stage1Modal.SelectedInOrderIsSelection(places, selected, places[i]);
    } else {
      FilterDropsAll(places, keep);
    }
  }

  class PlaceSelection {
    const places: seq<Stage1Place>
    var selectedPlaces: set<PlaceId>
    var currentBlock: nat

    constructor(places: seq<Stage1Place>)
      ensures this.places == places
      ensures selectedPlaces == {} && currentBlock == 0
    {
      this.places := places;
      selectedPlaces := {};
      currentBlock := 0;
    }

    predicate Valid()
      reads this
    {
      currentBlock < BlockCount
    }

    /** The places of the block on show. */
    function CurrentBlockPlaces(): seq<Stage1Place>
      requires Valid()
      reads this
    {
      TimeBlocks(places)[currentBlock]
    }

    method TogglePlace(placeId: PlaceId)
      modifies this
      ensures selectedPlaces == Toggle(old(selectedPlaces), placeId)
      ensures currentBlock == old(currentBlock)
    {
      var newSelection := selectedPlaces;
      if placeId in newSelection {
        newSelection := newSelection - {placeId};
      } else {
        newSelection := newSelection + {placeId};
      }
      selectedPlaces := newSelection;
    }

    method HandleConfirm() returns (confirmed: seq<Stage1Place>)
      ensures confirmed == Confirmed(places, selectedPlaces)
    {
      var selected := Stage1Modal.SelectedInOrder(places, selectedPlaces);
      if |selected| == 0 {
        confirmed := Recommended(places);
      } else {
        confirmed := selected;
      }
    }

    /** A block tab. */
    method TabClicked(index: nat)
      requires index < BlockCount
      modifies this
      ensures currentBlock == index && Valid()
      ensures selectedPlaces == old(selectedPlaces)
    {
      currentBlock := index;
    }

    /** "‹", shown only after the first block. */
    method PrevClicked()
      requires Valid()
      modifies this
      ensures Valid()
      ensures currentBlock == if old(currentBlock) > 0 then old(currentBlock) - 1 else 0
      ensures selectedPlaces == old(selectedPlaces)
    {
      if currentBlock > 0 {
        currentBlock := currentBlock - 1;
      }
    }

    /** "›", shown only before the last block. */
    method NextClicked()
      requires Valid()
      modifies this
      ensures Valid()
      ensures currentBlock == if old(currentBlock) < BlockCount - 1 then old(currentBlock) + 1 else old(currentBlock)
      ensures selectedPlaces == old(selectedPlaces)
    {
      if currentBlock < BlockCount - 1 {
        currentBlock := currentBlock + 1;
      }
    }
  }
}
