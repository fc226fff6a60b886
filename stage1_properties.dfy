/** What stage-1 extraction promises: categories sorted by descending count
    with ties in map order, no category dropped that held places, totals that
    add up, and first-seen grouping of a flat place list. */
module Stage1Properties {
  import opened JsValue
  import opened StageTypes
  import opened StagePlaces
  import opened StageExtract

  lemma SumOverCons(c: Stage1Category, s: seq<Stage1Category>, f: Stage1Category -> nat)
    ensures SumOver([c] + s, f) == f(c) + SumOver(s, f)
  {
    SumOverAppend([c], s, f);
    assert [c][..0] == [];
  }

  // ---------------------------------------------------------------------------
  // The sort

  lemma {:induction false} InsertSorted(c: Stage1Category, s: seq<Stage1Category>)
    requires SortedByCount(s)
    ensures SortedByCount(InsertByCount(c, s))
    decreases |s|
  {
    if |s| > 0 && |s[0].places| > |c.places| {
      InsertSorted(c, s[1..]);
      var r := InsertByCount(c, s[1..]);
      assert r[0] == c || r[0] == s[1];
      assert InsertByCount(c, s) == [s[0]] + r;
    }
  }

  lemma {:induction false} InsertPermutes(c: Stage1Category, s: seq<Stage1Category>)
    ensures multiset(InsertByCount(c, s)) == multiset(s) + multiset{c}
    decreases |s|
  {
    if |s| > 0 && |s[0].places| > |c.places| {
      InsertPermutes(c, s[1..]);
      assert s == [s[0]] + s[1..];
    }
  }

  /** The categories come out in descending order of their place counts, and
      as a permutation of the input. */
  lemma {:induction false} SortByCountSorted(cats: seq<Stage1Category>)
    ensures SortedByCount(SortByCount(cats))
    ensures multiset(SortByCount(cats)) == multiset(cats)
  {
    SortByCountIsSorted(cats);
    SortByCountPermutes(cats);
  }

  lemma {:induction false} SortByCountIsSorted(cats: seq<Stage1Category>)
    ensures SortedByCount(SortByCount(cats))
    decreases |cats|
  {
    if |cats| > 0 {
      SortByCountIsSorted(cats[1..]);
      InsertSorted(cats[0], SortByCount(cats[1..]));
    }
  }

  lemma {:induction false} SortByCountPermutes(cats: seq<Stage1Category>)
    ensures multiset(SortByCount(cats)) == multiset(cats)
    decreases |cats|
  {
    if |cats| > 0 {
      SortByCountPermutes(cats[1..]);
      InsertPermutes(cats[0], SortByCount(cats[1..]));
      assert cats == [cats[0]] + cats[1..];
    }
  }

  lemma {:induction false} InsertWithCount(c: Stage1Category, s: seq<Stage1Category>, n: nat)
    ensures WithCount(InsertByCount(c, s), n) == (if |c.places| == n then [c] else []) + WithCount(s, n)
    decreases |s|
  {
    if |s| > 0 && |s[0].places| > |c.places| {
      InsertWithCount(c, s[1..], n);
      assert ([s[0]] + InsertByCount(c, s[1..]))[1..] == InsertByCount(c, s[1..]);
    } else if |s| > 0 {
      assert ([c] + s)[1..] == s;
    }
  }

  /** The sort is stable: for every count, the categories holding that many
      places appear in the same order as before sorting. */
  lemma {:induction false} SortByCountStable(cats: seq<Stage1Category>, n: nat)
    ensures WithCount(SortByCount(cats), n) == WithCount(cats, n)
    decreases |cats|
  {
    if |cats| > 0 {
      SortByCountStable(cats[1..], n);
      InsertWithCount(cats[0], SortByCount(cats[1..]), n);
    }
  }

  lemma {:induction false} InsertKeepsSum(c: Stage1Category, s: seq<Stage1Category>, f: Stage1Category -> nat)
    ensures SumOver(InsertByCount(c, s), f) == f(c) + SumOver(s, f)
    decreases |s|
  {
    if |s| == 0 {
      SumOverCons(c, s, f);
      assert [c] + s == [c];
    } else if |s[0].places| <= |c.places| {
      SumOverCons(c, s, f);
    } else {
      InsertKeepsSum(c, s[1..], f);
      SumOverCons(s[0], InsertByCount(c, s[1..]), f);
      SumOverCons(s[0], s[1..], f);
      assert [s[0]] + s[1..] == s;
    }
  }

  lemma {:induction false} SortKeepsSum(cats: seq<Stage1Category>, f: Stage1Category -> nat)
    ensures SumOver(SortByCount(cats), f) == SumOver(cats, f)
    decreases |cats|
  {
    if |cats| > 0 {
      SortKeepsSum(cats[1..], f);
      InsertKeepsSum(cats[0], SortByCount(cats[1..]), f);
      SumOverCons(cats[0], cats[1..], f);
      assert [cats[0]] + cats[1..] == cats;
    }
  }

  // ---------------------------------------------------------------------------
  // Dropping empty categories and reading the entries

  /** Dropping categories without places loses no place and no recommended
      place. */
  lemma {:induction false} NonEmptyKeepsTotals(cats: seq<Stage1Category>)
    ensures CategoryPlaceTotal(NonEmpty(cats)) == CategoryPlaceTotal(cats)
    ensures CategoryRecommendedTotal(NonEmpty(cats)) == CategoryRecommendedTotal(cats)
    decreases |cats|
  {
    if |cats| > 0 {
      NonEmptyKeepsTotals(cats[1..]);
      SumOverCons(cats[0], cats[1..], PlaceCount);
      SumOverCons(cats[0], cats[1..], RecommendedCount);
      assert [cats[0]] + cats[1..] == cats;
      if |cats[0].places| > 0 {
        SumOverCons(cats[0], NonEmpty(cats[1..]), PlaceCount);
        SumOverCons(cats[0], NonEmpty(cats[1..]), RecommendedCount);
      } else {
        assert cats[0].places == [];
      }
    }
  }

  /** Σ of the lengths of the entry values that are arrays. */
  function ArrayEntryTotal(es: seq<(string, Value)>): nat {
    if |es| == 0 then 0
    else ArrayEntryTotal(es[..|es| - 1]) + (if es[|es| - 1].1.Arr? then |es[|es| - 1].1.items| else 0)
  }

  lemma {:induction false} EntryCategoriesTotal(es: seq<(string, Value)>)
    ensures CategoryPlaceTotal(EntryCategories(es)) == ArrayEntryTotal(es)
    decreases |es|
  {
    if |es| > 0 {
      EntryCategoriesTotal(es[..|es| - 1]);
      assert EntryCategories(es)[..|es| - 1] == EntryCategories(es[..|es| - 1]);
    }
  }

  /** Categorised stage 1: the categories are non-empty, named (an empty name
      reads '기타'), sorted by descending count with ties in map order, and,
      when the payload gives no totalCount, totalCount is the number of
      places over all array-valued entries. */
  lemma CategorisedStage1Correct(payload: Value, categorized: Value)
    ensures var d := CategorisedStage1(payload, categorized);
      var source := NonEmpty(EntryCategories(Entries(categorized)));
      && SortedByCount(d.categories)
      && (forall i :: 0 <= i < |d.categories| ==> |d.categories[i].places| > 0)
      && (forall i :: 0 <= i < |d.categories| ==> d.categories[i].name.Str? && d.categories[i].name.s != "")
      && (forall n: nat :: WithCount(d.categories, n) == WithCount(source, n))
      && (Nullish(Get(payload, "totalCount")) ==> d.totalCount == Num(ArrayEntryTotal(Entries(categorized)) as real))
      && (Nullish(Get(payload, "recommendedCount")) ==>
            d.recommendedCount == Num(CategoryRecommendedTotal(EntryCategories(Entries(categorized))) as real))
      && (!Nullish(Get(payload, "totalCount")) ==> d.totalCount == Get(payload, "totalCount"))
  {
    CategorisedOrder(Entries(categorized));
    CategorisedTotals(Entries(categorized));
  }

  /** The sorted categories: ordered, non-empty, named, and stable. */
  lemma CategorisedOrder(es: seq<(string, Value)>)
    ensures var source := NonEmpty(EntryCategories(es));
      var cats := SortByCount(source);
      && SortedByCount(cats)
      && (forall i :: 0 <= i < |cats| ==> |cats[i].places| > 0 && cats[i].name.Str? && cats[i].name.s != "")
      && (forall n: nat :: WithCount(cats, n) == WithCount(source, n))
  {
    var source := NonEmpty(EntryCategories(es));
    var cats := SortByCount(source);
    SortByCountIsSorted(source);
    forall n: nat ensures WithCount(cats, n) == WithCount(source, n) {
      SortByCountStable(source, n);
    }
    SortedCategoriesNamed(es);
  }

  lemma SortedCategoriesNamed(es: seq<(string, Value)>)
    ensures var cats := SortByCount(NonEmpty(EntryCategories(es)));
      forall i :: 0 <= i < |cats| ==> |cats[i].places| > 0 && cats[i].name.Str? && cats[i].name.s != ""
  {
    var source := NonEmpty(EntryCategories(es));
    var cats := SortByCount(source);
    SortByCountPermutes(source);
    forall i | 0 <= i < |cats| ensures |cats[i].places| > 0 && cats[i].name.Str? && cats[i].name.s != "" {
      assert cats[i] in multiset(source);
      NonEmptyFrom(EntryCategories(es), cats[i]);
    }
  }

  /** The totals of the sorted categories are those of the entries. */
  lemma CategorisedTotals(es: seq<(string, Value)>)
    ensures var cats := SortByCount(NonEmpty(EntryCategories(es)));
      && CategoryPlaceTotal(cats) == ArrayEntryTotal(es)
      && CategoryRecommendedTotal(cats) == CategoryRecommendedTotal(EntryCategories(es))
  {
    var source := NonEmpty(EntryCategories(es));
    SortKeepsSum(source, PlaceCount);
    SortKeepsSum(source, RecommendedCount);
    NonEmptyKeepsTotals(EntryCategories(es));
    EntryCategoriesTotal(es);
  }

  lemma {:induction false} NonEmptyFrom(cats: seq<Stage1Category>, c: Stage1Category)
    requires c in NonEmpty(cats)
    ensures c in cats
    decreases |cats|
  {
    if |cats[0].places| > 0 && c == cats[0] {
    } else {
      NonEmptyFrom(cats[1..], c);
    }
  }

  lemma EntryCategoryNamed(es: seq<(string, Value)>, c: Stage1Category)
    requires c in EntryCategories(es)
    ensures c.name.Str? && c.name.s != ""
  {
  }

  // ---------------------------------------------------------------------------
  // First-seen grouping

  predicate Distinct(ks: seq<Value>) {
    forall i, j :: 0 <= i < j < |ks| ==> ks[i] != ks[j]
  }

  lemma {:induction false} KeysFirstSeenDistinct(places: seq<Stage1Place>)
    ensures Distinct(KeysFirstSeen(places))
    decreases |places|
  {
    if |places| > 0 {
      var pre := places[..|places| - 1];
      KeysFirstSeenDistinct(pre);
      var ks := KeysFirstSeen(pre);
      var k := GroupKey(places[|places| - 1]);
      if k !in ks {
        var ks' := ks + [k];
        assert KeysFirstSeen(places) == ks';
        forall i, j | 0 <= i < j < |ks'| ensures ks'[i] != ks'[j] {
          if j < |ks| {
            assert ks'[i] == ks[i] && ks'[j] == ks[j];
          } else {
            assert ks'[i] == ks[i] && ks'[j] == k;
            assert ks[i] in ks;
          }
        }
      }
    }
  }

  lemma {:induction false} KeysFirstSeenMembers(places: seq<Stage1Place>, k: Value)
    ensures k in KeysFirstSeen(places) <==> PlacesWithKey(places, k) != []
    decreases |places|
  {
    if |places| > 0 {
      KeysFirstSeenMembers(places[..|places| - 1], k);
    }
  }

  /** The groups are exactly the distinct keys in first-seen order, each with
      the places carrying that key in their original order. */
  lemma {:induction false} GroupsCharacterised(places: seq<Stage1Place>)
    ensures var gs := Groups(places);
      var ks := KeysFirstSeen(places);
      |gs| == |ks| && forall j :: 0 <= j < |gs| ==> gs[j] == Stage1Category(ks[j], PlacesWithKey(places, ks[j]))
    decreases |places|
  {
    if |places| > 0 {
      var pre := places[..|places| - 1];
      var p := places[|places| - 1];
      var k := GroupKey(p);
      GroupsCharacterised(pre);
      KeysFirstSeenDistinct(pre);
      var gs := Groups(pre);
      var ks := KeysFirstSeen(pre);
      var j := IndexOfName(gs, k);
      if j == -1 {
        KeysFirstSeenMembers(pre, k);
      } else {
        assert ks[j] == k;
      }
    }
  }

  /** Grouping loses no place and no recommended place. */
  lemma {:induction false} GroupsTotals(places: seq<Stage1Place>)
    ensures CategoryPlaceTotal(Groups(places)) == |places|
    ensures CategoryRecommendedTotal(Groups(places)) == RecommendedIn(places)
    decreases |places|
  {
    if |places| > 0 {
      var pre := places[..|places| - 1];
      var p := places[|places| - 1];
      GroupsTotals(pre);
      var gs := Groups(pre);
      var j := IndexOfName(gs, GroupKey(p));
      if j == -1 {
        assert [p][..0] == [];
        assert RecommendedIn([p]) == (if p.isRecommended then 1 else 0);
      } else {
        var g := Stage1Category(gs[j].name, gs[j].places + [p]);
        SumOverUpdate(gs, j, g, PlaceCount);
        SumOverUpdate(gs, j, g, RecommendedCount);
        RecommendedInAppend(gs[j].places, [p]);
        assert [p][..0] == [];
      }
    }
  }

  /** Flat stage 1: one group per distinct key in first-seen order, holding
      that key's places in order, and totals recomputed from the places
      whatever counts the payload carries. */
  lemma GroupedStage1Correct(items: seq<Value>)
    ensures var d := GroupedStage1(items);
      var places := MapPlaces1(items, 0);
      var ks := KeysFirstSeen(places);
      && |d.categories| == |ks|
      && (forall j :: 0 <= j < |ks| ==> d.categories[j] == Stage1Category(ks[j], PlacesWithKey(places, ks[j])))
      && Distinct(ks)
      && d.totalCount == Num(|items| as real)
      && d.recommendedCount == Num(RecommendedIn(places) as real)
  {
    var places := MapPlaces1(items, 0);
    GroupsCharacterised(places);
    KeysFirstSeenDistinct(places);
    GroupsTotals(places);
  }

  /** Which shape `extractStage1Data` reads: null without a truthy payload or
      without either shape, the categorised shape whenever it is an object
      (even when `allPlaces` is present too), the flat shape otherwise. */
  lemma ExtractStage1Shapes(payload: Value)
    ensures var categorized := Or(Get(payload, "places"), Get(payload, "categorizedPlaces"));
      var all := Get(payload, "allPlaces");
      && (ExtractStage1(payload).None? <==>
            !Truthy(payload) || (!(Truthy(categorized) && IsObjectLike(categorized)) && !all.Arr?))
      && (Truthy(payload) && Truthy(categorized) && IsObjectLike(categorized) ==>
            ExtractStage1(payload) == Some(CategorisedStage1(payload, categorized)))
      && (Truthy(payload) && !(Truthy(categorized) && IsObjectLike(categorized)) && all.Arr? ==>
            ExtractStage1(payload) == Some(GroupedStage1(all.items)))
  {
  }
}
