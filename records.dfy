/** A JavaScript object used as a dictionary (`Record<string, T>`): its
    entries in insertion order. Assigning to a present key replaces the value
    in place; assigning to an absent key appends; `delete` removes the entry.
    `Object.keys`, `Object.values` and `Object.entries` list the keys that are
    array indices first, in ascending numeric order, and the other keys after
    them in insertion order (`OwnOrder`). */
module Records {
  import opened JsValue

  predicate DistinctKeys<K(==), V>(r: seq<(K, V)>) {
    forall i, j :: 0 <= i < j < |r| ==> r[i].0 != r[j].0
  }

  /** `r[k]`: the value under k, if any. */
  function Find<K(==), V>(r: seq<(K, V)>, k: K): Option<V> {
    if |r| == 0 then None
    else if r[0].0 == k then Some(r[0].1)
    else Find(r[1..], k)
  }

  predicate Has<K(==), V>(r: seq<(K, V)>, k: K) {
    Find(r, k).Some?
  }

  function Keys<K, V>(r: seq<(K, V)>): (ks: seq<K>)
    ensures |ks| == |r|
    ensures forall i :: 0 <= i < |r| ==> ks[i] == r[i].0
  {
    if |r| == 0 then [] else [r[0].0] + Keys(r[1..])
  }

  function Values<K, V>(r: seq<(K, V)>): (vs: seq<V>)
    ensures |vs| == |r|
    ensures forall i :: 0 <= i < |r| ==> vs[i] == r[i].1
  {
    if |r| == 0 then [] else [r[0].1] + Values(r[1..])
  }

  /** `r[k] = v` */
  function Put<K(==), V>(r: seq<(K, V)>, k: K, v: V): (out: seq<(K, V)>)
    ensures |out| == |r| + (if Has(r, k) then 0 else 1)
  {
    if |r| == 0 then [(k, v)]
    else if r[0].0 == k then [(k, v)] + r[1..]
    else [r[0]] + Put(r[1..], k, v)
  }

  /** `delete r[k]` */
  function Delete<K(==), V>(r: seq<(K, V)>, k: K): (out: seq<(K, V)>)
    ensures |out| <= |r|
  {
    if |r| == 0 then []
    else if r[0].0 == k then Delete(r[1..], k)
    else [r[0]] + Delete(r[1..], k)
  }

  /** Assigning each entry in turn: `for (const [k, v] of entries) r[k] = v`. */
  function PutAll<K(==), V>(r: seq<(K, V)>, entries: seq<(K, V)>): (out: seq<(K, V)>)
    ensures |out| <= |r| + |entries|
  {
    if |entries| == 0 then r
    else Put(PutAll(r, entries[..|entries| - 1]), entries[|entries| - 1].0, entries[|entries| - 1].1)
  }

  // ---------------------------------------------------------------------------
  // Properties

  lemma {:induction false} FindIn<K, V>(r: seq<(K, V)>, k: K)
    ensures Has(r, k) <==> exists i :: 0 <= i < |r| && r[i].0 == k
    decreases |r|
  {
    if |r| > 0 && r[0].0 != k {
      FindIn(r[1..], k);
      if exists i :: 0 <= i < |r| && r[i].0 == k {
        var i :| 0 <= i < |r| && r[i].0 == k;
        assert r[1..][i - 1].0 == k;
      }
    }
  }

  /** After `r[k] = v`, k maps to v and every other key to what it did. */
  lemma {:induction false} PutFind<K, V>(r: seq<(K, V)>, k: K, v: V, k': K)
    ensures Find(Put(r, k, v), k') == if k' == k then Some(v) else Find(r, k')
    decreases |r|
  {
    if |r| > 0 && r[0].0 != k {
      PutFind(r[1..], k, v, k');
      assert Put(r, k, v)[1..] == Put(r[1..], k, v);
    }
  }

  /** After `delete r[k]`, k is absent and every other key maps to what it did. */
  lemma {:induction false} DeleteFind<K, V>(r: seq<(K, V)>, k: K, k': K)
    ensures Find(Delete(r, k), k') == if k' == k then None else Find(r, k')
    decreases |r|
  {
    if |r| > 0 {
      DeleteFind(r[1..], k, k');
      if r[0].0 != k {
        assert Delete(r, k)[1..] == Delete(r[1..], k);
      }
    }
  }

  lemma {:induction false} PutKeepsDistinct<K, V>(r: seq<(K, V)>, k: K, v: V)
    requires DistinctKeys(r)
    ensures DistinctKeys(Put(r, k, v))
    decreases |r|
  {
    if |r| > 0 {
      if r[0].0 == k {
        assert forall i :: 0 < i < |r| ==> r[i].0 != k;
      } else {
        PutKeepsDistinct(r[1..], k, v);
        var out := Put(r, k, v);
        forall i | 0 < i < |out| ensures out[i].0 != r[0].0 {
          FindIn(r[1..], r[0].0);
          PutFind(r[1..], k, v, r[0].0);
          FindIn(Put(r[1..], k, v), r[0].0);
          assert out[i] == Put(r[1..], k, v)[i - 1];
        }
      }
    }
  }

  lemma {:induction false} DeleteKeepsDistinct<K, V>(r: seq<(K, V)>, k: K)
    requires DistinctKeys(r)
    ensures DistinctKeys(Delete(r, k))
    decreases |r|
  {
    if |r| > 0 {
      DeleteKeepsDistinct(r[1..], k);
      if r[0].0 != k {
        var out := Delete(r, k);
        forall i | 0 < i < |out| ensures out[i].0 != r[0].0 {
          FindIn(r[1..], r[0].0);
          DeleteFind(r[1..], k, r[0].0);
          FindIn(Delete(r[1..], k), r[0].0);
          assert out[i] == Delete(r[1..], k)[i - 1];
        }
      }
    }
  }

  /** Deleting a key that is absent changes nothing. */
  lemma {:induction false} DeleteAbsent<K, V>(r: seq<(K, V)>, k: K)
    requires !Has(r, k)
    ensures Delete(r, k) == r
    decreases |r|
  {
    if |r| > 0 {
      DeleteAbsent(r[1..], k);
    }
  }

  /** Putting an absent key appends it. */
  lemma {:induction false} PutAbsent<K, V>(r: seq<(K, V)>, k: K, v: V)
    requires !Has(r, k)
    ensures Put(r, k, v) == r + [(k, v)]
    decreases |r|
  {
    if |r| > 0 {
      PutAbsent(r[1..], k, v);
    }
  }

  /** After the assignments, a key is present iff it was before or some
      entry carries it. */
  lemma {:induction false} PutAllHas<K, V>(r: seq<(K, V)>, entries: seq<(K, V)>, k: K)
    ensures Has(PutAll(r, entries), k) <==> Has(r, k) || exists i :: 0 <= i < |entries| && entries[i].0 == k
    decreases |entries|
  {
    if |entries| > 0 {
      var prefix := entries[..|entries| - 1];
      PutAllHas(r, prefix, k);
      PutFind(PutAll(r, prefix), entries[|entries| - 1].0, entries[|entries| - 1].1, k);
      if exists i :: 0 <= i < |entries| && entries[i].0 == k {
        var i :| 0 <= i < |entries| && entries[i].0 == k;
        if i < |prefix| {
          assert prefix[i].0 == k;
        }
      }
    }
  }

  /** The value under a key is that of the last entry carrying it. */
  lemma {:induction false} PutAllLastWins<K, V>(r: seq<(K, V)>, entries: seq<(K, V)>, i: nat)
    requires i < |entries|
    requires forall j :: i < j < |entries| ==> entries[j].0 != entries[i].0
    ensures Find(PutAll(r, entries), entries[i].0) == Some(entries[i].1)
    decreases |entries|
  {
    var last := entries[|entries| - 1];
    var prefix := entries[..|entries| - 1];
    PutFind(PutAll(r, prefix), last.0, last.1, entries[i].0);
    if i < |prefix| {
      PutAllLastWins(r, prefix, i);
    }
  }

  lemma {:induction false} PutAllKeepsDistinct<K, V>(r: seq<(K, V)>, entries: seq<(K, V)>)
    requires DistinctKeys(r)
    ensures DistinctKeys(PutAll(r, entries))
    decreases |entries|
  {
    if |entries| > 0 {
      var prefix := entries[..|entries| - 1];
      PutAllKeepsDistinct(r, prefix);
      PutKeepsDistinct(PutAll(r, prefix), entries[|entries| - 1].0, entries[|entries| - 1].1);
    }
  }

  lemma PutAllSnoc<K, V>(r: seq<(K, V)>, entries: seq<(K, V)>, k: K, v: V)
    ensures PutAll(r, entries + [(k, v)]) == Put(PutAll(r, entries), k, v)
  {
    assert (entries + [(k, v)])[..|entries|] == entries;
  }

  /** Every value the assignments leave under a key was there before or was
      assigned by an entry carrying that key. */
  lemma {:induction false} PutAllFrom<K, V>(r: seq<(K, V)>, entries: seq<(K, V)>, k: K)
    requires Has(PutAll(r, entries), k)
    ensures Find(PutAll(r, entries), k) == Find(r, k)
      || exists i :: 0 <= i < |entries| && entries[i] == (k, Find(PutAll(r, entries), k).value)
    decreases |entries|
  {
    if |entries| > 0 {
      var prefix := entries[..|entries| - 1];
      var last := entries[|entries| - 1];
      PutFind(PutAll(r, prefix), last.0, last.1, k);
      if last.0 != k {
        PutAllFrom(r, prefix, k);
        if Find(PutAll(r, entries), k) != Find(r, k) {
          var i :| 0 <= i < |prefix| && prefix[i] == (k, Find(PutAll(r, entries), k).value);
          assert entries[i] == prefix[i];
        }
      } else {
        assert entries[|entries| - 1] == (k, Find(PutAll(r, entries), k).value);
      }
    }
  }

  // ---------------------------------------------------------------------------
  // The order in which an object lists its own keys

  /** The entries whose key is an array index, in insertion order. */
  function IndexKeyed<K, V>(r: seq<(K, V)>, index: K -> Option<nat>): seq<(K, V)>
  {
    if |r| == 0 then []
    else (if index(r[0].0).Some? then [r[0]] else []) + IndexKeyed(r[1..], index)
  }

  /** The entries whose key is not an array index, in insertion order. */
  function NamedKeyed<K, V>(r: seq<(K, V)>, index: K -> Option<nat>): seq<(K, V)>
  {
    if |r| == 0 then []
    else (if index(r[0].0).None? then [r[0]] else []) + NamedKeyed(r[1..], index)
  }

  function IndexOr0<K>(index: K -> Option<nat>, k: K): nat {
    if index(k).Some? then index(k).value else 0
  }

  /** Puts e before the first entry with a larger index. */
  function InsertByIndex<K, V>(e: (K, V), s: seq<(K, V)>, index: K -> Option<nat>): (out: seq<(K, V)>)
    ensures |out| == |s| + 1
  {
    if |s| == 0 then [e]
    else if IndexOr0(index, e.0) <= IndexOr0(index, s[0].0) then [e] + s
    else [s[0]] + InsertByIndex(e, s[1..], index)
  }

  function SortByIndex<K, V>(s: seq<(K, V)>, index: K -> Option<nat>): (out: seq<(K, V)>)
    ensures |out| == |s|
  {
    if |s| == 0 then [] else InsertByIndex(s[0], SortByIndex(s[1..], index), index)
  }

  /** The entries in the order `Object.entries` lists them. */
  function OwnOrder<K, V>(r: seq<(K, V)>, index: K -> Option<nat>): seq<(K, V)> {
    SortByIndex(IndexKeyed(r, index), index) + NamedKeyed(r, index)
  }

  /** Each entry's index is at most the next one's. */
  predicate AscendingIndices<K, V>(s: seq<(K, V)>, index: K -> Option<nat>) {
    |s| <= 1 || (IndexOr0(index, s[0].0) <= IndexOr0(index, s[1].0) && AscendingIndices(s[1..], index))
  }

  lemma {:induction false} AscendingPairwise<K, V>(s: seq<(K, V)>, index: K -> Option<nat>, i: nat, j: nat)
    requires AscendingIndices(s, index) && i < j < |s|
    ensures IndexOr0(index, s[i].0) <= IndexOr0(index, s[j].0)
    decreases j
  {
    if i + 1 < j {
      AscendingPairwise(s, index, i, j - 1);
      AscendingStep(s, index, j - 1);
    } else {
      AscendingStep(s, index, i);
    }
  }

  lemma {:induction false} AscendingStep<K, V>(s: seq<(K, V)>, index: K -> Option<nat>, i: nat)
    requires AscendingIndices(s, index) && i + 1 < |s|
    ensures IndexOr0(index, s[i].0) <= IndexOr0(index, s[i + 1].0)
    decreases i
  {
    if i > 0 {
      AscendingStep(s[1..], index, i - 1);
      assert s[1..][i - 1] == s[i] && s[1..][i] == s[i + 1];
    }
  }

  lemma {:induction false} SplitByIndex<K, V>(r: seq<(K, V)>, index: K -> Option<nat>)
    ensures multiset(IndexKeyed(r, index)) + multiset(NamedKeyed(r, index)) == multiset(r)
    decreases |r|
  {
    if |r| > 0 {
      var t := r[1..];
      SplitByIndex(t, index);
      if index(r[0].0).Some? {
        SplitStep(r, IndexKeyed(t, index), NamedKeyed(t, index), IndexKeyed(r, index), NamedKeyed(r, index));
      } else {
        SplitStep(r, NamedKeyed(t, index), IndexKeyed(t, index), NamedKeyed(r, index), IndexKeyed(r, index));
      }
    }
  }

  /** Putting r's head in front of one of two parts of r's tail splits r. */
  lemma SplitStep<T>(r: seq<T>, a: seq<T>, b: seq<T>, a': seq<T>, b': seq<T>)
    requires |r| > 0 && multiset(a) + multiset(b) == multiset(r[1..])
    requires a' == [r[0]] + a && b' == b
    ensures multiset(a') + multiset(b') == multiset(r)
  {
    assert r == [r[0]] + r[1..];
  }

  /** Every entry kept by `IndexKeyed` has an array-index key. */
  lemma {:induction false} IndexKeyedAt<K, V>(r: seq<(K, V)>, index: K -> Option<nat>, k: nat)
    requires k < |IndexKeyed(r, index)|
    ensures index(IndexKeyed(r, index)[k].0).Some?
    decreases |r|
  {
    if index(r[0].0).None? {
      IndexKeyedAt(r[1..], index, k);
    } else if k > 0 {
      IndexKeyedAt(r[1..], index, k - 1);
    }
  }

  /** Every entry kept by `NamedKeyed` has a key that is no array index. */
  lemma {:induction false} NamedKeyedAt<K, V>(r: seq<(K, V)>, index: K -> Option<nat>, k: nat)
    requires k < |NamedKeyed(r, index)|
    ensures index(NamedKeyed(r, index)[k].0).None?
    decreases |r|
  {
    if index(r[0].0).Some? {
      NamedKeyedAt(r[1..], index, k);
    } else if k > 0 {
      NamedKeyedAt(r[1..], index, k - 1);
    }
  }

  /** An entry of a sequence sorted by index is found in it at some position. */
  lemma InMultisetAt<T>(x: T, s: seq<T>) returns (m: nat)
    requires x in multiset(s)
    ensures m < |s| && s[m] == x
  {
    assert x in s;
    m :| 0 <= m < |s| && s[m] == x;
  }

  lemma {:induction false} InsertByIndexElements<K, V>(e: (K, V), s: seq<(K, V)>, index: K -> Option<nat>)
    ensures forall k :: 0 <= k < |InsertByIndex(e, s, index)| ==>
      InsertByIndex(e, s, index)[k] == e || InsertByIndex(e, s, index)[k] in s
    ensures multiset(InsertByIndex(e, s, index)) == multiset(s) + multiset{e}
    decreases |s|
  {
    if |s| > 0 && IndexOr0(index, e.0) > IndexOr0(index, s[0].0) {
      InsertByIndexElements(e, s[1..], index);
      var rest := InsertByIndex(e, s[1..], index);
      assert InsertByIndex(e, s, index) == [s[0]] + rest;
      forall k | 0 < k < |rest| + 1 ensures ([s[0]] + rest)[k] == e || ([s[0]] + rest)[k] in s {
        assert ([s[0]] + rest)[k] == rest[k - 1];
      }
      assert s == [s[0]] + s[1..];
      assert multiset(s) == multiset{s[0]} + multiset(s[1..]);
    }
  }

  lemma {:induction false} InsertByIndexSorted<K, V>(e: (K, V), s: seq<(K, V)>, index: K -> Option<nat>)
    requires AscendingIndices(s, index)
    ensures AscendingIndices(InsertByIndex(e, s, index), index)
    ensures |s| > 0 ==> InsertByIndex(e, s, index)[0] == e || InsertByIndex(e, s, index)[0] == s[0]
    decreases |s|
  {
    if |s| > 0 && IndexOr0(index, e.0) > IndexOr0(index, s[0].0) {
      var tail := s[1..];
      InsertByIndexSorted(e, tail, index);
      var rest := InsertByIndex(e, tail, index);
      assert InsertByIndex(e, s, index) == [s[0]] + rest;
      assert ([s[0]] + rest)[1..] == rest;
    }
  }

  lemma {:induction false} SortByIndexSorted<K, V>(s: seq<(K, V)>, index: K -> Option<nat>)
    ensures AscendingIndices(SortByIndex(s, index), index)
    ensures multiset(SortByIndex(s, index)) == multiset(s)
    decreases |s|
  {
    if |s| > 0 {
      SortByIndexSorted(s[1..], index);
      InsertByIndexSorted(s[0], SortByIndex(s[1..], index), index);
      InsertByIndexElements(s[0], SortByIndex(s[1..], index), index);
      assert s == [s[0]] + s[1..];
      assert multiset(s) == multiset{s[0]} + multiset(s[1..]);
    }
  }

  /** The entries in front, the sorted array-index ones, all have an index. */
  lemma SortedKeyedHaveIndex<K, V>(r: seq<(K, V)>, index: K -> Option<nat>, k: nat)
    requires k < |SortByIndex(IndexKeyed(r, index), index)|
    ensures index(SortByIndex(IndexKeyed(r, index), index)[k].0).Some?
  {
    var keyed := IndexKeyed(r, index);
    var sorted := SortByIndex(keyed, index);
    SortByIndexSorted(keyed, index);
    assert sorted[k] in multiset(sorted);
    var m := InMultisetAt(sorted[k], keyed);
    IndexKeyedAt(r, index, m);
  }

  lemma OwnOrderAt<K, V>(r: seq<(K, V)>, index: K -> Option<nat>, k: nat)
    requires k < |OwnOrder(r, index)|
    ensures var n := |IndexKeyed(r, index)|;
      if k < n then OwnOrder(r, index)[k] == SortByIndex(IndexKeyed(r, index), index)[k] && index(OwnOrder(r, index)[k].0).Some?
      else OwnOrder(r, index)[k] == NamedKeyed(r, index)[k - n] && index(OwnOrder(r, index)[k].0).None?
  {
    if k < |IndexKeyed(r, index)| {
      SortedKeyedHaveIndex(r, index, k);
    } else {
      NamedKeyedAt(r, index, k - |IndexKeyed(r, index)|);
    }
  }

  /** `Object.entries` lists the same entries, the array-index keys first and
      ascending, the other keys after them in insertion order. */
  lemma OwnOrderCharacterised<K, V>(r: seq<(K, V)>, index: K -> Option<nat>)
    ensures multiset(OwnOrder(r, index)) == multiset(r)
    ensures forall i, j :: 0 <= i < j < |OwnOrder(r, index)| && index(OwnOrder(r, index)[j].0).Some? ==>
      index(OwnOrder(r, index)[i].0).Some?
    ensures forall i, j :: (0 <= i < j < |OwnOrder(r, index)|
      && index(OwnOrder(r, index)[i].0).Some? && index(OwnOrder(r, index)[j].0).Some?) ==>
        index(OwnOrder(r, index)[i].0).value <= index(OwnOrder(r, index)[j].0).value
    ensures OwnOrder(r, index)[|IndexKeyed(r, index)|..] == NamedKeyed(r, index)
  {
    var keyed := IndexKeyed(r, index);
    var sorted := SortByIndex(keyed, index);
    var o := OwnOrder(r, index);
    SortByIndexSorted(keyed, index);
    SplitByIndex(r, index);
    assert o == sorted + NamedKeyed(r, index);
    forall i, j | 0 <= i < j < |o| && index(o[j].0).Some?
      ensures index(o[i].0).Some? && index(o[i].0).value <= index(o[j].0).value
    {
      OwnOrderAt(r, index, i);
      OwnOrderAt(r, index, j);
      AscendingPairwise(sorted, index, i, j);
    }
  }

  lemma {:induction false} NoIndexKeys<K, V>(r: seq<(K, V)>, index: K -> Option<nat>)
    requires forall i :: 0 <= i < |r| ==> index(r[i].0).None?
    ensures IndexKeyed(r, index) == [] && NamedKeyed(r, index) == r
    decreases |r|
  {
    if |r| > 0 {
      NoIndexKeys(r[1..], index);
    }
  }

  /** An object with no array-index keys lists them in insertion order. */
  lemma OwnOrderWithoutIndices<K, V>(r: seq<(K, V)>, index: K -> Option<nat>)
    requires forall i :: 0 <= i < |r| ==> index(r[i].0).None?
    ensures OwnOrder(r, index) == r
  {
    NoIndexKeys(r, index);
  }
}
