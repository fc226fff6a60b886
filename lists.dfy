/** Array and set operations the screens share: `Array.prototype.filter`,
    `Array.prototype.slice` with its index clamping, and the copy-then-toggle
    of a `Set`. */
module Lists {

  /** `s.filter(keep)` */
  function Filter<T>(s: seq<T>, keep: T -> bool): (r: seq<T>)
    ensures |r| <= |s|
  {
    if |s| == 0 then []
    else if keep(s[0]) then [s[0]] + Filter(s[1..], keep)
    else Filter(s[1..], keep)
  }

  /** a is s with some elements left out, order kept. */
  predicate IsSubsequence<T(==)>(a: seq<T>, s: seq<T>)
    decreases |s|
  {
    |a| == 0 || (|s| > 0 && ((a[0] == s[0] && IsSubsequence(a[1..], s[1..])) || IsSubsequence(a, s[1..])))
  }

  /** The filter keeps exactly the elements that pass, each in its place. */
  lemma {:induction false} FilterMembers<T>(s: seq<T>, keep: T -> bool, x: T)
    ensures x in Filter(s, keep) <==> x in s && keep(x)
    decreases |s|
  {
    if |s| > 0 {
      FilterMembers(s[1..], keep, x);
      assert s == [s[0]] + s[1..];
    }
  }

  lemma {:induction false} FilterIsSubsequence<T>(s: seq<T>, keep: T -> bool)
    ensures IsSubsequence(Filter(s, keep), s)
    decreases |s|
  {
    if |s| > 0 {
      FilterIsSubsequence(s[1..], keep);
      if keep(s[0]) {
        assert Filter(s, keep)[1..] == Filter(s[1..], keep);
      }
    }
  }

  /** A filter every element passes gives the array back. */
  lemma {:induction false} FilterKeepsAll<T>(s: seq<T>, keep: T -> bool)
    requires forall i :: 0 <= i < |s| ==> keep(s[i])
    ensures Filter(s, keep) == s
    decreases |s|
  {
    if |s| > 0 {
      FilterKeepsAll(s[1..], keep);
      assert s == [s[0]] + s[1..];
    }
  }

  /** A filter no element passes gives the empty array. */
  lemma {:induction false} FilterDropsAll<T>(s: seq<T>, keep: T -> bool)
    requires forall i :: 0 <= i < |s| ==> !keep(s[i])
    ensures Filter(s, keep) == []
    decreases |s|
  {
    if |s| > 0 {
      FilterDropsAll(s[1..], keep);
    }
  }

  lemma {:induction false} FilterAppend<T>(a: seq<T>, b: seq<T>, keep: T -> bool)
    ensures Filter(a + b, keep) == Filter(a, keep) + Filter(b, keep)
    decreases |a|
  {
    if |a| == 0 {
      assert a + b == b;
    } else {
      assert (a + b)[1..] == a[1..] + b;
      FilterAppend(a[1..], b, keep);
    }
  }

  function Max(a: int, b: int): int {
    if a >= b then a else b
  }

  function Min(a: int, b: int): int {
    if a <= b then a else b
  }

  /** Where a `slice` index lands: negative counts from the end, and either
      way the result is clamped to [0, n]. */
  function SliceIndex(i: int, n: nat): (k: nat)
    ensures k <= n
    ensures i >= 0 ==> k == Min(i, n)
    ensures i < 0 ==> k == Max(n + i, 0)
  {
    if i < 0 then Max(n + i, 0) else Min(i, n)
  }

  /** `s.slice(start, end)` */
  function Slice<T>(s: seq<T>, start: int, end: int): (r: seq<T>)
    ensures |r| <= |s|
  {
    var from := SliceIndex(start, |s|);
    var to := SliceIndex(end, |s|);
    if from >= to then [] else s[from..to]
  }

  /** `s.slice(start)` */
  function SliceFrom<T>(s: seq<T>, start: int): (r: seq<T>)
    ensures |r| <= |s|
  {
    Slice(s, start, |s|)
  }

  /** With non-negative bounds a slice holds at most end − start elements,
      taken in order from position start. */
  lemma SliceBounds<T>(s: seq<T>, start: nat, end: nat)
    requires start <= end
    ensures |Slice(s, start, end)| <= end - start
    ensures forall i :: 0 <= i < |Slice(s, start, end)| ==> start + i < |s| && Slice(s, start, end)[i] == s[start + i]
  {
  }

  /** Adjacent slices put back together give the slice over both. */
  lemma SliceAdjacent<T>(s: seq<T>, a: nat, b: nat, c: nat)
    requires a <= b <= c
    ensures Slice(s, a, b) + Slice(s, b, c) == Slice(s, a, c)
  {
    var n := |s|;
    if Min(b, n) <= Min(a, n) {
      assert Slice(s, a, b) == [];
    } else if Min(c, n) <= Min(b, n) {
      assert Slice(s, b, c) == [];
    } else {
      assert s[Min(a, n)..Min(b, n)] + s[Min(b, n)..Min(c, n)] == s[Min(a, n)..Min(c, n)];
    }
  }

  /** Copy the set, then delete x if it holds it and add it otherwise. */
  function Toggle<T>(s: set<T>, x: T): (r: set<T>) {
    if x in s then s - {x} else s + {x}
  }

  /** A toggle flips x's membership, leaves every other element alone, and
      two toggles give the set back. */
  lemma ToggleFlips<T>(s: set<T>, x: T, y: T)
    ensures y in Toggle(s, x) <==> (if y == x then y !in s else y in s)
    ensures Toggle(Toggle(s, x), x) == s
  {
  }

  /** Append x unless already present (`if (!list.includes(x)) list.push(x)`). */
  function AppendNew<T(==)>(s: seq<T>, x: T): (r: seq<T>)
    ensures x in r
  {
    if x in s then s else s + [x]
  }

  /** `list.filter(y => y !== x)` */
  function Without<T(==)>(s: seq<T>, x: T): (r: seq<T>)
    ensures x !in r
    ensures |r| <= |s|
  {
    if |s| == 0 then []
    else if s[0] == x then Without(s[1..], x)
    else [s[0]] + Without(s[1..], x)
  }

  predicate NoDuplicates<T(==)>(s: seq<T>) {
    forall i, j :: 0 <= i < j < |s| ==> s[i] != s[j]
  }

  /** The array toggle `includes(x) ? filter(!== x) : [...s, x]`. */
  function ToggleIn<T(==)>(s: seq<T>, x: T): seq<T> {
    if x in s then Without(s, x) else s + [x]
  }

  lemma {:induction false} WithoutMembers<T>(s: seq<T>, x: T, y: T)
    ensures y in Without(s, x) <==> y in s && y != x
    decreases |s|
  {
    if |s| > 0 {
      WithoutMembers(s[1..], x, y);
      assert s == [s[0]] + s[1..];
    }
  }

  lemma {:induction false} WithoutAbsent<T>(s: seq<T>, x: T)
    requires x !in s
    ensures Without(s, x) == s
    decreases |s|
  {
    if |s| > 0 {
      WithoutAbsent(s[1..], x);
      assert s == [s[0]] + s[1..];
    }
  }

  lemma {:induction false} WithoutKeepsDistinct<T>(s: seq<T>, x: T)
    requires NoDuplicates(s)
    ensures NoDuplicates(Without(s, x))
    decreases |s|
  {
    if |s| > 0 {
      WithoutKeepsDistinct(s[1..], x);
      if s[0] != x {
        var r := Without(s, x);
        forall i | 0 < i < |r| ensures r[i] != s[0] {
          WithoutMembers(s[1..], x, s[0]);
          assert r[i] in Without(s[1..], x);
        }
      }
    }
  }

  /** The array toggle flips x's membership, keeps every other element,
      never introduces a duplicate, and two toggles of an absent x give
      the array back. */
  lemma ToggleInFlips<T>(s: seq<T>, x: T, y: T)
    ensures y in ToggleIn(s, x) <==> (if y == x then x !in s else y in s)
    ensures NoDuplicates(s) ==> NoDuplicates(ToggleIn(s, x))
    ensures x !in s ==> ToggleIn(ToggleIn(s, x), x) == s
  {
    WithoutMembers(s, x, y);
    if NoDuplicates(s) {
      if x in s {
        WithoutKeepsDistinct(s, x);
      } else {
        assert forall i :: 0 <= i < |s| ==> s[i] != x;
      }
    }
    if x !in s {
      WithoutAppendAbsent(s, x);
    }
  }

  lemma {:induction false} WithoutAppendAbsent<T>(s: seq<T>, x: T)
    requires x !in s
    ensures Without(s + [x], x) == s
    decreases |s|
  {
    if |s| == 0 {
      assert s + [x] == [x];
    } else {
      assert (s + [x])[1..] == s[1..] + [x];
      WithoutAppendAbsent(s[1..], x);
    }
  }
}
