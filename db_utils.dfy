/** DBUtils of the score library: clearing, searching and unordered removal on an ArrayDB. */
module DBUtils {
  import opened Storage

  /** No value occurs twice. */
  ghost predicate Distinct<T>(s: seq<T>) {
    forall i, j :: 0 <= i < j < |s| ==> s[i] != s[j]
  }

  /** The index of the first occurrence of `x`. */
  function IndexOf<T(==)>(s: seq<T>, x: T): (k: nat)
    requires x in s
    ensures k < |s| && s[k] == x
    ensures forall j :: 0 <= j < k ==> s[j] != x
  {
    if s[0] == x then 0 else 1 + IndexOf(s[1..], x)
  }

  /**
   * What `removeFromArraydb` leaves behind: the first occurrence of `x` is overwritten
   * by the last element and the last slot is dropped; without an occurrence, nothing changes.
   */
  function SwapRemove<T(==)>(s: seq<T>, x: T): (r: seq<T>)
    ensures x !in s ==> r == s
    ensures x in s ==> |r| == |s| - 1
    ensures x in s ==> forall j :: 0 <= j < |r| && j != IndexOf(s, x) ==> r[j] == s[j]
    ensures x in s && IndexOf(s, x) < |r| ==> r[IndexOf(s, x)] == s[|s| - 1]
  {
    if x in s then s[IndexOf(s, x) := s[|s| - 1]][..|s| - 1] else s
  }

  /** Exactly one occurrence of `x` leaves: the result is the input minus one `x`, as a multiset. */
  lemma SwapRemoveMultiset<T>(s: seq<T>, x: T)
    requires x in s
    ensures multiset(SwapRemove(s, x)) == multiset(s) - multiset{x}
  {
    var k, n := IndexOf(s, x), |s|;
    var t := s[k := s[n - 1]];
    assert multiset(t) == multiset(s) - multiset{x} + multiset{s[n - 1]};
    assert t == t[..n - 1] + [s[n - 1]];
    assert multiset(t) == multiset(t[..n - 1]) + multiset{s[n - 1]};
    assert multiset(t[..n - 1]) == multiset(t) - multiset{s[n - 1]};
    assert multiset(t[..n - 1]) == multiset(s) - multiset{x};
    assert SwapRemove(s, x) == t[..n - 1];
  }

  /** On a list without duplicates, removal keeps it duplicate-free and drops exactly `x`. */
  lemma SwapRemoveDistinct<T>(s: seq<T>, x: T)
    requires Distinct(s)
    ensures Distinct(SwapRemove(s, x))
    ensures forall y :: y in SwapRemove(s, x) <==> y in s && y != x
  {
    if x in s {
      var r := SwapRemove(s, x);
      SwapRemoveMultiset(s, x);
      forall y ensures y in r <==> y in s && y != x {
        if y in s && y != x {
          assert multiset(s)[y] > 0;
          assert multiset(r)[y] > 0;
        }
        if y in r {
          assert multiset(r)[y] > 0;
          if y == x {
            DistinctCountsOne(s, x);
            assert false;
          }
        }
      }
      var k, n := IndexOf(s, x), |s|;
      forall i, j | 0 <= i < j < |r| ensures r[i] != r[j] {
        var i' := if i == k then n - 1 else i;
        var j' := if j == k then n - 1 else j;
        assert r[i] == s[i'] && r[j] == s[j'] && i' != j';
      }
    }
  }

  /** In a duplicate-free list an element occurs exactly once. */
  lemma {:induction false} DistinctCountsOne<T>(s: seq<T>, x: T)
    requires Distinct(s) && x in s
    ensures multiset(s)[x] == 1
  {
    assert s == [s[0]] + s[1..];
    if s[0] == x {
      assert x !in s[1..];
    } else {
      DistinctCountsOne(s[1..], x);
    }
  }

  /** `clear`: call `removeLast` once per element. */
  method Clear<T>(db: ArrayDB<T>)
    modifies db
    ensures db.elems == []
  {
    var size := |db.elems|;
    for i := 0 to size
      invariant db.elems == old(db.elems)[..size - i]
    {
      var _ := db.RemoveLast();
    }
  }

  /** `arrayDbContains`: scan by index until an element equals `item`. */
  method ArrayDbContains<T(==)>(db: ArrayDB<T>, item: T) returns (found: bool)
    ensures found <==> item in db.elems
  {
    var size := |db.elems|;
    for i := 0 to size
      invariant forall j :: 0 <= j < i ==> db.elems[j] != item
    {
      if db.elems[i] == item {
        return true;
      }
    }
    return false;
  }

  /**
   * `removeFromArraydb`: on an empty list return false; otherwise remember the last
   * element, find the first slot equal to `item`, overwrite it with that last element
   * and pop the last slot.
   */
  method RemoveFromArraydb<T(==)>(db: ArrayDB<T>, item: T) returns (removed: bool)
    modifies db
    ensures removed <==> item in old(db.elems)
    ensures db.elems == SwapRemove(old(db.elems), item)
  {
    var size := |db.elems|;
    if size < 1 {
      return false;
    }
    var top := db.elems[size - 1];
    for i := 0 to size
      invariant db.elems == old(db.elems)
      invariant forall j :: 0 <= j < i ==> db.elems[j] != item
    {
      if db.elems[i] == item {
        assert IndexOf(db.elems, item) == i;
        db.Set(i, top);
        var _ := db.RemoveLast();
        return true;
      }
    }
    return false;
  }
}
