/** The two `Array.prototype.filter` shapes the pages use: a filter on the
    element (`photos.filter(p => p.photo_type === t)`) and a filter on the
    position (`photos.filter((_, i) => i !== index)`). */
module Sequences {

  /** `s.filter(keep)`: the elements that satisfy `keep`, in their order. */
  function Filter<T>(s: seq<T>, keep: T -> bool): (r: seq<T>)
    ensures |r| <= |s|
    ensures forall i :: 0 <= i < |r| ==> r[i] in s && keep(r[i])
    ensures forall i :: 0 <= i < |s| && keep(s[i]) ==> s[i] in r
  {
    if s == [] then []
    else
      var rest := Filter(s[1..], keep);
      assert forall i :: 1 <= i < |s| ==> s[i] == s[1..][i - 1];
      if keep(s[0]) then [s[0]] + rest else rest
  }

  /** Filtering distributes over concatenation: the kept elements of a
      list appear in the list's own order. */
  lemma {:induction false} FilterConcat<T>(a: seq<T>, b: seq<T>, keep: T -> bool)
    ensures Filter(a + b, keep) == Filter(a, keep) + Filter(b, keep)
  {
    if a == [] {
      assert a + b == b;
    } else {
      assert (a + b)[0] == a[0];
      assert (a + b)[1..] == a[1..] + b;
      FilterConcat(a[1..], b, keep);
    }
  }

  /** Filtering keeps every copy of a kept element and no copy of another. */
  lemma {:induction false} FilterMultiplicity<T>(s: seq<T>, keep: T -> bool, x: T)
    ensures multiset(Filter(s, keep))[x] == if keep(x) then multiset(s)[x] else 0
  {
    if s != [] {
      assert s == [s[0]] + s[1..];
      FilterMultiplicity(s[1..], keep, x);
    }
  }

  /** Filtering with a predicate that holds everywhere keeps the list. */
  lemma {:induction false} FilterAll<T>(s: seq<T>, keep: T -> bool)
    requires forall i :: 0 <= i < |s| ==> keep(s[i])
    ensures Filter(s, keep) == s
  {
    if s != [] {
      FilterAll(s[1..], keep);
    }
  }

  /** `s.filter((_, i) => i !== index)`: the list without the element at
      position `index`; an index outside the list keeps everything. */
  function WithoutIndex<T>(s: seq<T>, index: int): (r: seq<T>)
    decreases |s|
  {
    if s == [] then []
    else
      var last := |s| - 1;
      WithoutIndex(s[..last], index) + (if last != index then [s[last]] else [])
  }

  /** Removing position `index` leaves the elements before it and the
      elements after it, each run in its order; any other index removes
      nothing. */
  lemma {:induction false} WithoutIndexIsSplice<T>(s: seq<T>, index: int)
    ensures 0 <= index < |s| ==> WithoutIndex(s, index) == s[..index] + s[index + 1..]
    ensures !(0 <= index < |s|) ==> WithoutIndex(s, index) == s
    decreases |s|
  {
    if s != [] {
      var last := |s| - 1;
      WithoutIndexIsSplice(s[..last], index);
      if index == last {
        assert s[..last][..index] == s[..index];
        assert s[index + 1..] == [];
      } else if 0 <= index < last {
        assert s[..last][..index] == s[..index];
        assert s[..last][index + 1..] + [s[last]] == s[index + 1..];
      } else {
        assert s[..last] + [s[last]] == s;
      }
    }
  }
}
