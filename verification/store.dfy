/** The array operations the services use on an entity store (`find`,
    `findIndex`, `some`, `filter`, `slice`, `splice`) and the invariants an
    entity store keeps: ids strictly increasing in insertion order, all below
    the next-id counter, and names distinct under a normalising key. */
module Store {
  import opened Common

  /** What a `findAll` returns: the selected records and a `total`. */
  datatype Listing<T> = Listing(data: seq<T>, total: nat)

  /** `findIndex`: the first position whose element satisfies `p`, if any. */
  function FindIndex<T>(s: seq<T>, p: T -> bool): (r: Option<nat>)
    ensures r.Some? ==> r.value < |s| && p(s[r.value])
    ensures r.Some? ==> forall j :: 0 <= j < r.value ==> !p(s[j])
    ensures r.None? <==> forall j :: 0 <= j < |s| ==> !p(s[j])
  {
    if s == [] then None
    else if p(s[0]) then Some(0)
    else match FindIndex(s[1..], p)
      case None => None
      case Some(k) => Some(k + 1)
  }

  /** `some`: whether an element satisfies `p`. */
  function Any<T>(s: seq<T>, p: T -> bool): (r: bool)
    ensures r <==> exists i :: 0 <= i < |s| && p(s[i])
  {
    FindIndex(s, p).Some?
  }

  /** `filter`: the elements satisfying `p`, in their original order. */
  function Filter<T>(s: seq<T>, p: T -> bool): (r: seq<T>)
    ensures |r| <= |s|
    ensures forall x :: x in r ==> x in s && p(x)
    ensures forall i :: 0 <= i < |s| && p(s[i]) ==> s[i] in r
  {
    if s == [] then [] else (if p(s[0]) then [s[0]] else []) + Filter(s[1..], p)
  }

  /** Filtering by `p` and then by `q` keeps what one filter by their conjunction keeps. */
  lemma {:induction false} FilterTwice<T>(s: seq<T>, p: T -> bool, q: T -> bool, both: T -> bool)
    requires forall x :: both(x) == (p(x) && q(x))
    ensures Filter(Filter(s, p), q) == Filter(s, both)
  {
    if s != [] {
      FilterTwice(s[1..], p, q, both);
      if p(s[0]) {
        assert Filter(s, p) == [s[0]] + Filter(s[1..], p);
        assert Filter(s, p)[1..] == Filter(s[1..], p);
      } else {
        assert Filter(s, p) == Filter(s[1..], p);
      }
    }
  }

  /** Filters by predicates that agree on every element give the same result. */
  lemma {:induction false} FilterSame<T>(s: seq<T>, p: T -> bool, q: T -> bool)
    requires forall x :: p(x) == q(x)
    ensures Filter(s, p) == Filter(s, q)
  {
    if s != [] {
      FilterSame(s[1..], p, q);
    }
  }

  /** A filter that keeps everything is the identity. */
  lemma {:induction false} FilterAll<T>(s: seq<T>, p: T -> bool)
    requires forall x :: p(x)
    ensures Filter(s, p) == s
  {
    if s != [] {
      FilterAll(s[1..], p);
      assert s == [s[0]] + s[1..];
    }
  }

  /** A filter comes back empty exactly when no element satisfies its predicate. */
  lemma {:induction false} FilterEmpty<T>(s: seq<T>, p: T -> bool)
    ensures Filter(s, p) == [] <==> !Any(s, p)
  {
    if s != [] {
      FilterEmpty(s[1..], p);
      assert forall i :: 1 <= i < |s| ==> s[i] == s[1..][i - 1];
    }
  }

  /** `slice(0, size)` when `size` is given: a prefix of the requested length. */
  function Take<T>(s: seq<T>, size: Option<nat>): (r: seq<T>)
    ensures r <= s
    ensures |r| == if size.Some? && size.value < |s| then size.value else |s|
  {
    if size.Some? && size.value < |s| then s[..size.value] else s
  }

  /** `splice(i, 1)`: the sequence without its element at `i`, the others in order. */
  function RemoveAt<T>(s: seq<T>, i: nat): (r: seq<T>)
    requires i < |s|
    ensures |r| == |s| - 1
    ensures forall j :: 0 <= j < i ==> r[j] == s[j]
    ensures forall j :: i <= j < |r| ==> r[j] == s[j + 1]
  {
    s[..i] + s[i + 1..]
  }

  /** The ids present in a store. */
  function Ids<T>(s: seq<T>, id: T -> int): (ids: set<int>)
    ensures forall i :: 0 <= i < |s| ==> id(s[i]) in ids
    ensures forall x :: x in ids ==> exists i :: 0 <= i < |s| && id(s[i]) == x
  {
    set i | 0 <= i < |s| :: id(s[i])
  }

  /** Ids strictly increase in store order, so they are pairwise distinct. */
  ghost predicate IdsIncreasing<T>(s: seq<T>, id: T -> int) {
    forall i, j :: 0 <= i < j < |s| ==> id(s[i]) < id(s[j])
  }

  /** Every id is at least 1 and below the store's next-id counter. */
  ghost predicate IdsBelow<T>(s: seq<T>, id: T -> int, next: int) {
    forall i :: 0 <= i < |s| ==> 1 <= id(s[i]) < next
  }

  /** Among the elements with a non-empty key, no two share a key. */
  ghost predicate DistinctKeys<T>(s: seq<T>, key: T -> string) {
    forall i, j :: 0 <= i < |s| && 0 <= j < |s| && i != j && key(s[i]) != "" ==> key(s[i]) != key(s[j])
  }

  /** In a store with increasing ids, the element with a given id sits at exactly one position. */
  lemma IdsLocate<T>(s: seq<T>, id: T -> int, k: nat)
    requires IdsIncreasing(s, id) && k < |s|
    ensures forall j :: 0 <= j < |s| && id(s[j]) == id(s[k]) ==> j == k
  {
  }

  /** Appending a record that carries the counter's value, and advancing the
      counter, keeps the id invariants. */
  lemma AppendFresh<T>(s: seq<T>, id: T -> int, next: int, x: T)
    requires IdsIncreasing(s, id) && IdsBelow(s, id, next)
    requires id(x) == next && 1 <= next
    ensures IdsIncreasing(s + [x], id) && IdsBelow(s + [x], id, next + 1)
  {
  }

  /** Replacing a record by one with the same id keeps the id invariants. */
  lemma ReplaceSameId<T>(s: seq<T>, id: T -> int, next: int, k: nat, x: T)
    requires IdsIncreasing(s, id) && IdsBelow(s, id, next)
    requires k < |s| && id(x) == id(s[k])
    ensures IdsIncreasing(s[k := x], id) && IdsBelow(s[k := x], id, next)
  {
  }

  /** Removing a record keeps the id invariants. */
  lemma RemoveKeeps<T>(s: seq<T>, id: T -> int, next: int, k: nat)
    requires IdsIncreasing(s, id) && IdsBelow(s, id, next) && k < |s|
    ensures IdsIncreasing(RemoveAt(s, k), id) && IdsBelow(RemoveAt(s, k), id, next)
  {
    var r := RemoveAt(s, k);
    forall i, j | 0 <= i < j < |r| ensures id(r[i]) < id(r[j]) {
      var i' := if i < k then i else i + 1;
      var j' := if j < k then j else j + 1;
      assert r[i] == s[i'] && r[j] == s[j'];
    }
  }

  /** Removing a record keeps the keys distinct. */
  lemma RemoveKeepsDistinct<T>(s: seq<T>, key: T -> string, k: nat)
    requires DistinctKeys(s, key) && k < |s|
    ensures DistinctKeys(RemoveAt(s, k), key)
  {
    var r := RemoveAt(s, k);
    forall i, j | 0 <= i < |r| && 0 <= j < |r| && i != j && key(r[i]) != ""
      ensures key(r[i]) != key(r[j])
    {
      var i' := if i < k then i else i + 1;
      var j' := if j < k then j else j + 1;
      assert r[i] == s[i'] && r[j] == s[j'];
    }
  }

  /** Appending a record whose key is empty or clashes with no key already present keeps the keys distinct. */
  lemma AppendDistinct<T>(s: seq<T>, key: T -> string, x: T)
    requires DistinctKeys(s, key)
    requires key(x) != "" ==> forall i :: 0 <= i < |s| ==> key(s[i]) != key(x)
    ensures DistinctKeys(s + [x], key)
  {
  }

  /** Replacing the record at `k` by one whose key is empty or clashes with no
      other record's key keeps the keys distinct. */
  lemma ReplaceDistinct<T>(s: seq<T>, key: T -> string, k: nat, x: T)
    requires DistinctKeys(s, key) && k < |s|
    requires key(x) != "" ==> forall i :: 0 <= i < |s| && i != k ==> key(s[i]) != key(x)
    ensures DistinctKeys(s[k := x], key)
  {
  }
}
