/**
 * What the MongoDB-backed repositories do to a collection, on an in-memory
 * map from `_id` to the stored entity: filtered reads capped at 100
 * documents (`to_list(length=100)`), sorting, and the range shift behind
 * `reorder` in skill_repository.py and project_repository.py.
 */
module Stores {
  import opened Common

  /** `to_list(length=100)`: no read returns more than this many documents. */
  const PageLimit: nat := 100

  function Min(a: nat, b: nat): (m: nat)
    ensures m <= a && m <= b && (m == a || m == b)
  {
    if a <= b then a else b
  }

  /** A collection of profile-owned, ordered entities keyed by `_id`. */
  type Store<T> = map<Id, Entry<T>>

  /** Every document is stored under its own id. */
  predicate Keyed<T>(docs: Store<T>) {
    forall id :: id in docs ==> docs[id].id == id
  }

  /** Different keys hold different documents. */
  predicate Injective<X(==)>(docs: map<Id, X>) {
    forall a, b :: a in docs && b in docs && a != b ==> docs[a] != docs[b]
  }

  lemma KeyedIsInjective<T>(docs: Store<T>)
    requires Keyed(docs)
    ensures Injective(docs)
  {
  }

  /** The ids of the documents of one profile: `find({"profile_id": p})`. */
  function OfProfile<T>(docs: Store<T>, p: Id): set<Id> {
    set id | id in docs && docs[id].profileId == p
  }

  /** No element occurs twice. */
  predicate Distinct<X(==)>(s: seq<X>) {
    forall i, j :: 0 <= i < j < |s| ==> s[i] != s[j]
  }

  /** `a` may come before `b` in an ascending (or, with `asc` false, descending) sort. */
  predicate InOrder(a: int, b: int, asc: bool) {
    if asc then a <= b else b <= a
  }

  predicate SortedBy<X>(s: seq<X>, key: X -> int, asc: bool) {
    forall i, j :: 0 <= i < j < |s| ==> InOrder(key(s[i]), key(s[j]), asc)
  }

  /** The sort key of `sort("order_index", ...)`. */
  function IndexKey<T>(e: Entry<T>): int {
    e.orderIndex
  }

  // ---------------------------------------------------------------------
  // Reads

  /**
   * `find(filter).to_list(length=limit)`: up to `limit` distinct documents
   * whose ids are in `matching`, in no particular order; all of them when
   * there are not more than `limit`.
   */
  method Collect<X(==)>(docs: map<Id, X>, matching: set<Id>, limit: nat) returns (r: seq<X>, ghost ids: seq<Id>)
    requires matching <= docs.Keys
    requires Injective(docs)
    ensures |ids| == |r| && Distinct(ids) && Distinct(r)
    ensures forall i :: 0 <= i < |r| ==> ids[i] in matching && docs[ids[i]] == r[i]
    ensures |r| == Min(|matching|, limit)
    ensures |matching| <= limit ==> forall id :: id in matching ==> docs[id] in r
  {
    var rest := matching;
    r, ids := [], [];
    while rest != {} && |r| < limit
      invariant rest <= matching
      invariant |ids| == |r| <= limit
      invariant |matching - rest| == |ids|
      invariant forall i :: 0 <= i < |ids| ==> ids[i] in matching && ids[i] !in rest && docs[ids[i]] == r[i]
      invariant forall id :: id in matching && id !in rest ==> id in ids
      invariant Distinct(ids)
      decreases |rest|
    {
      var id :| id in rest;
      assert matching - (rest - {id}) == (matching - rest) + {id};
      r, ids := r + [docs[id]], ids + [id];
      rest := rest - {id};
    }
    DrawnIsDistinct(docs, ids, r);
    assert |matching| == |matching - rest| + |rest|;
  }

  /** Documents read under distinct keys of an injective map are distinct. */
  lemma DrawnIsDistinct<X>(docs: map<Id, X>, ids: seq<Id>, r: seq<X>)
    requires Injective(docs) && Distinct(ids) && |ids| == |r|
    requires forall i :: 0 <= i < |r| ==> ids[i] in docs && docs[ids[i]] == r[i]
    ensures Distinct(r)
  {
  }

  /**
   * An insertion sort by `key`, ascending when `asc` holds and descending
   * otherwise; a permutation of its input, keeping distinct elements distinct.
   */
  method SortBy<X(==)>(s: seq<X>, key: X -> int, asc: bool) returns (r: seq<X>)
    ensures multiset(r) == multiset(s) && |r| == |s|
    ensures SortedBy(r, key, asc)
    ensures Distinct(s) ==> Distinct(r)
  {
    r := [];
    var i := 0;
    while i < |s|
      invariant 0 <= i <= |s|
      invariant multiset(r) == multiset(s[..i])
      invariant SortedBy(r, key, asc)
      invariant Distinct(s) ==> Distinct(r)
    {
      var x := s[i];
      var j := 0;
      while j < |r| && InOrder(key(r[j]), key(x), asc)
        invariant 0 <= j <= |r|
        invariant forall k :: 0 <= k < j ==> InOrder(key(r[k]), key(x), asc)
      {
        j := j + 1;
      }
      InsertKeepsSorted(r, j, x, key, asc);
      if Distinct(s) {
        InsertKeepsDistinct(s, i, r, j);
      }
      assert r[..j] + r[j..] == r;
      assert s[..i + 1] == s[..i] + [x];
      r := r[..j] + [x] + r[j..];
      i := i + 1;
    }
    assert s[..i] == s;
  }

  /** Inserting `x` after every element that may precede it keeps a sorted sequence sorted. */
  lemma InsertKeepsSorted<X>(r: seq<X>, j: nat, x: X, key: X -> int, asc: bool)
    requires j <= |r| && SortedBy(r, key, asc)
    requires forall k :: 0 <= k < j ==> InOrder(key(r[k]), key(x), asc)
    requires j < |r| ==> !InOrder(key(r[j]), key(x), asc)
    ensures SortedBy(r[..j] + [x] + r[j..], key, asc)
  {
    var t := r[..j] + [x] + r[j..];
    assert forall k :: 0 <= k < |t| ==> t[k] == if k < j then r[k] else if k == j then x else r[k - 1];
    assert forall k :: j <= k < |r| ==> InOrder(key(x), key(r[k]), asc) by {
      forall k | j <= k < |r|
        ensures InOrder(key(x), key(r[k]), asc)
      {
        assert InOrder(key(r[j]), key(r[k]), asc) || j == k;
      }
    }
  }

  /** Inserting the next element of a distinct sequence keeps the partial result distinct. */
  lemma InsertKeepsDistinct<X>(s: seq<X>, i: nat, r: seq<X>, j: nat)
    requires i < |s| && Distinct(s) && j <= |r|
    requires multiset(r) == multiset(s[..i]) && Distinct(r)
    ensures Distinct(r[..j] + [s[i]] + r[j..])
  {
    var t := r[..j] + [s[i]] + r[j..];
    assert forall k :: 0 <= k < |t| ==> t[k] == if k < j then r[k] else if k == j then s[i] else r[k - 1];
    forall k | 0 <= k < |r|
      ensures r[k] != s[i]
    {
      assert r[k] in multiset(s[..i]);
      var m :| 0 <= m < i && s[..i][m] == r[k];
    }
  }

  /**
   * `find(filter).sort(key, direction)` before any limit: every match,
   * each once, in key order.
   */
  method SortAll<X(==)>(docs: map<Id, X>, matching: set<Id>, key: X -> int, asc: bool) returns (sorted: seq<X>)
    requires matching <= docs.Keys
    requires Injective(docs)
    ensures Distinct(sorted) && SortedBy(sorted, key, asc)
    ensures |sorted| == |matching|
    ensures forall x :: x in sorted ==> exists id :: id in matching && docs[id] == x
    ensures forall id :: id in matching ==> docs[id] in sorted
  {
    var all, ids := Collect(docs, matching, |matching|);
    sorted := SortBy(all, key, asc);
    PermutationKeepsAll(docs, matching, all, sorted);
    forall x | x in sorted
      ensures exists id :: id in matching && docs[id] == x
    {
      assert x in multiset(all);
      var i :| 0 <= i < |all| && all[i] == x;
      assert ids[i] in matching && docs[ids[i]] == x;
    }
  }

  lemma PermutationKeepsAll<X>(docs: map<Id, X>, matching: set<Id>, all: seq<X>, sorted: seq<X>)
    requires matching <= docs.Keys
    requires forall id :: id in matching ==> docs[id] in all
    requires multiset(sorted) == multiset(all)
    ensures forall id :: id in matching ==> docs[id] in sorted
  {
    forall id | id in matching
      ensures docs[id] in sorted
    {
      assert docs[id] in multiset(all);
    }
  }

  /**
   * `find(filter).sort(key, direction).to_list(length=100)`: MongoDB sorts
   * every match and then keeps the first 100.
   */
  method FirstSorted<X(==)>(docs: map<Id, X>, matching: set<Id>, key: X -> int, asc: bool) returns (r: seq<X>)
    requires matching <= docs.Keys
    requires Injective(docs)
    ensures Distinct(r) && SortedBy(r, key, asc)
    ensures |r| == Min(|matching|, PageLimit)
    ensures forall x :: x in r ==> exists id :: id in matching && docs[id] == x
    ensures |matching| <= PageLimit ==> forall id :: id in matching ==> docs[id] in r
    ensures forall id :: id in matching && docs[id] !in r ==>
              forall i :: 0 <= i < |r| ==> InOrder(key(r[i]), key(docs[id]), asc)
  {
    var sorted := SortAll(docs, matching, key, asc);
    r := sorted[..Min(|sorted|, PageLimit)];
    PrefixOfSorted(docs, matching, sorted, |r|, key, asc);
  }

  /** The first `k` elements of a sorted listing of every match. */
  lemma PrefixOfSorted<X>(docs: map<Id, X>, matching: set<Id>, sorted: seq<X>, k: nat, key: X -> int, asc: bool)
    requires matching <= docs.Keys && k <= |sorted|
    requires Distinct(sorted) && SortedBy(sorted, key, asc)
    requires forall x :: x in sorted ==> exists id :: id in matching && docs[id] == x
    requires forall id :: id in matching ==> docs[id] in sorted
    ensures Distinct(sorted[..k]) && SortedBy(sorted[..k], key, asc)
    ensures forall x :: x in sorted[..k] ==> exists id :: id in matching && docs[id] == x
    ensures k == |sorted| ==> forall id :: id in matching ==> docs[id] in sorted[..k]
    ensures forall id :: id in matching && docs[id] !in sorted[..k] ==>
              forall i :: 0 <= i < k ==> InOrder(key(sorted[i]), key(docs[id]), asc)
  {
    assert forall i :: 0 <= i < k ==> sorted[..k][i] == sorted[i];
    forall x | x in sorted[..k]
      ensures exists id :: id in matching && docs[id] == x
    {
      assert x in sorted;
    }
    forall id | id in matching && docs[id] !in sorted[..k]
      ensures forall i :: 0 <= i < k ==> InOrder(key(sorted[i]), key(docs[id]), asc)
    {
      SortedPrefixIsFirst(sorted, k, key, asc, docs[id]);
    }
  }

  /** An element of a sorted sequence outside its first `k` elements comes after each of them. */
  lemma SortedPrefixIsFirst<X>(sorted: seq<X>, k: nat, key: X -> int, asc: bool, y: X)
    requires k <= |sorted| && SortedBy(sorted, key, asc)
    requires y in sorted && y !in sorted[..k]
    ensures forall i :: 0 <= i < k ==> InOrder(key(sorted[i]), key(y), asc)
  {
    var j :| 0 <= j < |sorted| && sorted[j] == y;
    assert forall m :: 0 <= m < k ==> sorted[..k][m] == sorted[m];
  }

  // ---------------------------------------------------------------------
  // Reorder

  /** The indices `update_many` shifts: (old, new] moving forward, [new, old) moving backward. */
  predicate InShiftRange(k: int, oldIndex: int, newIndex: int) {
    if oldIndex < newIndex then oldIndex < k <= newIndex else newIndex <= k < oldIndex
  }

  /** `$inc` by -1 moving forward, by +1 moving backward. */
  function ShiftDelta(oldIndex: int, newIndex: int): int {
    if oldIndex < newIndex then -1 else 1
  }

  /** The `update_many` step: the profile's documents in the range move by one. */
  function Shifted<T>(docs: Store<T>, p: Id, oldIndex: int, newIndex: int): Store<T> {
    map id | id in docs :: if docs[id].profileId == p && InShiftRange(docs[id].orderIndex, oldIndex, newIndex)
                           then docs[id].(orderIndex := docs[id].orderIndex + ShiftDelta(oldIndex, newIndex))
                           else docs[id]
  }

  /**
   * `reorder(profile_id, entity_id, new_order_index)`: an unknown id or an
   * unchanged index does nothing; otherwise the range is shifted within
   * `profile_id` and then the document with `entity_id` (looked up by id
   * alone) gets the new index.
   */
  function Reordered<T>(docs: Store<T>, p: Id, entityId: Id, newIndex: int): Store<T> {
    if entityId !in docs || docs[entityId].orderIndex == newIndex then docs
    else
      var shifted := Shifted(docs, p, docs[entityId].orderIndex, newIndex);
      shifted[entityId := shifted[entityId].(orderIndex := newIndex)]
  }

  /**
   * The effect of a real move on every document: the mover takes the new
   * index; a document of `p` in the shifted range moves one step towards
   * the old index; nothing else changes, and only `order_index` ever does.
   */
  lemma ReorderEffect<T>(docs: Store<T>, p: Id, entityId: Id, newIndex: int)
    requires entityId in docs && docs[entityId].orderIndex != newIndex
    ensures var r := Reordered(docs, p, entityId, newIndex);
            var o := docs[entityId].orderIndex;
            r.Keys == docs.Keys
            && r[entityId] == docs[entityId].(orderIndex := newIndex)
            && forall id :: id in docs && id != entityId ==>
                 r[id] == docs[id].(orderIndex := r[id].orderIndex)
                 && r[id].orderIndex == (if docs[id].profileId == p && o < newIndex && o < docs[id].orderIndex <= newIndex
                                         then docs[id].orderIndex - 1
                                         else if docs[id].profileId == p && newIndex < o && newIndex <= docs[id].orderIndex < o
                                         then docs[id].orderIndex + 1
                                         else docs[id].orderIndex)
  {
  }

  /** An unknown id or the current index leaves every document as it was. */
  lemma ReorderNoOp<T>(docs: Store<T>, p: Id, entityId: Id, newIndex: int)
    requires entityId !in docs || docs[entityId].orderIndex == newIndex
    ensures Reordered(docs, p, entityId, newIndex) == docs
  {
  }

  /** No two documents of `p` share an index. */
  predicate IndicesDistinct<T>(docs: Store<T>, p: Id) {
    forall a, b :: a in docs && b in docs && a != b && docs[a].profileId == p && docs[b].profileId == p
                   ==> docs[a].orderIndex != docs[b].orderIndex
  }

  /** The documents of `p`, and which profile each document belongs to, are the same after a reorder. */
  lemma ReorderKeepsMembers<T>(docs: Store<T>, p: Id, entityId: Id, newIndex: int)
    ensures var r := Reordered(docs, p, entityId, newIndex);
            r.Keys == docs.Keys
            && (forall id :: id in r ==> r[id].profileId == docs[id].profileId)
            && forall q :: OfProfile(r, q) == OfProfile(docs, q)
  {
  }

  /**
   * Reordering a document of `p` keeps the indices of `p` distinct: the
   * range shift frees exactly the target index and fills the old one.
   */
  lemma ReorderKeepsDistinct<T>(docs: Store<T>, p: Id, entityId: Id, newIndex: int)
    requires IndicesDistinct(docs, p)
    requires entityId in docs && docs[entityId].profileId == p
    ensures IndicesDistinct(Reordered(docs, p, entityId, newIndex), p)
  {
    var r := Reordered(docs, p, entityId, newIndex);
    if docs[entityId].orderIndex != newIndex {
      ReorderEffect(docs, p, entityId, newIndex);
      var o := docs[entityId].orderIndex;
      forall a, b | a in r && b in r && a != b && r[a].profileId == p && r[b].profileId == p
        ensures r[a].orderIndex != r[b].orderIndex
      {
        if a == entityId {
          assert docs[b].orderIndex != o;
        } else if b == entityId {
          assert docs[a].orderIndex != o;
        } else {
          assert docs[a].orderIndex != docs[b].orderIndex;
        }
      }
    }
  }

  /**
   * The indices of `p` are a dense numbering: distinct and all in
   * 0..n-1 for the n documents of `p` (by counting, then exactly 0..n-1).
   */
  predicate Dense<T>(docs: Store<T>, p: Id) {
    IndicesDistinct(docs, p)
    && forall id :: id in docs && docs[id].profileId == p ==> 0 <= docs[id].orderIndex < |OfProfile(docs, p)|
  }

  /** Moving a document of `p` to an index inside 0..n-1 keeps the numbering dense. */
  lemma ReorderKeepsDense<T>(docs: Store<T>, p: Id, entityId: Id, newIndex: int)
    requires Dense(docs, p)
    requires entityId in docs && docs[entityId].profileId == p
    requires 0 <= newIndex < |OfProfile(docs, p)|
    ensures Dense(Reordered(docs, p, entityId, newIndex), p)
  {
    ReorderKeepsDistinct(docs, p, entityId, newIndex);
    ReorderKeepsMembers(docs, p, entityId, newIndex);
    if docs[entityId].orderIndex != newIndex {
      ReorderEffect(docs, p, entityId, newIndex);
    }
  }
  /** By counting, a dense numbering uses every index 0..n-1. */
  lemma DenseCoversAll<T>(docs: Store<T>, p: Id, k: int)
    requires Dense(docs, p) && 0 <= k < |OfProfile(docs, p)|
    ensures exists id :: id in docs && docs[id].profileId == p && docs[id].orderIndex == k
  {
    var members := OfProfile(docs, p);
    var used := set id | id in members :: docs[id].orderIndex;
    IndexImageSize(docs, members);
    SameSizeSubset(used, Below(|members|));
    assert k in used;
  }

  /** Distinct indices over a set of documents: as many indices as documents. */
  lemma IndexImageSize<T>(docs: Store<T>, members: set<Id>)
    requires members <= docs.Keys
    requires forall a, b :: a in members && b in members && a != b ==> docs[a].orderIndex != docs[b].orderIndex
    ensures |set id | id in members :: docs[id].orderIndex| == |members|
    decreases |members|
  {
    if members != {} {
      var a :| a in members;
      var rest := members - {a};
      IndexImageSize(docs, rest);
      var restUsed := set id | id in rest :: docs[id].orderIndex;
      assert (set id | id in members :: docs[id].orderIndex) == restUsed + {docs[a].orderIndex};
      assert docs[a].orderIndex !in restUsed;
    }
  }

  /** The indices 0..n-1. */
  function Below(n: nat): (r: set<int>)
    ensures |r| == n
    ensures forall i :: i in r <==> 0 <= i < n
  {
    if n == 0 then {} else Below(n - 1) + {n - 1}
  }

  /** A subset as large as its superset is the superset. */
  lemma SameSizeSubset<X>(a: set<X>, b: set<X>)
    requires a <= b && |a| == |b|
    ensures a == b
  {
    assert b == a + (b - a);
    assert a * (b - a) == {};
    assert |b - a| == 0;
  }
}
