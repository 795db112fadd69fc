/**
 * The array built-ins the store is written with (`filter`, `find`, `findIndex`,
 * `splice`, a stable `sort` by a numeric key), as functions on sequences.
 */
module Tables {
  import opened Wrappers

  /** `s` is `t` with some elements left out, the rest in their order. */
  ghost predicate IsSubsequence<T(!new)>(s: seq<T>, t: seq<T>)
    decreases |t|
  {
    if s == [] then true
    else if t == [] then false
    else (s[0] == t[0] && IsSubsequence(s[1..], t[1..])) || IsSubsequence(s, t[1..])
  }

  /** `Array.prototype.filter`: the elements `p` accepts, in their order, each as often as in `s`. */
  function Filter<T(!new)>(s: seq<T>, p: T -> bool): (r: seq<T>)
    ensures IsSubsequence(r, s)
    ensures forall x :: x in r <==> x in s && p(x)
  {
    if s == [] then []
    else
      var rest := Filter(s[1..], p);
      if p(s[0]) then
        assert ([s[0]] + rest)[1..] == rest;
        [s[0]] + rest
      else rest
  }

  /** Each accepted element is kept as often as it occurs, each rejected one not at all. */
  lemma {:induction false} FilterCount<T(!new)>(s: seq<T>, p: T -> bool)
    ensures forall x :: multiset(Filter(s, p))[x] == if p(x) then multiset(s)[x] else 0
  {
    if s != [] {
      assert s == [s[0]] + s[1..];
      FilterCount(s[1..], p);
    }
  }

  /** Filtering a concatenation filters each part: the relative order of the kept rows is the input's. */
  lemma {:induction false} FilterAppend<T(!new)>(a: seq<T>, b: seq<T>, p: T -> bool)
    ensures Filter(a + b, p) == Filter(a, p) + Filter(b, p)
  {
    if a == [] {
      assert a + b == b;
    } else {
      assert (a + b)[1..] == a[1..] + b;
      FilterAppend(a[1..], b, p);
    }
  }

  /** A filter that keeps every element gives back the input. */
  lemma {:induction false} FilterKeepsAll<T(!new)>(s: seq<T>, p: T -> bool)
    requires forall i :: 0 <= i < |s| ==> p(s[i])
    ensures Filter(s, p) == s
  {
    if s != [] {
      FilterKeepsAll(s[1..], p);
    }
  }

  /** `i` is the first index of `s` that `p` accepts. */
  ghost predicate FirstMatch<T(!new)>(s: seq<T>, p: T -> bool, i: int) {
    0 <= i < |s| && p(s[i]) && forall j :: 0 <= j < i ==> !p(s[j])
  }

  /** `Array.prototype.findIndex`, with `None` for its `-1`. */
  function FindIndex<T(!new)>(s: seq<T>, p: T -> bool): (r: Option<nat>)
    ensures r.None? <==> forall i :: 0 <= i < |s| ==> !p(s[i])
    ensures r.Some? ==> FirstMatch(s, p, r.value)
  {
    if s == [] then None
    else if p(s[0]) then Some(0)
    else
      match FindIndex(s[1..], p)
      case None => None
      case Some(i) => Some(i + 1)
  }

  /** `Array.prototype.find`: the first element `p` accepts. */
  function Find<T(!new)>(s: seq<T>, p: T -> bool): (r: Option<T>)
    ensures r.None? <==> forall i :: 0 <= i < |s| ==> !p(s[i])
    ensures r.Some? ==> exists i :: FirstMatch(s, p, i) && s[i] == r.value
  {
    match FindIndex(s, p)
    case None => None
    case Some(i) => Some(s[i])
  }

  /** `s.splice(i, 1)`: the element at `i` removed, the others kept in order. */
  function RemoveAt<T(!new)>(s: seq<T>, i: nat): (r: seq<T>)
    requires i < |s|
    ensures |r| == |s| - 1
    ensures forall j :: 0 <= j < i ==> r[j] == s[j]
    ensures forall j :: i <= j < |r| ==> r[j] == s[j + 1]
    ensures multiset(r) == multiset(s) - multiset{s[i]}
    ensures forall x :: x in r ==> x in s
  {
    assert s == s[..i] + [s[i]] + s[i + 1..];
    s[..i] + s[i + 1..]
  }

  /** Non-decreasing by `key`. */
  ghost predicate SortedBy<T(!new)>(s: seq<T>, key: T -> int) {
    forall i, j :: 0 <= i < j < |s| ==> key(s[i]) <= key(s[j])
  }

  /** `x` placed before the first element whose key is not below its own. */
  function InsertByKey<T(!new)>(x: T, s: seq<T>, key: T -> int): (r: seq<T>)
    ensures multiset(r) == multiset(s) + multiset{x}
    ensures forall y :: y in r <==> y == x || y in s
  {
    if s == [] then [x]
    else if key(x) <= key(s[0]) then [x] + s
    else
      assert s == [s[0]] + s[1..];
      [s[0]] + InsertByKey(x, s[1..], key)
  }

  /** Inserting into a sorted sequence keeps it sorted. */
  lemma {:induction false} InsertKeepsSorted<T(!new)>(x: T, s: seq<T>, key: T -> int)
    requires SortedBy(s, key)
    ensures SortedBy(InsertByKey(x, s, key), key)
  {
    var r := InsertByKey(x, s, key);
    if s == [] {
    } else if key(x) <= key(s[0]) {
      forall i, j | 0 <= i < j < |r| ensures key(r[i]) <= key(r[j]) {
        assert r[j] == s[j - 1];
        if i > 0 {
          assert r[i] == s[i - 1];
        }
      }
    } else {
      var rest := InsertByKey(x, s[1..], key);
      InsertKeepsSorted(x, s[1..], key);
      assert r == [s[0]] + rest;
      forall i, j | 0 <= i < j < |r| ensures key(r[i]) <= key(r[j]) {
        assert r[j] == rest[j - 1];
        if i > 0 {
          assert r[i] == rest[i - 1];
        } else {
          assert r[j] in rest;
        }
      }
    }
  }

  /** `sort((a, b) => key(a) - key(b))`: an insertion sort, stable like the engine's. */
  function SortByKey<T(!new)>(s: seq<T>, key: T -> int): (r: seq<T>)
    ensures multiset(r) == multiset(s)
    ensures SortedBy(r, key)
  {
    if s == [] then []
    else
      assert s == [s[0]] + s[1..];
      var sortedTail := SortByKey(s[1..], key);
      InsertKeepsSorted(s[0], sortedTail, key);
      InsertByKey(s[0], sortedTail, key)
  }

  /** The elements of `s` whose key is `k`, in the order of `s`. */
  function WithKey<T>(s: seq<T>, key: T -> int, k: int): seq<T> {
    if s == [] then []
    else if key(s[0]) == k then [s[0]] + WithKey(s[1..], key, k)
    else WithKey(s[1..], key, k)
  }

  lemma {:induction false} InsertWithKey<T(!new)>(x: T, s: seq<T>, key: T -> int, k: int)
    ensures WithKey(InsertByKey(x, s, key), key, k)
         == (if key(x) == k then [x] else []) + WithKey(s, key, k)
  {
    if s == [] {
      assert WithKey([x], key, k) == (if key(x) == k then [x] else []) by {
        assert [x][1..] == [];
      }
    } else if key(x) <= key(s[0]) {
      assert ([x] + s)[1..] == s;
    } else {
      var rest := InsertByKey(x, s[1..], key);
      InsertWithKey(x, s[1..], key, k);
      assert InsertByKey(x, s, key) == [s[0]] + rest;
      assert ([s[0]] + rest)[1..] == rest;
      if key(x) == k {
        // s[0] sorts before x, so its key differs from x's
        assert key(s[0]) != k;
      } else {
        assert [] + WithKey(s[1..], key, k) == WithKey(s[1..], key, k);
      }
    }
  }

  /** Stability: for every key, the elements with that key keep their input order. */
  lemma {:induction false} SortIsStable<T(!new)>(s: seq<T>, key: T -> int, k: int)
    ensures WithKey(SortByKey(s, key), key, k) == WithKey(s, key, k)
  {
    if s != [] {
      SortIsStable(s[1..], key, k);
      InsertWithKey(s[0], SortByKey(s[1..], key), key, k);
      if key(s[0]) != k {
        assert [] + WithKey(s[1..], key, k) == WithKey(s[1..], key, k);
      }
    }
  }

  /** The predicate "belongs to parent `id`". */
  function ChildOf<T(!new)>(parentOf: T -> string, id: string): T -> bool {
    x => parentOf(x) == id
  }

  /** The predicate "does not belong to parent `id`". */
  function NotChildOf<T(!new)>(parentOf: T -> string, id: string): T -> bool {
    x => parentOf(x) != id
  }

  /**
   * `rows.filter(x => parentOf(x) === id).sort((a, b) => orderOf(a) - orderOf(b))`:
   * the rows of one parent, as many times as stored, ordered by `orderOf`, ties in store order.
   */
  function SortedChildren<T(!new)>(rows: seq<T>, parentOf: T -> string, orderOf: T -> int, id: string): (r: seq<T>)
    ensures forall x :: multiset(r)[x] == if parentOf(x) == id then multiset(rows)[x] else 0
    ensures forall x :: x in r <==> x in rows && parentOf(x) == id
    ensures SortedBy(r, orderOf)
    ensures forall k :: WithKey(r, orderOf, k) == WithKey(Filter(rows, ChildOf(parentOf, id)), orderOf, k)
  {
    var children := Filter(rows, ChildOf(parentOf, id));
    var r := SortByKey(children, orderOf);
    FilterCount(rows, ChildOf(parentOf, id));
    assert forall x :: x in r <==> x in multiset(children);
    forall k ensures WithKey(r, orderOf, k) == WithKey(children, orderOf, k) {
      SortIsStable(children, orderOf, k);
    }
    r
  }

  /** Once a parent's rows are filtered out, that parent has no children left. */
  lemma NoChildrenAfterRemoval<T(!new)>(rows: seq<T>, parentOf: T -> string, orderOf: T -> int, id: string)
    ensures SortedChildren(Filter(rows, NotChildOf(parentOf, id)), parentOf, orderOf, id) == []
  {
  }
}
