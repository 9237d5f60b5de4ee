/**
 * The list operations the frontend stores are built from: JavaScript's
 * Array.prototype.filter, a map that rewrites only matching entries, and
 * Array.prototype.sort with a numeric comparator (stable since ES2019).
 */
module Lists {
  // ---------------------------------------------------------------------------
  // filter
  // ---------------------------------------------------------------------------

  /** The elements that pass, in their original order. */
  function Filter<T(==,!new)>(s: seq<T>, p: T -> bool): (r: seq<T>)
    ensures |r| <= |s|
    ensures forall x :: x in r <==> x in s && p(x)
    ensures forall i :: 0 <= i < |r| ==> p(r[i])
  {
    if s == [] then []
    else Filter(s[..|s| - 1], p) + (if p(s[|s| - 1]) then [s[|s| - 1]] else [])
  }

  /** Filtering keeps order: filtering a concatenation is concatenating the
      filtered parts. */
  lemma {:induction false} FilterConcat<T(!new)>(a: seq<T>, b: seq<T>, p: T -> bool)
    ensures Filter(a + b, p) == Filter(a, p) + Filter(b, p)
    decreases |b|
  {
    if b == [] {
      assert a + b == a;
    } else {
      var b' := b[..|b| - 1];
      assert (a + b)[..|a + b| - 1] == a + b';
      FilterConcat(a, b', p);
    }
  }

  /** A filter every element passes changes nothing. */
  lemma {:induction false} FilterAll<T(!new)>(s: seq<T>, p: T -> bool)
    requires forall i :: 0 <= i < |s| ==> p(s[i])
    ensures Filter(s, p) == s
  {
    if s != [] {
      var init, last := s[..|s| - 1], s[|s| - 1];
      PrefixAll(s, init, p);
      FilterAll(init, p);
      SnocAll(init, last, s);
    }
  }

  lemma PrefixAll<T>(s: seq<T>, init: seq<T>, p: T -> bool)
    requires s != [] && init == s[..|s| - 1] && forall i :: 0 <= i < |s| ==> p(s[i])
    ensures p(s[|s| - 1]) && forall i :: 0 <= i < |init| ==> p(init[i])
  {
  }

  lemma SnocAll<T>(init: seq<T>, last: T, s: seq<T>)
    requires s != [] && init == s[..|s| - 1] && last == s[|s| - 1]
    ensures init + [last] == s
  {
  }

  /** Predicates that agree on the elements filter alike. */
  lemma {:induction false} FilterAgree<T(!new)>(s: seq<T>, p: T -> bool, q: T -> bool)
    requires forall i :: 0 <= i < |s| ==> p(s[i]) == q(s[i])
    ensures Filter(s, p) == Filter(s, q)
  {
    if s != [] {
      FilterAgree(s[..|s| - 1], p, q);
    }
  }

  /** Either of two predicates. */
  function Either<T>(p: T -> bool, q: T -> bool): T -> bool
  {
    x => p(x) || q(x)
  }

  /** Filters by two exclusive predicates split the filter by either. */
  lemma {:induction false} FilterSplit<T(!new)>(s: seq<T>, p: T -> bool, q: T -> bool)
    requires forall x :: !(p(x) && q(x))
    ensures |Filter(s, p)| + |Filter(s, q)| == |Filter(s, Either(p, q))|
  {
    if s != [] {
      FilterSplit(s[..|s| - 1], p, q);
    }
  }

  // ---------------------------------------------------------------------------
  // map with a condition
  // ---------------------------------------------------------------------------

  /** `s.map(x => p(x) ? f(x) : x)`. */
  function MapWhere<T>(s: seq<T>, p: T -> bool, f: T -> T): (r: seq<T>)
    ensures |r| == |s|
    ensures forall i :: 0 <= i < |s| ==> r[i] == if p(s[i]) then f(s[i]) else s[i]
  {
    if s == [] then []
    else MapWhere(s[..|s| - 1], p, f) + [if p(s[|s| - 1]) then f(s[|s| - 1]) else s[|s| - 1]]
  }

  /** Entries the condition does not select are untouched: a view that
      excludes both the selected entries and their rewrites sees no change. */
  lemma {:induction false} MapWhereKeepsOthers<T(!new)>(s: seq<T>, p: T -> bool, f: T -> T, q: T -> bool)
    requires forall x :: p(x) ==> !q(x) && !q(f(x))
    ensures Filter(MapWhere(s, p, f), q) == Filter(s, q)
  {
    if s != [] {
      var init := s[..|s| - 1];
      MapWhereKeepsOthers(init, p, f, q);
      assert MapWhere(s, p, f)[..|s| - 1] == MapWhere(init, p, f);
    }
  }

  // ---------------------------------------------------------------------------
  // map
  // ---------------------------------------------------------------------------

  /** `s.map(f)`: one image per element, in order. */
  function Map<A, B>(s: seq<A>, f: A -> B): (r: seq<B>)
    ensures |r| == |s|
    ensures forall i :: 0 <= i < |s| ==> r[i] == f(s[i])
  {
    if s == [] then [] else [f(s[0])] + Map(s[1..], f)
  }

  /** Mapping one more element appends its image. */
  lemma MapPrefix<A, B>(s: seq<A>, f: A -> B, i: nat)
    requires i < |s|
    ensures Map(s[..i + 1], f) == Map(s[..i], f) + [f(s[i])]
  {
    var longer, shorter := Map(s[..i + 1], f), Map(s[..i], f);
    assert forall j :: 0 <= j < i ==> longer[j] == f(s[j]) == shorter[j];
  }

  // ---------------------------------------------------------------------------
  // sort by a numeric key
  // ---------------------------------------------------------------------------

  predicate SortedBy<T>(s: seq<T>, key: T -> int)
  {
    forall i, j :: 0 <= i < j < |s| ==> key(s[i]) <= key(s[j])
  }

  /** Place x before the first element whose key is not smaller. */
  function Insert<T>(x: T, t: seq<T>, key: T -> int): (r: seq<T>)
    ensures |r| == |t| + 1
    ensures multiset(r) == multiset(t) + multiset{x}
  {
    if t == [] then [x]
    else if key(x) <= key(t[0]) then [x] + t
    else
      assert t == [t[0]] + t[1..];
      [t[0]] + Insert(x, t[1..], key)
  }

  /** A stable sort, ascending by key: each element is inserted in front of
      the equal keys that come after it in the input. */
  function SortBy<T>(s: seq<T>, key: T -> int): (r: seq<T>)
    ensures |r| == |s|
    ensures multiset(r) == multiset(s)
  {
    if s == [] then []
    else
      assert s == [s[0]] + s[1..];
      Insert(s[0], SortBy(s[1..], key), key)
  }

  lemma {:induction false} InsertSorted<T>(x: T, t: seq<T>, key: T -> int)
    requires SortedBy(t, key)
    ensures SortedBy(Insert(x, t, key), key)
  {
    if t != [] && key(x) > key(t[0]) {
      InsertSorted(x, t[1..], key);
      var rest := Insert(x, t[1..], key);
      forall k | 0 <= k < |rest| ensures key(t[0]) <= key(rest[k]) {
        assert rest[k] in multiset(rest);
        assert rest[k] in multiset(t[1..]) + multiset{x};
        if rest[k] != x {
          assert rest[k] in t[1..];
        }
      }
    }
  }

  /** The result is sorted. */
  lemma {:induction false} SortBySorted<T>(s: seq<T>, key: T -> int)
    ensures SortedBy(SortBy(s, key), key)
  {
    if s != [] {
      SortBySorted(s[1..], key);
      InsertSorted(s[0], SortBy(s[1..], key), key);
    }
  }

  /** The elements whose key is k, in their order in s. */
  function KeyOrder<T>(s: seq<T>, key: T -> int, k: int): seq<T>
  {
    if s == [] then [] else Pick(s[0], key, k) + KeyOrder(s[1..], key, k)
  }

  /** x alone when its key is k, else nothing. */
  function Pick<T>(x: T, key: T -> int, k: int): seq<T>
  {
    if key(x) == k then [x] else []
  }

  /** Inserting keeps the order of the elements of every key, and puts the
      new element in front of those that share its key: every element it
      passes has a smaller key. */
  lemma {:induction false} InsertKeepsKeyOrder<T>(x: T, t: seq<T>, key: T -> int, k: int)
    ensures KeyOrder(Insert(x, t, key), key, k) == Pick(x, key, k) + KeyOrder(t, key, k)
  {
    if t == [] || key(x) <= key(t[0]) {
      InsertInFront(x, t, key, k);
    } else {
      InsertKeepsKeyOrder(x, t[1..], key, k);
      InsertPast(x, t, key, k);
    }
  }

  /** x goes in front of all of t. */
  lemma InsertInFront<T>(x: T, t: seq<T>, key: T -> int, k: int)
    requires t == [] || key(x) <= key(t[0])
    ensures KeyOrder(Insert(x, t, key), key, k) == Pick(x, key, k) + KeyOrder(t, key, k)
  {
    assert Insert(x, t, key) == [x] + t;
    KeyOrderCons(x, t, key, k);
  }

  /** x goes past t[0], into the rest of t. */
  lemma InsertPast<T>(x: T, t: seq<T>, key: T -> int, k: int)
    requires t != [] && key(x) > key(t[0])
    requires KeyOrder(Insert(x, t[1..], key), key, k) == Pick(x, key, k) + KeyOrder(t[1..], key, k)
    ensures KeyOrder(Insert(x, t, key), key, k) == Pick(x, key, k) + KeyOrder(t, key, k)
  {
    assert Insert(x, t, key) == [t[0]] + Insert(x, t[1..], key);
    assert t == [t[0]] + t[1..];
    PastKeyOrder(t[0], x, Insert(x, t[1..], key), t[1..], key, k);
  }

  /** The step where x moves past y, whose key is smaller: at most one of
      the two is selected, so their order among the selection is kept. */
  lemma PastKeyOrder<T>(y: T, x: T, rest: seq<T>, tail: seq<T>, key: T -> int, k: int)
    requires key(x) > key(y)
    requires KeyOrder(rest, key, k) == Pick(x, key, k) + KeyOrder(tail, key, k)
    ensures KeyOrder([y] + rest, key, k) == Pick(x, key, k) + KeyOrder([y] + tail, key, k)
  {
    KeyOrderCons(y, rest, key, k);
    KeyOrderCons(y, tail, key, k);
    var first, moved, after := Pick(y, key, k), Pick(x, key, k), KeyOrder(tail, key, k);
    if key(x) == k {
      assert first == [];
    } else {
      assert moved == [];
    }
    assert first + (moved + after) == moved + (first + after);
  }

  /** Selecting from a sequence with one more element in front. */
  lemma KeyOrderCons<T>(x: T, t: seq<T>, key: T -> int, k: int)
    ensures KeyOrder([x] + t, key, k) == Pick(x, key, k) + KeyOrder(t, key, k)
  {
    assert ([x] + t)[1..] == t;
  }

  /** The sort is stable on every input: for each key, the elements with
      that key come out in the order they went in. */
  lemma {:induction false} SortByStable<T>(s: seq<T>, key: T -> int, k: int)
    ensures KeyOrder(SortBy(s, key), key, k) == KeyOrder(s, key, k)
  {
    if s != [] {
      SortByStable(s[1..], key, k);
      InsertKeepsKeyOrder(s[0], SortBy(s[1..], key), key, k);
    }
  }

  /** Sorted input comes back unchanged, so equal keys keep their order. */
  lemma {:induction false} SortBySortedInput<T>(s: seq<T>, key: T -> int)
    requires SortedBy(s, key)
    ensures SortBy(s, key) == s
  {
    if s != [] {
      SortBySortedInput(s[1..], key);
      assert s == [s[0]] + s[1..];
    }
  }
}
