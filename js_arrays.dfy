/**
 * The array built-ins the chart builders use: `[...new Set(xs)]` and
 * `Array.prototype.sort()` with its default comparator.
 */
module JsArrays {
  import opened Wrappers
  import opened JsStrings

  /** No element occurs twice. */
  predicate Distinct<T(==)>(s: seq<T>)
  {
    forall i, j :: 0 <= i < j < |s| ==> s[i] != s[j]
  }

  /** The position of the first occurrence of x in s, or |s| when x does not occur. */
  function FirstIndex<T(==)>(s: seq<T>, x: T): (r: nat)
    ensures r <= |s|
    ensures r < |s| <==> x in s
    ensures r < |s| ==> s[r] == x
    ensures forall j :: 0 <= j < r ==> s[j] != x
  {
    if s == [] then 0
    else if s[0] == x then 0
    else 1 + FirstIndex(s[1..], x)
  }

  /**
   * `[...new Set(s)]`: a Set keeps the first insertion of each element and
   * iterates in insertion order.
   */
  function Dedup<T(==)>(s: seq<T>): (r: seq<T>)
  {
    if s == [] then []
    else
      var init := s[..|s| - 1];
      if s[|s| - 1] in init then Dedup(init) else Dedup(init) + [s[|s| - 1]]
  }

  /**
   * The deduplicated sequence holds every element of s exactly once, in the
   * order of their first occurrences in s.
   */
  lemma {:induction false} DedupSpec<T>(s: seq<T>)
    ensures forall x :: x in Dedup(s) ==> x in s
    ensures forall x :: x in s ==> x in Dedup(s)
    ensures Distinct(Dedup(s))
    ensures forall i, j :: 0 <= i < j < |Dedup(s)| ==> FirstIndex(s, Dedup(s)[i]) < FirstIndex(s, Dedup(s)[j])
  {
    if s != [] {
      var init, last := s[..|s| - 1], s[|s| - 1];
      assert s == init + [last];
      DedupSpec(init);
      DedupStep(init, last);
    }
  }

  /** One element added to the set, as in `DedupSpec`. */
  lemma DedupStep<T>(init: seq<T>, last: T)
    requires forall x :: x in Dedup(init) ==> x in init
    requires forall x :: x in init ==> x in Dedup(init)
    requires Distinct(Dedup(init))
    requires forall i, j :: 0 <= i < j < |Dedup(init)| ==> FirstIndex(init, Dedup(init)[i]) < FirstIndex(init, Dedup(init)[j])
    ensures forall x :: x in Dedup(init + [last]) ==> x in init + [last]
    ensures forall x :: x in init + [last] ==> x in Dedup(init + [last])
    ensures Distinct(Dedup(init + [last]))
    ensures forall i, j :: 0 <= i < j < |Dedup(init + [last])| ==>
      FirstIndex(init + [last], Dedup(init + [last])[i]) < FirstIndex(init + [last], Dedup(init + [last])[j])
  {
    DedupLast(init, last);
    if last in init {
      DedupStepSeen(init, last, Dedup(init));
    } else {
      DedupStepOrder(init, last, Dedup(init));
    }
  }

  /** An element already in the set leaves it as it is. */
  lemma DedupStepSeen<T>(init: seq<T>, last: T, d: seq<T>)
    requires last in init
    requires forall x :: x in d ==> x in init
    requires forall x :: x in init ==> x in d
    requires forall i, j :: 0 <= i < j < |d| ==> FirstIndex(init, d[i]) < FirstIndex(init, d[j])
    ensures forall x :: x in d ==> x in init + [last]
    ensures forall x :: x in init + [last] ==> x in d
    ensures forall i, j :: 0 <= i < j < |d| ==> FirstIndex(init + [last], d[i]) < FirstIndex(init + [last], d[j])
  {
    forall i | 0 <= i < |d|
      ensures FirstIndex(init + [last], d[i]) == FirstIndex(init, d[i])
    {
      assert d[i] in d;
      FirstIndexPrefix(init, last, d[i]);
    }
  }

  /** How `[...new Set(s)]` grows by one element. */
  lemma DedupLast<T>(init: seq<T>, last: T)
    ensures Dedup(init + [last]) == if last in init then Dedup(init) else Dedup(init) + [last]
  {
    assert (init + [last])[..|init|] == init;
  }

  /** A new element goes after every element already in the set, as its first occurrence does. */
  lemma DedupStepOrder<T>(init: seq<T>, last: T, d: seq<T>)
    requires last !in init
    requires forall x :: x in d ==> x in init
    requires forall x :: x in init ==> x in d
    requires Distinct(d)
    requires forall i, j :: 0 <= i < j < |d| ==> FirstIndex(init, d[i]) < FirstIndex(init, d[j])
    ensures forall x :: x in d + [last] ==> x in init + [last]
    ensures forall x :: x in init + [last] ==> x in d + [last]
    ensures Distinct(d + [last])
    ensures forall i, j :: 0 <= i < j < |d + [last]| ==>
      FirstIndex(init + [last], (d + [last])[i]) < FirstIndex(init + [last], (d + [last])[j])
  {
    var s, e := init + [last], d + [last];
    FirstIndexPrefix(init, last, last);
    forall i | 0 <= i < |d|
      ensures FirstIndex(s, e[i]) == FirstIndex(init, d[i]) < |init|
    {
      assert d[i] in d;
      FirstIndexPrefix(init, last, d[i]);
    }
  }

  /** Appending an element does not move the first occurrence of one already present. */
  lemma {:induction false} FirstIndexPrefix<T>(init: seq<T>, last: T, x: T)
    ensures x in init ==> FirstIndex(init + [last], x) == FirstIndex(init, x)
    ensures x !in init && x == last ==> FirstIndex(init + [last], x) == |init|
  {
    if init != [] {
      assert (init + [last])[1..] == init[1..] + [last];
      FirstIndexPrefix(init[1..], last, x);
    }
  }

  /**
   * The key the default comparator sorts by: None for `undefined`, which
   * sorts after everything, otherwise the element's string form.
   */
  predicate KeyLe(a: Option<string>, b: Option<string>)
  {
    b == None || (a.Some? && StrLe(a.value, b.value))
  }

  lemma KeyLeTotal(a: Option<string>, b: Option<string>)
    ensures KeyLe(a, b) || KeyLe(b, a)
  {
    if a.Some? && b.Some? {
      StrLeTotal(a.value, b.value);
    }
  }

  lemma KeyLeTransitive(a: Option<string>, b: Option<string>, c: Option<string>)
    requires KeyLe(a, b) && KeyLe(b, c)
    ensures KeyLe(a, c)
  {
    if c.Some? {
      StrLeTransitive(a.value, b.value, c.value);
    }
  }

  /** s is in ascending order of key. */
  predicate SortedBy<T>(s: seq<T>, key: T -> Option<string>)
  {
    forall i, j :: 0 <= i < j < |s| ==> KeyLe(key(s[i]), key(s[j]))
  }

  /** Insert x before the first element whose key is not below x's. */
  function Insert<T>(x: T, s: seq<T>, key: T -> Option<string>): seq<T>
  {
    if s == [] then [x]
    else if KeyLe(key(x), key(s[0])) then [x] + s
    else [s[0]] + Insert(x, s[1..], key)
  }

  /**
   * `s.sort()` with the default comparator, as a stable insertion sort:
   * elements compare by their key, and elements with equal keys keep their order.
   */
  function Sort<T>(s: seq<T>, key: T -> Option<string>): seq<T>
  {
    if s == [] then [] else Insert(s[0], Sort(s[1..], key), key)
  }

  lemma {:induction false} InsertMultiset<T>(x: T, s: seq<T>, key: T -> Option<string>)
    ensures multiset(Insert(x, s, key)) == multiset(s) + multiset{x}
  {
    if s != [] && !KeyLe(key(x), key(s[0])) {
      InsertMultiset(x, s[1..], key);
      assert s == [s[0]] + s[1..];
    }
  }

  lemma {:induction false} InsertSorted<T>(x: T, s: seq<T>, key: T -> Option<string>)
    requires SortedBy(s, key)
    ensures SortedBy(Insert(x, s, key), key)
  {
    if s == [] {
    } else if KeyLe(key(x), key(s[0])) {
      forall j | 0 < j < |s|
        ensures KeyLe(key(x), key(s[j]))
      {
        KeyLeTransitive(key(x), key(s[0]), key(s[j]));
      }
    } else {
      KeyLeTotal(key(x), key(s[0]));
      var rest := Insert(x, s[1..], key);
      InsertSorted(x, s[1..], key);
      InsertMultiset(x, s[1..], key);
      forall k | 0 <= k < |rest|
        ensures KeyLe(key(s[0]), key(rest[k]))
      {
        assert rest[k] in multiset(rest);
        if rest[k] != x {
          assert rest[k] in s[1..];
        }
      }
      var r := [s[0]] + rest;
      forall i, j | 0 <= i < j < |r|
        ensures KeyLe(key(r[i]), key(r[j]))
      {
        assert r[j] == rest[j - 1];
        if i > 0 {
          assert r[i] == rest[i - 1];
        }
      }
    }
  }

  lemma {:induction false} InsertDistinct<T>(x: T, s: seq<T>, key: T -> Option<string>)
    requires Distinct(s) && x !in s
    ensures Distinct(Insert(x, s, key))
  {
    if s != [] && !KeyLe(key(x), key(s[0])) {
      var rest := Insert(x, s[1..], key);
      InsertDistinct(x, s[1..], key);
      InsertMultiset(x, s[1..], key);
      assert s[0] !in s[1..];
      assert s[0] !in multiset(rest);
      var r := [s[0]] + rest;
      forall i, j | 0 <= i < j < |r|
        ensures r[i] != r[j]
      {
        assert r[j] == rest[j - 1];
        if i > 0 {
          assert r[i] == rest[i - 1];
        }
      }
    }
  }

  /**
   * The default sort yields a permutation of its input in ascending key
   * order, and it is stable: of two elements with the same key, the one that
   * comes first in the input comes first in the result.
   */
  lemma SortSpec<T>(s: seq<T>, key: T -> Option<string>)
    ensures SortedBy(Sort(s, key), key)
    ensures multiset(Sort(s, key)) == multiset(s)
    ensures Distinct(s) ==> Distinct(Sort(s, key))
    ensures Distinct(s) ==> forall i, j :: 0 <= i < j < |Sort(s, key)| && key(Sort(s, key)[i]) == key(Sort(s, key)[j]) ==>
      FirstIndex(s, Sort(s, key)[i]) < FirstIndex(s, Sort(s, key)[j])
  {
    SortSorted(s, key);
    SortMultiset(s, key);
    if Distinct(s) {
      SortDistinct(s, key);
      SortStable(s, key);
    }
  }

  lemma KeyLeReflexive(a: Option<string>)
    ensures KeyLe(a, a)
  {
    if a.Some? {
      StrLeTotal(a.value, a.value);
    }
  }

  /** Elements of r with equal keys appear in the order of their first occurrences in s. */
  predicate StableIn<T(==)>(r: seq<T>, key: T -> Option<string>, s: seq<T>)
  {
    forall i, j :: 0 <= i < j < |r| && key(r[i]) == key(r[j]) ==> FirstIndex(s, r[i]) < FirstIndex(s, r[j])
  }

  /** Inserting an element that occurs in s before every element of r keeps r stable. */
  lemma {:induction false} InsertStable<T>(x: T, r: seq<T>, key: T -> Option<string>, s: seq<T>)
    requires StableIn(r, key, s)
    requires forall y :: y in r ==> FirstIndex(s, x) < FirstIndex(s, y)
    ensures StableIn(Insert(x, r, key), key, s)
  {
    if r == [] {
    } else if KeyLe(key(x), key(r[0])) {
      StableInCons(x, r, key, s);
    } else {
      var tail := r[1..];
      assert StableIn(tail, key, s) by {
        forall i, j | 0 <= i < j < |tail| && key(tail[i]) == key(tail[j])
          ensures FirstIndex(s, tail[i]) < FirstIndex(s, tail[j])
        {
          assert tail[i] == r[i + 1] && tail[j] == r[j + 1];
        }
      }
      InsertStable(x, tail, key, s);
      InsertBehindStable(x, r, key, s);
    }
  }

  /** Putting in front of r an element that occurs in s before every element of r keeps r stable. */
  lemma StableInCons<T>(x: T, r: seq<T>, key: T -> Option<string>, s: seq<T>)
    requires StableIn(r, key, s)
    requires forall y :: y in r ==> FirstIndex(s, x) < FirstIndex(s, y)
    ensures StableIn([x] + r, key, s)
  {
    var q := [x] + r;
    forall i, j | 0 <= i < j < |q| && key(q[i]) == key(q[j])
      ensures FirstIndex(s, q[i]) < FirstIndex(s, q[j])
    {
      assert q[j] == r[j - 1];
      if i > 0 {
        assert q[i] == r[i - 1];
      } else {
        assert r[j - 1] in r;
      }
    }
  }

  /** The step of InsertStable where x goes past the head of r, whose key is strictly smaller. */
  lemma InsertBehindStable<T>(x: T, r: seq<T>, key: T -> Option<string>, s: seq<T>)
    requires r != [] && !KeyLe(key(x), key(r[0]))
    requires StableIn(r, key, s)
    requires StableIn(Insert(x, r[1..], key), key, s)
    ensures StableIn(Insert(x, r, key), key, s)
  {
    KeyLeReflexive(key(x));
    var tail := r[1..];
    InsertMultiset(x, tail, key);
    var rest := Insert(x, tail, key);
    var q := [r[0]] + rest;
    assert Insert(x, r, key) == q;
    forall j | 0 < j < |q| && key(q[0]) == key(q[j])
      ensures FirstIndex(s, q[0]) < FirstIndex(s, q[j])
    {
      assert q[j] == rest[j - 1];
      assert rest[j - 1] in multiset(rest);
      if rest[j - 1] != x {
        assert rest[j - 1] in tail;
        var m :| 0 <= m < |tail| && tail[m] == rest[j - 1];
        assert r[m + 1] == rest[j - 1];
      }
    }
    forall i, j | 0 < i < j < |q| && key(q[i]) == key(q[j])
      ensures FirstIndex(s, q[i]) < FirstIndex(s, q[j])
    {
      assert q[i] == rest[i - 1] && q[j] == rest[j - 1];
    }
  }

  /** Dropping the first element keeps a sequence duplicate-free, and the first element is not in the rest. */
  lemma DistinctTail<T>(s: seq<T>)
    requires s != [] && Distinct(s)
    ensures Distinct(s[1..]) && s[0] !in s[1..]
  {
    var tail := s[1..];
    forall i, j | 0 <= i < j < |tail|
      ensures tail[i] != tail[j]
    {
      assert tail[i] == s[i + 1] && tail[j] == s[j + 1];
    }
    forall i | 0 <= i < |tail|
      ensures tail[i] != s[0]
    {
      assert tail[i] == s[i + 1];
    }
  }

  lemma {:induction false} SortStable<T>(s: seq<T>, key: T -> Option<string>)
    requires Distinct(s)
    ensures StableIn(Sort(s, key), key, s)
  {
    if s != [] {
      var tail := s[1..];
      DistinctTail(s);
      SortStable(tail, key);
      SortMultiset(tail, key);
      var r := Sort(tail, key);
      forall y | y in r
        ensures y != s[0] && FirstIndex(s, y) == 1 + FirstIndex(tail, y)
      {
        assert y in multiset(r);
        assert y in tail;
      }
      assert StableIn(r, key, s) by {
        forall i, j | 0 <= i < j < |r| && key(r[i]) == key(r[j])
          ensures FirstIndex(s, r[i]) < FirstIndex(s, r[j])
        {
          assert r[i] in r && r[j] in r;
        }
      }
      InsertStable(s[0], r, key, s);
    }
  }

  lemma {:induction false} SortSorted<T>(s: seq<T>, key: T -> Option<string>)
    ensures SortedBy(Sort(s, key), key)
  {
    if s != [] {
      SortSorted(s[1..], key);
      InsertSorted(s[0], Sort(s[1..], key), key);
    }
  }

  lemma {:induction false} SortMultiset<T>(s: seq<T>, key: T -> Option<string>)
    ensures multiset(Sort(s, key)) == multiset(s)
  {
    if s != [] {
      SortMultiset(s[1..], key);
      InsertMultiset(s[0], Sort(s[1..], key), key);
      assert s == [s[0]] + s[1..];
    }
  }

  lemma {:induction false} SortDistinct<T>(s: seq<T>, key: T -> Option<string>)
    requires Distinct(s)
    ensures Distinct(Sort(s, key))
  {
    if s != [] {
      var tail := s[1..];
      DistinctTail(s);
      SortDistinct(tail, key);
      SortMultiset(tail, key);
      assert s[0] !in multiset(Sort(tail, key));
      InsertDistinct(s[0], Sort(tail, key), key);
    }
  }
}
