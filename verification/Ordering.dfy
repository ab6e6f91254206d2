/** Comparators, the stable sort of Go's slices package, and strings.Compare. */
module Ordering {
  /** A comparator that orders these elements: total and transitive on them. */
  ghost predicate Orders<T(!new)>(cmp: (T, T) -> int, s: seq<T>) {
    && (forall a, b :: a in s && b in s ==> cmp(a, b) <= 0 || cmp(b, a) <= 0)
    && (forall a, b, c :: a in s && b in s && c in s && cmp(a, b) <= 0 && cmp(b, c) <= 0 ==> cmp(a, c) <= 0)
  }

  /** No two different elements compare as equal. */
  ghost predicate Separates<T(!new)>(cmp: (T, T) -> int, s: seq<T>) {
    forall a, b :: a in s && b in s && cmp(a, b) <= 0 && cmp(b, a) <= 0 ==> a == b
  }

  ghost predicate Sorted<T>(cmp: (T, T) -> int, s: seq<T>) {
    forall i, j :: 0 <= i < j < |s| ==> cmp(s[i], s[j]) <= 0
  }

  function Insert<T>(cmp: (T, T) -> int, x: T, s: seq<T>): seq<T> {
    if s == [] then [x]
    else if cmp(x, s[0]) <= 0 then [x] + s
    else [s[0]] + Insert(cmp, x, s[1..])
  }

  /** slices.SortStableFunc. */
  function StableSort<T>(cmp: (T, T) -> int, s: seq<T>): seq<T> {
    if s == [] then [] else Insert(cmp, s[0], StableSort(cmp, s[1..]))
  }

  lemma {:induction false} InsertKeeps<T>(cmp: (T, T) -> int, x: T, s: seq<T>)
    ensures multiset(Insert(cmp, x, s)) == multiset(s) + multiset{x}
  {
    if s != [] {
      assert s == [s[0]] + s[1..];
      InsertKeeps(cmp, x, s[1..]);
    }
  }

  lemma {:induction false} SortKeeps<T>(cmp: (T, T) -> int, s: seq<T>)
    ensures multiset(StableSort(cmp, s)) == multiset(s)
  {
    if s != [] {
      assert s == [s[0]] + s[1..];
      SortKeeps(cmp, s[1..]);
      InsertKeeps(cmp, s[0], StableSort(cmp, s[1..]));
    }
  }

  lemma SameMembers<T>(a: seq<T>, b: seq<T>)
    requires multiset(a) == multiset(b)
    ensures forall x :: x in a <==> x in b
  {
    assert forall x :: x in a <==> x in multiset(a);
    assert forall x :: x in b <==> x in multiset(b);
  }

  lemma ConsSorted<T(!new)>(cmp: (T, T) -> int, x: T, s: seq<T>)
    requires Sorted(cmp, s) && forall y :: y in s ==> cmp(x, y) <= 0
    ensures Sorted(cmp, [x] + s)
  {
  }

  lemma InsertMembers<T(!new)>(cmp: (T, T) -> int, x: T, s: seq<T>)
    ensures forall y :: y in Insert(cmp, x, s) ==> y == x || y in s
  {
    InsertKeeps(cmp, x, s);
    SameMembers(Insert(cmp, x, s), s + [x]);
  }

  lemma TailSorted<T(!new)>(cmp: (T, T) -> int, s: seq<T>)
    requires s != [] && Sorted(cmp, s)
    ensures Sorted(cmp, s[1..]) && forall y :: y in s[1..] ==> cmp(s[0], y) <= 0
  {
    assert forall i :: 0 <= i < |s[1..]| ==> s[1..][i] == s[i + 1];
  }

  lemma Total<T(!new)>(cmp: (T, T) -> int, s: seq<T>, a: T, b: T)
    requires Orders(cmp, s) && a in s && b in s
    ensures cmp(a, b) <= 0 || cmp(b, a) <= 0
  {
  }

  lemma {:induction false} InsertSorted<T(!new)>(cmp: (T, T) -> int, x: T, s: seq<T>)
    requires Orders(cmp, [x] + s) && Sorted(cmp, s)
    ensures Sorted(cmp, Insert(cmp, x, s))
  {
    if s != [] {
      hide Orders, Sorted;
      Total(cmp, [x] + s, x, s[0]);
      if cmp(x, s[0]) <= 0 {
        AllAfter(cmp, x, s);
        ConsSorted(cmp, x, s);
      } else {
        var rest := Insert(cmp, x, s[1..]);
        OrdersFewer(cmp, [x] + s, [x] + s[1..]);
        TailSorted(cmp, s);
        InsertSorted(cmp, x, s[1..]);
        InsertMembers(cmp, x, s[1..]);
        ConsSorted(cmp, s[0], rest);
      }
    } else {
      ConsSorted(cmp, x, []);
    }
  }

  lemma AllAfter<T(!new)>(cmp: (T, T) -> int, x: T, s: seq<T>)
    requires s != [] && Orders(cmp, [x] + s) && Sorted(cmp, s) && cmp(x, s[0]) <= 0
    ensures forall y :: y in s ==> cmp(x, y) <= 0
  {
    forall y | y in s
      ensures cmp(x, y) <= 0
    {
      var j :| 0 <= j < |s| && s[j] == y;
      assert j == 0 || cmp(s[0], y) <= 0;
      assert x in [x] + s && s[0] in [x] + s && y in [x] + s;
    }
  }

  lemma OrdersFewer<T(!new)>(cmp: (T, T) -> int, s: seq<T>, fewer: seq<T>)
    requires Orders(cmp, s) && forall x <- fewer :: x in s
    ensures Orders(cmp, fewer)
  {
  }

  lemma {:induction false} SortSorts<T(!new)>(cmp: (T, T) -> int, s: seq<T>)
    requires Orders(cmp, s)
    ensures Sorted(cmp, StableSort(cmp, s))
  {
    if s != [] {
      var rest := StableSort(cmp, s[1..]);
      OrdersFewer(cmp, s, s[1..]);
      SortSorts(cmp, s[1..]);
      SortKeeps(cmp, s[1..]);
      SameMembers(rest, s[1..]);
      OrdersFewer(cmp, s, [s[0]] + rest);
      InsertSorted(cmp, s[0], rest);
    }
  }

  /** Sorted permutations are equal when the comparator separates the elements, so it does not
      matter which sort produced them. */
  lemma {:induction false} SortedUnique<T(!new)>(cmp: (T, T) -> int, a: seq<T>, b: seq<T>)
    requires multiset(a) == multiset(b) && Sorted(cmp, a) && Sorted(cmp, b) && Separates(cmp, a)
    ensures a == b
    decreases |a|
  {
    hide Sorted, Separates;
    assert |multiset(a)| == |a| && |multiset(b)| == |b|;
    if a != [] {
      SameFirst(cmp, a, b);
      TailSorted(cmp, a);
      TailSorted(cmp, b);
      SeparatesTail(cmp, a);
      assert a == [a[0]] + a[1..] && b == [b[0]] + b[1..];
      assert multiset(a[1..]) == multiset(a) - multiset{a[0]};
      assert multiset(b[1..]) == multiset(b) - multiset{b[0]};
      SortedUnique(cmp, a[1..], b[1..]);
    }
  }

  lemma SeparatesTail<T(!new)>(cmp: (T, T) -> int, s: seq<T>)
    requires s != [] && Separates(cmp, s)
    ensures Separates(cmp, s[1..])
  {
  }

  lemma SameFirst<T(!new)>(cmp: (T, T) -> int, a: seq<T>, b: seq<T>)
    requires a != [] && b != [] && multiset(a) == multiset(b)
    requires Sorted(cmp, a) && Sorted(cmp, b) && Separates(cmp, a)
    ensures a[0] == b[0]
  {
    SameMembers(a, b);
    assert a[0] in a && b[0] in b;
    var i :| 0 <= i < |b| && b[i] == a[0];
    var j :| 0 <= j < |a| && a[j] == b[0];
    if i != 0 && j != 0 {
      assert cmp(b[0], b[i]) <= 0 && cmp(a[0], a[j]) <= 0;
    }
  }

  lemma SortIgnoresOrder<T(!new)>(cmp: (T, T) -> int, a: seq<T>, b: seq<T>)
    requires multiset(a) == multiset(b) && Orders(cmp, a) && Separates(cmp, a)
    ensures StableSort(cmp, a) == StableSort(cmp, b)
  {
    SameMembers(a, b);
    OrdersFewer(cmp, a, b);
    SortSorts(cmp, a);
    SortSorts(cmp, b);
    SortKeeps(cmp, a);
    SortKeeps(cmp, b);
    SameMembers(StableSort(cmp, a), a);
    SortedUnique(cmp, StableSort(cmp, a), StableSort(cmp, b));
  }

  // ------------------------------------------------------- where the order of the input shows

  /** Of the elements in `some`, all of which occur, `w` stands last. */
  ghost predicate EndsIn<T(!new)>(s: seq<T>, some: set<T>, w: T) {
    && w in some && (forall x :: x in some ==> x in s)
    && exists j :: 0 <= j < |s| && s[j] == w && forall i :: j < i < |s| ==> s[i] !in some
  }

  /** Insertion puts the element before the first one it does not exceed. */
  lemma {:induction false} InsertAt<T>(cmp: (T, T) -> int, x: T, s: seq<T>) returns (k: nat)
    ensures k <= |s| && Insert(cmp, x, s) == s[..k] + [x] + s[k..]
    ensures forall i :: 0 <= i < k ==> cmp(x, s[i]) > 0
  {
    k := 0;
    if s != [] && cmp(x, s[0]) > 0 {
      var j := InsertAt(cmp, x, s[1..]);
      k := j + 1;
      assert s[..k] == [s[0]] + s[1..][..j] && s[k..] == s[1..][j..];
      forall i | 0 <= i < k
        ensures cmp(x, s[i]) > 0
      {
        if i > 0 { assert s[i] == s[1..][i - 1]; }
      }
    }
  }

  /** r is s with x put in at k. */
  predicate PutIn<T(==)>(s: seq<T>, k: nat, x: T, r: seq<T>) {
    && k <= |s| && |r| == |s| + 1 && r[k] == x
    && (forall i :: 0 <= i < k ==> r[i] == s[i])
    && (forall i :: k < i < |r| ==> r[i] == s[i - 1])
  }

  lemma LastAfterInsert<T(!new)>(s: seq<T>, k: nat, p: nat, x: T, r: seq<T>, some: set<T>, w: T)
    requires PutIn(s, k, x, r) && EndsIn(s, some, w) && (x in some ==> k <= p < |s| && s[p] == x)
    ensures EndsIn(r, some, w)
  {
    var j :| 0 <= j < |s| && s[j] == w && forall i :: j < i < |s| ==> s[i] !in some;
    forall y | y in some
      ensures y in r
    {
      var i :| 0 <= i < |s| && s[i] == y;
      assert r[if i < k then i else i + 1] == y;
    }
    var at := if j < k then j else j + 1;
    assert r[at] == w;
    forall i | at < i < |r|
      ensures r[i] !in some
    {
      if i == k { assert j < k; } else { assert r[i] == s[if i < k then i else i - 1]; }
    }
  }

  /** An element that occurs already is never inserted behind itself, so the last stays last. */
  lemma InsertKeepsLast<T(!new)>(cmp: (T, T) -> int, x: T, s: seq<T>, some: set<T>, w: T)
    requires EndsIn(s, some, w) && (x in some ==> cmp(x, x) <= 0)
    ensures EndsIn(Insert(cmp, x, s), some, w)
  {
    var k := InsertAt(cmp, x, s);
    var p := 0;
    if x in some {
      assert x in s;
      p :| 0 <= p < |s| && s[p] == x;
    }
    LastAfterInsert(s, k, p, x, Insert(cmp, x, s), some, w);
  }

  /** What a sort leaves last of the tail it has sorted already, it leaves last. */
  lemma {:induction false} SortKeepsLast<T(!new)>(cmp: (T, T) -> int, front: seq<T>, tail: seq<T>, some: set<T>, w: T)
    requires EndsIn(StableSort(cmp, tail), some, w) && forall x :: x in some ==> cmp(x, x) <= 0
    ensures EndsIn(StableSort(cmp, front + tail), some, w)
  {
    hide EndsIn;
    if front == [] {
      assert front + tail == tail;
    } else {
      assert (front + tail)[1..] == front[1..] + tail;
      SortKeepsLast(cmp, front[1..], tail, some, w);
      InsertKeepsLast(cmp, front[0], StableSort(cmp, front[1..] + tail), some, w);
    }
  }

  lemma OneLast<T(!new)>(s: seq<T>, some: set<T>, v: T, w: T)
    requires EndsIn(s, some, v) && EndsIn(s, some, w)
    ensures v == w
  {
    var i :| 0 <= i < |s| && s[i] == v && forall k :: i < k < |s| ==> s[k] !in some;
    var j :| 0 <= j < |s| && s[j] == w && forall k :: j < k < |s| ==> s[k] !in some;
  }

  lemma Pick<T>(s: seq<T>, x: T) returns (rest: seq<T>)
    requires x in s
    ensures multiset(rest + [x]) == multiset(s)
  {
    var k :| 0 <= k < |s| && s[k] == x;
    rest := s[..k] + s[k + 1..];
    assert s == s[..k] + [x] + s[k + 1..];
  }

  // --------------------------------------------------------------------- strings.Compare

  function Compare(a: string, b: string): int {
    if a == [] then (if b == [] then 0 else -1)
    else if b == [] then 1
    else if a[0] < b[0] then -1
    else if b[0] < a[0] then 1
    else Compare(a[1..], b[1..])
  }

  lemma {:induction false} CompareIsStrict(a: string, b: string)
    ensures Compare(a, b) == 0 <==> a == b
    ensures Compare(a, b) == -Compare(b, a)
  {
    if a != [] && b != [] && a[0] == b[0] {
      CompareIsStrict(a[1..], b[1..]);
      assert a == [a[0]] + a[1..] && b == [b[0]] + b[1..];
    }
  }

  lemma {:induction false} CompareTransitive(a: string, b: string, c: string)
    requires Compare(a, b) <= 0 && Compare(b, c) <= 0
    ensures Compare(a, c) <= 0
  {
    if a != [] && b != [] && c != [] && a[0] == b[0] == c[0] {
      CompareTransitive(a[1..], b[1..], c[1..]);
    }
  }
}
