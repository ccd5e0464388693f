/** Outcomes, and the orders the platform sorts by.

    `sorted(...)` over values with distinct keys is the one strictly increasing
    sequence of those values, so it is modelled as a function of the *set*. */
module Ordering {

  datatype Option<+T> = None | Some(value: T)

  datatype Result<+T, +E> = Ok(value: T) | Err(error: E) {
    predicate IsFailure() {
      Err?
    }

    function PropagateFailure<U>(): Result<U, E>
      requires Err?
    {
      Err(error)
    }

    function Extract(): T
      requires Ok?
    {
      value
    }
  }

  predicate IsSpace(c: char) {
    c == ' ' || c == '\t' || c == '\n' || c == '\r'
  }

  /** An execution or invocation identity: nonempty, at most 256 characters, nothing to strip. */
  predicate IsBoundedIdentity(id: string) {
    0 < |id| <= 256 && !IsSpace(id[0]) && !IsSpace(id[|id| - 1])
  }

  /** Code-point order on strings, as Python, SQLite (BINARY) and Spark compare them. */
  predicate StringLess(a: string, b: string) {
    if b == "" then false
    else if a == "" then true
    else a[0] < b[0] || (a[0] == b[0] && StringLess(a[1..], b[1..]))
  }

  lemma {:induction false} StringLessAsymmetric(a: string, b: string)
    ensures !(StringLess(a, b) && StringLess(b, a))
  {
    if a != "" && b != "" && a[0] == b[0] {
      StringLessAsymmetric(a[1..], b[1..]);
    }
  }

  lemma {:induction false} StringLessConnected(a: string, b: string)
    requires a != b
    ensures StringLess(a, b) || StringLess(b, a)
  {
    if a != "" && b != "" && a[0] == b[0] {
      assert a == [a[0]] + a[1..] && b == [b[0]] + b[1..];
      StringLessConnected(a[1..], b[1..]);
    }
  }

  lemma {:induction false} StringLessTransitive(a: string, b: string, c: string)
    requires StringLess(a, b) && StringLess(b, c)
    ensures StringLess(a, c)
  {
    if a != "" && b[0] == a[0] && c[0] == b[0] {
      StringLessTransitive(a[1..], b[1..], c[1..]);
    }
  }

  type Key = (string, string)

  /** Lexicographic order on `(customer_id, feature_name)` or `(partition_key, sort_key)`. */
  predicate KeyLess(a: Key, b: Key) {
    StringLess(a.0, b.0) || (a.0 == b.0 && StringLess(a.1, b.1))
  }

  lemma StringOrder(s: set<string>)
    ensures StrictOrderOn(s, StringLess)
  {
    forall a, b | a in s && b in s ensures !(StringLess(a, b) && StringLess(b, a)) {
      StringLessAsymmetric(a, b);
    }
    forall a, b | a in s && b in s && a != b ensures StringLess(a, b) || StringLess(b, a) {
      StringLessConnected(a, b);
    }
    forall a, b, c | a in s && b in s && c in s && StringLess(a, b) && StringLess(b, c)
      ensures StringLess(a, c)
    {
      StringLessTransitive(a, b, c);
    }
  }

  lemma KeyOrder(s: set<Key>)
    ensures StrictOrderOn(s, KeyLess)
  {
    StringOrder(set k | k in s :: k.0);
    StringOrder(set k | k in s :: k.1);
  }

  ghost predicate StrictOrderOn<T(!new)>(s: set<T>, less: (T, T) -> bool) {
    && (forall x, y | x in s && y in s :: !(less(x, y) && less(y, x)))
    && (forall x, y | x in s && y in s && x != y :: less(x, y) || less(y, x))
    && (forall x, y, z | x in s && y in s && z in s && less(x, y) && less(y, z) :: less(x, z))
  }

  ghost predicate Increasing<T(!new)>(r: seq<T>, less: (T, T) -> bool) {
    forall i, j | 0 <= i < j < |r| :: less(r[i], r[j])
  }

  predicate IsLeast<T(==,!new)>(m: T, s: set<T>, less: (T, T) -> bool) {
    m in s && forall x | x in s :: x == m || less(m, x)
  }

  lemma {:induction false} LeastExists<T(!new)>(s: set<T>, less: (T, T) -> bool) returns (m: T)
    requires s != {} && StrictOrderOn(s, less)
    ensures IsLeast(m, s, less)
  {
    var p :| p in s;
    m := p;
    var rest := s - {p};
    if rest != {} {
      var q := LeastExists(rest, less);
      m := if less(p, q) then p else q;
    }
    forall x | x in s ensures x == m || less(m, x) {
      assert x == p || x in rest;
    }
  }

  function Least<T(==,!new)>(s: set<T>, less: (T, T) -> bool): (m: T)
    requires s != {} && StrictOrderOn(s, less)
    ensures IsLeast(m, s, less)
  {
    assert exists m :: m in s && IsLeast(m, s, less) by {
      var m := LeastExists(s, less);
    }
    var m :| m in s && IsLeast(m, s, less);
    m
  }

  /** Python's `sorted` on a collection with pairwise distinct keys. */
  function Sorted<T(==,!new)>(s: set<T>, less: (T, T) -> bool): (r: seq<T>)
    requires StrictOrderOn(s, less)
    ensures |r| == |s|
    ensures forall x :: x in r <==> x in s
    ensures Increasing(r, less)
  {
    if s == {} then [] else
      var m := Least(s, less);
      [m] + Sorted(s - {m}, less)
  }

  ghost predicate AsymmetricOn<T(!new)>(s: seq<T>, less: (T, T) -> bool) {
    forall x, y | x in s && y in s :: !(less(x, y) && less(y, x))
  }

  lemma SameHead<T(!new)>(a: seq<T>, b: seq<T>, less: (T, T) -> bool)
    requires a != [] && b != []
    requires Increasing(a, less) && Increasing(b, less) && AsymmetricOn(a, less)
    requires a[0] in b && b[0] in a
    ensures a[0] == b[0]
  {
    var i :| 0 <= i < |a| && a[i] == b[0];
    var j :| 0 <= j < |b| && b[j] == a[0];
  }

  lemma SameTail<T(!new)>(a: seq<T>, b: seq<T>, less: (T, T) -> bool)
    requires a != [] && b != [] && a[0] == b[0]
    requires Increasing(a, less) && AsymmetricOn(a, less)
    requires forall i | 0 <= i < |a| :: a[i] in b
    ensures forall i | 0 <= i < |a[1..]| :: a[1..][i] in b[1..]
  {
    forall i | 0 <= i < |a[1..]| ensures a[1..][i] in b[1..] {
      var x := a[i + 1];
      assert less(a[0], x) && x in a;
      var j :| 0 <= j < |b| && b[j] == x;
      assert b[1..][j - 1] == x;
    }
  }

  lemma TailStays<T(!new)>(a: seq<T>, less: (T, T) -> bool)
    requires a != [] && Increasing(a, less) && AsymmetricOn(a, less)
    ensures Increasing(a[1..], less) && AsymmetricOn(a[1..], less)
  {
    assert forall x | x in a[1..] :: x in a;
  }

  lemma HeadAndTail<T>(a: seq<T>, b: seq<T>)
    requires a != [] && b != [] && a[0] == b[0] && a[1..] == b[1..]
    ensures a == b
  {
    assert a == [a[0]] + a[1..] && b == [b[0]] + b[1..];
  }

  /** A strictly increasing sequence is determined by its elements. */
  lemma {:induction false} IncreasingIsUnique<T(!new)>(a: seq<T>, b: seq<T>, less: (T, T) -> bool)
    requires Increasing(a, less) && Increasing(b, less)
    requires AsymmetricOn(a, less) && AsymmetricOn(b, less)
    requires forall i | 0 <= i < |a| :: a[i] in b
    requires forall i | 0 <= i < |b| :: b[i] in a
    ensures a == b
  {
    hide Increasing;
    hide AsymmetricOn;
    assert a == [] || a[0] in b;
    assert b == [] || b[0] in a;
    if a != [] && b != [] {
      SameHead(a, b, less);
      SameTail(a, b, less);
      SameTail(b, a, less);
      TailStays(a, less);
      TailStays(b, less);
      IncreasingIsUnique(a[1..], b[1..], less);
      HeadAndTail(a, b);
    }
  }

  lemma SortedIsUnique<T(!new)>(r: seq<T>, s: set<T>, less: (T, T) -> bool)
    requires StrictOrderOn(s, less)
    requires Increasing(r, less)
    requires forall x :: x in r <==> x in s
    ensures r == Sorted(s, less)
  {
    IncreasingIsUnique(r, Sorted(s, less), less);
  }

  /** `tuple(x for x in s if p(x))` */
  function Filter<T(!new)>(s: seq<T>, p: T -> bool): (r: seq<T>)
    ensures forall x :: x in r <==> x in s && p(x)
    ensures |r| <= |s|
  {
    if s == [] then [] else
      (if p(s[0]) then [s[0]] else []) + Filter(s[1..], p)
  }

  ghost predicate Distinct<T(!new)>(s: seq<T>) {
    forall i, j | 0 <= i < j < |s| :: s[i] != s[j]
  }

  function Elements<T(!new)>(s: seq<T>): (r: set<T>)
    ensures forall x :: x in r <==> x in s
  {
    set x | x in s
  }

  lemma {:induction false} DistinctCount<T(!new)>(s: seq<T>)
    ensures |Elements(s)| <= |s|
    ensures |Elements(s)| == |s| <==> Distinct(s)
  {
    if s != [] {
      var rest := s[1..];
      DistinctCount(rest);
      if s[0] in rest {
        assert Elements(s) == Elements(rest);
        var j :| 0 <= j < |rest| && rest[j] == s[0];
        assert s[0] == s[j + 1];
      } else {
        assert Elements(s) == Elements(rest) + {s[0]};
        assert Distinct(rest) ==> Distinct(s);
        assert Distinct(s) ==> Distinct(rest);
      }
    }
  }

  lemma SubsetSize<T>(a: set<T>, b: set<T>)
    requires a <= b
    ensures |a| <= |b|
  {
    assert b == a + (b - a);
  }

  lemma {:induction false} FilterKeepsOrder<T(!new)>(s: seq<T>, p: T -> bool, less: (T, T) -> bool)
    requires Increasing(s, less)
    ensures Increasing(Filter(s, p), less)
  {
    if s != [] {
      FilterKeepsOrder(s[1..], p, less);
      assert forall x | x in Filter(s[1..], p) :: x in s[1..] && less(s[0], x);
    }
  }

  lemma {:induction false} FilterKeepsDistinct<T(!new)>(s: seq<T>, p: T -> bool)
    requires Distinct(s)
    ensures Distinct(Filter(s, p))
  {
    if s != [] {
      FilterKeepsDistinct(s[1..], p);
      assert forall x | x in Filter(s[1..], p) :: x in s[1..] && x != s[0];
    }
  }

  /** Python's stable `sorted` where keys may repeat. */
  function StableSort<T>(s: seq<T>, less: (T, T) -> bool): (r: seq<T>)
    ensures multiset(r) == multiset(s)
  {
    if s == [] then [] else
      var last := |s| - 1;
      assert s == s[..last] + [s[last]];
      InsertLast(StableSort(s[..last], less), s[last], less)
  }

  function InsertLast<T>(s: seq<T>, x: T, less: (T, T) -> bool): (r: seq<T>)
    ensures multiset(r) == multiset(s) + multiset{x}
  {
    if s == [] then [x] else
      var last := |s| - 1;
      assert s == s[..last] + [s[last]];
      if less(x, s[last]) then InsertLast(s[..last], x, less) + [s[last]] else s + [x]
  }

  /** `x` has a place in the increasing sequence `s`. */
  ghost predicate Fits<T(!new)>(s: seq<T>, x: T, less: (T, T) -> bool) {
    && (forall i | 0 <= i < |s| :: less(x, s[i]) || less(s[i], x))
    && (forall i, j | 0 <= i < j < |s| :: less(s[j], x) ==> less(s[i], x))
  }

  lemma {:induction false} InsertKeepsIncreasing<T(!new)>(s: seq<T>, x: T, less: (T, T) -> bool)
    requires Increasing(s, less) && Fits(s, x, less)
    ensures Increasing(InsertLast(s, x, less), less)
  {
    if s != [] {
      var last := |s| - 1;
      if less(x, s[last]) {
        InsertKeepsIncreasing(s[..last], x, less);
        var r := InsertLast(s[..last], x, less);
        InsertElements(s[..last], x, less);
        forall i | 0 <= i < |r| ensures less(r[i], s[last]) {
          assert r[i] in r;
        }
      }
    }
  }

  lemma InsertElements<T(!new)>(s: seq<T>, x: T, less: (T, T) -> bool)
    ensures forall y :: y in InsertLast(s, x, less) <==> y in s || y == x
  {
    forall y ensures y in InsertLast(s, x, less) <==> y in s || y == x {
      assert y in multiset(InsertLast(s, x, less)) <==> y in multiset(s) + multiset{x};
    }
  }

  lemma StableSortElements<T(!new)>(s: seq<T>, less: (T, T) -> bool)
    ensures forall y :: y in StableSort(s, less) <==> y in s
  {
    forall y ensures y in StableSort(s, less) <==> y in s {
      assert y in multiset(StableSort(s, less)) <==> y in multiset(s);
    }
  }

  /** On distinct elements the stable sort is the strictly increasing one. */
  lemma {:induction false} StableSortIsIncreasing<T(!new)>(s: seq<T>, all: set<T>, less: (T, T) -> bool)
    requires Distinct(s) && StrictOrderOn(all, less) && forall i | 0 <= i < |s| :: s[i] in all
    ensures Increasing(StableSort(s, less), less)
  {
    if s != [] {
      var last := |s| - 1;
      StableSortIsIncreasing(s[..last], all, less);
      var r := StableSort(s[..last], less);
      StableSortElements(s[..last], less);
      HasAPlace(r, s[last], all, less);
      InsertKeepsIncreasing(r, s[last], less);
    }
  }

  lemma HasAPlace<T(!new)>(r: seq<T>, x: T, all: set<T>, less: (T, T) -> bool)
    requires StrictOrderOn(all, less) && x in all && Increasing(r, less) && x !in r
    requires forall y | y in r :: y in all
    ensures Fits(r, x, less)
  {
    forall i | 0 <= i < |r| ensures less(x, r[i]) || less(r[i], x) {
      assert r[i] in r;
    }
    forall i, j | 0 <= i < j < |r| && less(r[j], x) ensures less(r[i], x) {
      assert r[i] in r && r[j] in r && less(r[i], r[j]);
    }
  }

  /** No element is less than one before it. */
  ghost predicate NonDecreasing<T(!new)>(s: seq<T>, less: (T, T) -> bool) {
    forall i, j | 0 <= i < j < |s| :: !less(s[j], s[i])
  }

  /** Elements that are not ordered either way stand alike to all others. */
  ghost predicate WeakOrder<T(!new)>(less: (T, T) -> bool) {
    && (forall x, y :: less(x, y) ==> !less(y, x))
    && (forall x, y, z :: less(x, z) ==> less(x, y) || less(y, z))
  }

  lemma StringsAreWeaklyOrdered()
    ensures WeakOrder(StringLess)
  {
    forall x, y | StringLess(x, y) ensures !StringLess(y, x) {
      StringLessAsymmetric(x, y);
    }
    forall x, y, z | StringLess(x, z) ensures StringLess(x, y) || StringLess(y, z) {
      if x != y {
        StringLessConnected(x, y);
        if StringLess(y, x) { StringLessTransitive(y, x, z); }
      }
    }
  }

  lemma {:induction false} InsertInOrder<T(!new)>(s: seq<T>, x: T, less: (T, T) -> bool)
    requires WeakOrder(less) && NonDecreasing(s, less)
    ensures NonDecreasing(InsertLast(s, x, less), less)
  {
    if s != [] {
      var last := |s| - 1;
      if less(x, s[last]) {
        InsertInOrder(s[..last], x, less);
        var r := InsertLast(s[..last], x, less);
        InsertElements(s[..last], x, less);
        forall i | 0 <= i < |r| ensures !less(s[last], r[i]) {
          assert r[i] in r;
        }
      } else {
        forall i | 0 <= i < |s| ensures !less(x, s[i]) {
          if i < last { assert !less(s[last], s[i]); }
        }
      }
    }
  }

  lemma {:induction false} StableSortOrders<T(!new)>(s: seq<T>, less: (T, T) -> bool)
    requires WeakOrder(less)
    ensures NonDecreasing(StableSort(s, less), less)
  {
    if s != [] {
      hide NonDecreasing;
      hide WeakOrder;
      hide InsertLast;
      StableSortOrders(s[..|s| - 1], less);
      InsertInOrder(StableSort(s[..|s| - 1], less), s[|s| - 1], less);
    }
  }

  lemma InsertAtEnd<T(!new)>(s: seq<T>, x: T, less: (T, T) -> bool)
    requires s == [] || !less(x, s[|s| - 1])
    ensures InsertLast(s, x, less) == s + [x]
  {
  }

  /** An ordered sequence is left as it is. */
  lemma {:induction false} StableSortKeeps<T(!new)>(s: seq<T>, less: (T, T) -> bool)
    requires NonDecreasing(s, less)
    ensures StableSort(s, less) == s
  {
    if s != [] {
      hide InsertLast;
      var last := |s| - 1;
      assert NonDecreasing(s[..last], less);
      StableSortKeeps(s[..last], less);
      assert last > 0 ==> !less(s[last], s[last - 1]);
      hide NonDecreasing;
      InsertAtEnd(s[..last], s[last], less);
      assert s == s[..last] + [s[last]];
    }
  }

  ghost predicate KeysIdentify<T(!new)>(s: set<T>, key: T -> Key) {
    forall x, y | x in s && y in s && key(x) == key(y) :: x == y
  }

  lemma OrderByKey<T(!new)>(s: set<T>, key: T -> Key, less: (T, T) -> bool)
    requires KeysIdentify(s, key)
    requires forall x, y :: less(x, y) <==> KeyLess(key(x), key(y))
    ensures StrictOrderOn(s, less)
  {
    KeyOrder(set x | x in s :: key(x));
  }

  /** Sorting distinctly keyed values yields the one increasing arrangement of them. */
  lemma SortByKey<T(!new)>(s: seq<T>, key: T -> Key, less: (T, T) -> bool)
    requires forall i, j | 0 <= i < j < |s| :: key(s[i]) != key(s[j])
    requires forall x, y :: less(x, y) <==> KeyLess(key(x), key(y))
    ensures Increasing(StableSort(s, less), less)
    ensures forall x :: x in StableSort(s, less) <==> x in s
    ensures |StableSort(s, less)| == |s|
  {
    assert Distinct(s);
    forall x, y | x in Elements(s) && y in Elements(s) && key(x) == key(y) ensures x == y {
      var i :| 0 <= i < |s| && s[i] == x;
      var j :| 0 <= j < |s| && s[j] == y;
    }
    OrderByKey(Elements(s), key, less);
    StableSortIsIncreasing(s, Elements(s), less);
    StableSortElements(s, less);
    assert |multiset(StableSort(s, less))| == |multiset(s)|;
  }
}
