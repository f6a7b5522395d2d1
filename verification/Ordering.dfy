/** Deterministic ordering: code-unit comparison of strings and stable sorting by a comparison. */
module Ordering {

  /** Lexicographic order of strings by code unit. */
  predicate CodeUnitLe(a: string, b: string) {
    a == "" || (b != "" && (a[0] < b[0] || (a[0] == b[0] && CodeUnitLe(a[1..], b[1..]))))
  }

  lemma {:induction false} CodeUnitTotal(a: string, b: string)
    ensures CodeUnitLe(a, b) || CodeUnitLe(b, a)
    ensures CodeUnitLe(a, b) && CodeUnitLe(b, a) ==> a == b
  {
    if a != "" && b != "" {
      CodeUnitTotal(a[1..], b[1..]);
      assert a == [a[0]] + a[1..] && b == [b[0]] + b[1..];
    }
  }

  lemma {:induction false} CodeUnitTransitive(a: string, b: string, c: string)
    requires CodeUnitLe(a, b) && CodeUnitLe(b, c)
    ensures CodeUnitLe(a, c)
  {
    if a != "" && a[0] == b[0] == c[0] {
      CodeUnitTransitive(a[1..], b[1..], c[1..]);
    }
  }

  /** The two strings agree before position `k`, where `a` has the smaller character. */
  predicate SmallerAt(a: string, b: string, k: nat) {
    k < |a| && k < |b| && a[..k] == b[..k] && a[k] < b[k]
  }

  /** Dictionary order: a prefix comes first, and otherwise the first difference decides. */
  ghost predicate Dictionary(a: string, b: string) {
    a <= b || exists k: nat :: SmallerAt(a, b, k)
  }

  lemma {:induction false} CodeUnitsCompareAsADictionary(a: string, b: string)
    ensures CodeUnitLe(a, b) <==> Dictionary(a, b)
  {
    if a != "" && b != "" {
      var c, d := a[1..], b[1..];
      assert a == [a[0]] + c && b == [b[0]] + d;
      CodeUnitsCompareAsADictionary(c, d);
      if a[0] < b[0] {
        assert SmallerAt(a, b, 0);
      }
      if a[0] == b[0] {
        if k: nat :| SmallerAt(c, d, k) {
          assert a[..k + 1] == [a[0]] + c[..k] && b[..k + 1] == [b[0]] + d[..k];
          assert SmallerAt(a, b, k + 1);
        }
      }
      if k: nat :| SmallerAt(a, b, k) {
        if k != 0 {
          assert a[..k][0] == b[..k][0];
          assert c[..k - 1] == a[..k][1..] && d[..k - 1] == b[..k][1..];
          assert SmallerAt(c, d, k - 1);
        }
      }
      if a <= b {
        assert c == b[1..|a|];
      }
    }
  }

  ghost predicate TotalPreorder<T(!new)>(le: (T, T) -> bool) {
    && (forall x, y :: le(x, y) || le(y, x))
    && (forall x, y, z :: le(x, y) && le(y, z) ==> le(x, z))
  }

  /** No two different elements of `xs` are equal for the comparison. */
  ghost predicate Separates<T(!new)>(le: (T, T) -> bool, xs: multiset<T>) {
    forall x, y | x in xs && y in xs && le(x, y) && le(y, x) :: x == y
  }

  ghost predicate Sorted<T(!new)>(le: (T, T) -> bool, xs: seq<T>) {
    forall i, j | 0 <= i < j < |xs| :: le(xs[i], xs[j])
  }

  function Insert<T>(le: (T, T) -> bool, x: T, xs: seq<T>): seq<T> {
    if xs == [] || le(x, xs[0]) then [x] + xs else [xs[0]] + Insert(le, x, xs[1..])
  }

  /** Stable sort: equal elements keep their order. */
  function Sort<T>(le: (T, T) -> bool, xs: seq<T>): seq<T> {
    if xs == [] then [] else Insert(le, xs[0], Sort(le, xs[1..]))
  }

  lemma {:induction false} InsertPermutes<T>(le: (T, T) -> bool, x: T, xs: seq<T>)
    ensures multiset(Insert(le, x, xs)) == multiset{x} + multiset(xs)
  {
    if xs != [] && !le(x, xs[0]) {
      InsertPermutes(le, x, xs[1..]);
      assert xs == [xs[0]] + xs[1..];
    }
  }

  lemma {:induction false} SortPermutes<T>(le: (T, T) -> bool, xs: seq<T>)
    ensures multiset(Sort(le, xs)) == multiset(xs)
    ensures |Sort(le, xs)| == |xs|
  {
    if xs != [] {
      SortPermutes(le, xs[1..]);
      InsertPermutes(le, xs[0], Sort(le, xs[1..]));
      assert xs == [xs[0]] + xs[1..];
    }
    assert |multiset(Sort(le, xs))| == |multiset(xs)|;
  }

  lemma {:induction false} InsertSorted<T(!new)>(le: (T, T) -> bool, x: T, xs: seq<T>)
    requires TotalPreorder(le) && Sorted(le, xs)
    ensures Sorted(le, Insert(le, x, xs))
  {
    if xs != [] && !le(x, xs[0]) {
      InsertSorted(le, x, xs[1..]);
      var rest := Insert(le, x, xs[1..]);
      InsertPermutes(le, x, xs[1..]);
      forall y | y in rest ensures le(xs[0], y) {
        assert y in multiset(rest);
        if y != x {
          assert y in xs[1..];
        }
      }
    }
  }

  lemma {:induction false} SortSorts<T(!new)>(le: (T, T) -> bool, xs: seq<T>)
    requires TotalPreorder(le)
    ensures Sorted(le, Sort(le, xs))
  {
    if xs != [] {
      SortSorts(le, xs[1..]);
      InsertSorted(le, xs[0], Sort(le, xs[1..]));
    }
  }

  /** A sorted arrangement of separated elements is unique. */
  lemma SortedUnique<T(!new)>(le: (T, T) -> bool, xs: seq<T>, ys: seq<T>)
    requires Sorted(le, xs) && Sorted(le, ys)
    requires multiset(xs) == multiset(ys) && Separates(le, multiset(xs))
    requires TotalPreorder(le)
    ensures xs == ys
  {
    SortedSame(le, xs, ys, multiset(xs));
  }

  lemma {:induction false} SortedSame<T(!new)>(le: (T, T) -> bool, xs: seq<T>, ys: seq<T>, all: multiset<T>)
    requires TotalPreorder(le) && Separates(le, all) && multiset(xs) <= all
    requires Sorted(le, xs) && Sorted(le, ys) && multiset(xs) == multiset(ys)
    ensures xs == ys
  {
    SameLength(xs, ys);
    if xs != [] {
      LeastFirst(le, xs, ys);
      LeastFirst(le, ys, xs);
      assert xs[0] == ys[0];
      DropFirst(xs);
      DropFirst(ys);
      SortedSame(le, xs[1..], ys[1..], all);
      SameFromParts(xs, ys);
    }
  }

  lemma SameFromParts<T>(xs: seq<T>, ys: seq<T>)
    requires xs != [] && ys != [] && xs[0] == ys[0] && xs[1..] == ys[1..]
    ensures xs == ys
  {
    assert xs == [xs[0]] + xs[1..] && ys == [ys[0]] + ys[1..];
  }

  lemma SameLength<T>(xs: seq<T>, ys: seq<T>)
    requires multiset(xs) == multiset(ys)
    ensures |xs| == |ys|
  {
    assert |multiset(xs)| == |multiset(ys)|;
  }

  /** The first element of a sorted sequence comes before the first of any arrangement of it. */
  lemma LeastFirst<T(!new)>(le: (T, T) -> bool, xs: seq<T>, ys: seq<T>)
    requires TotalPreorder(le) && Sorted(le, xs) && multiset(xs) == multiset(ys) && xs != [] && ys != []
    ensures le(xs[0], ys[0]) && xs[0] in multiset(xs) && ys[0] in multiset(xs)
  {
    assert ys[0] in multiset(xs);
    var i :| 0 <= i < |xs| && xs[i] == ys[0];
    assert i == 0 || le(xs[0], xs[i]);
  }

  lemma DropFirst<T>(xs: seq<T>)
    requires xs != []
    ensures multiset(xs[1..]) == multiset(xs) - multiset{xs[0]}
  {
    assert xs == [xs[0]] + xs[1..];
  }

  /** Sorting forgets the order in which separated elements were supplied. */
  lemma SortForgetsOrder<T(!new)>(le: (T, T) -> bool, xs: seq<T>, ys: seq<T>)
    requires TotalPreorder(le) && multiset(xs) == multiset(ys) && Separates(le, multiset(xs))
    ensures Sort(le, xs) == Sort(le, ys)
  {
    SortSorts(le, xs);
    SortSorts(le, ys);
    SortPermutes(le, xs);
    SortPermutes(le, ys);
    SortedUnique(le, Sort(le, xs), Sort(le, ys));
  }

  /** Sorting a sorted sequence of separated elements changes nothing. */
  lemma SortIdempotent<T(!new)>(le: (T, T) -> bool, xs: seq<T>)
    requires TotalPreorder(le) && Sorted(le, xs) && Separates(le, multiset(xs))
    ensures Sort(le, xs) == xs
  {
    SortSorts(le, xs);
    SortPermutes(le, xs);
    SortedUnique(le, Sort(le, xs), xs);
  }

  /** No two positions carry the same key. */
  ghost predicate KeysDistinct<T(!new), K(!new)>(key: T -> K, xs: seq<T>) {
    forall i, j | 0 <= i < j < |xs| :: key(xs[i]) != key(xs[j])
  }

  lemma {:induction false} TwiceMeansTwoPlaces<T>(xs: seq<T>, x: T)
    requires multiset(xs)[x] >= 2
    ensures exists i, j :: 0 <= i < j < |xs| && xs[i] == x && xs[j] == x
  {
    if xs == [] {
      assert false;
    } else {
      assert xs == [xs[0]] + xs[1..];
      if xs[0] == x {
        assert x in multiset(xs[1..]);
        var j :| 0 <= j < |xs[1..]| && xs[1..][j] == x;
        assert xs[0] == x && xs[j + 1] == x;
      } else {
        TwiceMeansTwoPlaces(xs[1..], x);
        var i, j :| 0 <= i < j < |xs[1..]| && xs[1..][i] == x && xs[1..][j] == x;
        assert xs[i + 1] == x && xs[j + 1] == x;
      }
    }
  }

  lemma TwoPlacesMeanTwice<T>(xs: seq<T>, i: nat, j: nat)
    requires i < j < |xs| && xs[i] == xs[j]
    ensures multiset(xs)[xs[i]] >= 2
  {
    assert xs == xs[..i] + [xs[i]] + xs[i + 1..j] + [xs[j]] + xs[j + 1..];
  }

  /** Rearranging keeps keys distinct. */
  lemma KeysDistinctPermute<T(!new), K(!new)>(key: T -> K, xs: seq<T>, ys: seq<T>)
    requires multiset(xs) == multiset(ys) && KeysDistinct(key, xs)
    ensures KeysDistinct(key, ys)
  {
    forall i, j | 0 <= i < j < |ys| ensures key(ys[i]) != key(ys[j]) {
      assert ys[i] in multiset(xs) && ys[j] in multiset(xs);
      var k :| 0 <= k < |xs| && xs[k] == ys[i];
      var l :| 0 <= l < |xs| && xs[l] == ys[j];
      if k == l {
        TwoPlacesMeanTwice(ys, i, j);
        TwiceMeansTwoPlaces(xs, ys[i]);
      }
    }
  }

  function Filter<T>(p: T -> bool, xs: seq<T>): seq<T> {
    if xs == [] then []
    else if p(xs[0]) then [xs[0]] + Filter(p, xs[1..])
    else Filter(p, xs[1..])
  }

  lemma {:induction false} FilterCounts<T>(p: T -> bool, xs: seq<T>, x: T)
    ensures multiset(Filter(p, xs))[x] == if p(x) then multiset(xs)[x] else 0
  {
    if xs != [] {
      assert xs == [xs[0]] + xs[1..];
      FilterCounts(p, xs[1..], x);
    }
  }

  lemma {:induction false} FilterAppend<T>(p: T -> bool, xs: seq<T>, x: T)
    ensures Filter(p, xs + [x]) == Filter(p, xs) + (if p(x) then [x] else [])
  {
    if xs == [] {
      assert [x][1..] == [] && xs + [x] == [x];
    } else {
      assert (xs + [x])[0] == xs[0] && (xs + [x])[1..] == xs[1..] + [x];
      FilterAppend(p, xs[1..], x);
    }
  }

  /** Filtering rearranged elements rearranges the result. */
  lemma FilterPermutes<T(!new)>(p: T -> bool, xs: seq<T>, ys: seq<T>)
    requires multiset(xs) == multiset(ys)
    ensures multiset(Filter(p, xs)) == multiset(Filter(p, ys))
  {
    forall x ensures multiset(Filter(p, xs))[x] == multiset(Filter(p, ys))[x] {
      FilterCounts(p, xs, x);
      FilterCounts(p, ys, x);
    }
  }

  /** The sequence without its element at `i`. */
  function Without<T>(xs: seq<T>, i: nat): seq<T>
    requires i < |xs|
  {
    xs[..i] + xs[i + 1..]
  }

  lemma WithoutOne<T>(xs: seq<T>, i: nat)
    requires i < |xs|
    ensures multiset(xs) == multiset(Without(xs, i)) + multiset{xs[i]}
    ensures multiset(Without(xs, i)) == multiset(xs) - multiset{xs[i]}
  {
    assert xs == xs[..i] + [xs[i]] + xs[i + 1..];
  }

  /** Sorting keeps the elements, and with them the distinctness of their keys. */
  lemma SortKeeps<T(!new), K(!new)>(le: (T, T) -> bool, key: T -> K, xs: seq<T>)
    ensures |Sort(le, xs)| == |xs|
    ensures forall x :: x in Sort(le, xs) <==> x in xs
    ensures KeysDistinct(key, xs) ==> KeysDistinct(key, Sort(le, xs))
  {
    SortPermutes(le, xs);
    forall x ensures x in Sort(le, xs) <==> x in xs {
      assert x in multiset(Sort(le, xs)) <==> x in multiset(xs);
    }
    if KeysDistinct(key, xs) {
      KeysDistinctPermute(key, xs, Sort(le, xs));
    }
  }
}
