/** Comparators and the stable sort that `Array.prototype.sort` performs with one. */
module Orders {

  /** `cmp` orders all values totally; values it calls equal may still differ. */
  ghost predicate Comparator<T(!new)>(cmp: (T, T) -> int) {
    && (forall a, b :: Flips(cmp, a, b))
    && (forall a, b, c :: Chains(cmp, a, b, c))
  }

  ghost predicate Flips<T>(cmp: (T, T) -> int, a: T, b: T) {
    cmp(a, b) < 0 <==> cmp(b, a) > 0
  }

  ghost predicate Chains<T>(cmp: (T, T) -> int, a: T, b: T, c: T) {
    cmp(a, b) <= 0 && cmp(b, c) <= 0 ==> cmp(a, c) <= 0
  }

  ghost predicate Sorted<T>(s: seq<T>, cmp: (T, T) -> int) {
    forall i, j :: 0 <= i < j < |s| ==> cmp(s[i], s[j]) <= 0
  }

  /** `cmp` tells the elements of `s` apart. */
  ghost predicate Separates<T>(s: seq<T>, cmp: (T, T) -> int) {
    forall a, b :: a in s && b in s && cmp(a, b) == 0 ==> a == b
  }

  function Insert<T>(x: T, s: seq<T>, cmp: (T, T) -> int): seq<T> {
    if s == [] || cmp(x, s[0]) <= 0 then [x] + s
    else [s[0]] + Insert(x, s[1..], cmp)
  }

  /** The stable sort: an element is placed before the later ones it equals. */
  function Sort<T>(s: seq<T>, cmp: (T, T) -> int): seq<T> {
    if s == [] then [] else Insert(s[0], Sort(s[1..], cmp), cmp)
  }

  /** Sortedness one element at a time. */
  lemma SortedCons<T>(x: T, s: seq<T>, cmp: (T, T) -> int)
    requires Sorted(s, cmp)
    requires forall y :: y in s ==> cmp(x, y) <= 0
    ensures Sorted([x] + s, cmp)
  {
  }

  lemma {:induction false} InsertSorted<T(!new)>(x: T, s: seq<T>, cmp: (T, T) -> int)
    requires Comparator(cmp) && Sorted(s, cmp)
    ensures multiset(Insert(x, s, cmp)) == multiset{x} + multiset(s)
    ensures Sorted(Insert(x, s, cmp), cmp)
  {
    if s == [] {
    } else if cmp(x, s[0]) <= 0 {
      forall y | y in s ensures cmp(x, y) <= 0 {
        assert Chains(cmp, x, s[0], y);
        var i :| 0 <= i < |s| && s[i] == y;
        assert i == 0 || cmp(s[0], s[i]) <= 0;
      }
      SortedCons(x, s, cmp);
    } else {
      var rest := Insert(x, s[1..], cmp);
      InsertSorted(x, s[1..], cmp);
      assert s == [s[0]] + s[1..];
      assert Flips(cmp, s[0], x);
      forall y | y in rest ensures cmp(s[0], y) <= 0 {
        assert y in multiset(rest);
        assert y == x || y in s[1..];
      }
      SortedCons(s[0], rest, cmp);
    }
  }

  lemma {:induction false} SortSorts<T(!new)>(s: seq<T>, cmp: (T, T) -> int)
    requires Comparator(cmp)
    ensures multiset(Sort(s, cmp)) == multiset(s)
    ensures |Sort(s, cmp)| == |s|
    ensures Sorted(Sort(s, cmp), cmp)
  {
    if s != [] {
      SortSorts(s[1..], cmp);
      InsertSorted(s[0], Sort(s[1..], cmp), cmp);
      assert s == [s[0]] + s[1..];
    }
    assert |multiset(Sort(s, cmp))| == |multiset(s)|;
  }

  lemma HeadLeast<T(!new)>(s: seq<T>, y: T, cmp: (T, T) -> int)
    requires Comparator(cmp) && Sorted(s, cmp) && y in s
    ensures cmp(s[0], y) <= 0
  {
    var i :| 0 <= i < |s| && s[i] == y;
    assert Flips(cmp, y, y);
  }

  lemma TailMultiset<T>(s: seq<T>)
    requires s != []
    ensures multiset(s[1..]) == multiset(s) - multiset{s[0]}
    ensures s == [s[0]] + s[1..]
  {
    assert s == [s[0]] + s[1..];
  }

  lemma Pulled<T>(s: seq<T>, j: nat)
    requires j < |s|
    ensures s[j] in multiset(s) && multiset(s[..j] + s[j + 1..]) == multiset(s) - multiset{s[j]}
  {
    assert s == s[..j] + ([s[j]] + s[j + 1..]);
  }

  lemma SortedTail<T>(s: seq<T>, cmp: (T, T) -> int)
    requires s != [] && Sorted(s, cmp)
    ensures Sorted(s[1..], cmp)
    ensures Separates(s, cmp) ==> Separates(s[1..], cmp)
  {
    var r := s[1..];
    forall i, j | 0 <= i < j < |r| ensures cmp(r[i], r[j]) <= 0 {
      assert cmp(s[i + 1], s[j + 1]) <= 0;
    }
    assert forall x :: x in r ==> x in s;
  }

  lemma SameHead<T(!new)>(s: seq<T>, t: seq<T>, cmp: (T, T) -> int)
    requires Comparator(cmp) && s != [] && t != []
    requires multiset(s) == multiset(t) && Separates(s, cmp)
    requires Sorted(s, cmp) && Sorted(t, cmp)
    ensures s[0] == t[0]
  {
    assert s[0] in multiset(t) && t[0] in multiset(s);
    HeadLeast(t, s[0], cmp);
    HeadLeast(s, t[0], cmp);
    assert Flips(cmp, s[0], t[0]);
  }

  /** Sorted listings of the same elements are equal when the order tells those apart. */
  lemma {:induction false} SortedUnique<T(!new)>(s: seq<T>, t: seq<T>, cmp: (T, T) -> int)
    requires Comparator(cmp)
    requires multiset(s) == multiset(t) && Separates(s, cmp)
    requires Sorted(s, cmp) && Sorted(t, cmp)
    ensures s == t
  {
    assert |multiset(s)| == |multiset(t)|;
    if s != [] {
      SameHead(s, t, cmp);
      TailMultiset(s);
      TailMultiset(t);
      SortedTail(s, cmp);
      SortedTail(t, cmp);
      SortedUnique(s[1..], t[1..], cmp);
    }
  }

  /** Sorting forgets the order of the input when the comparator tells its elements apart. */
  lemma SortForgetsOrder<T(!new)>(s: seq<T>, t: seq<T>, cmp: (T, T) -> int)
    requires Comparator(cmp)
    requires multiset(s) == multiset(t) && Separates(s, cmp)
    ensures Sort(s, cmp) == Sort(t, cmp)
  {
    SortSorts(s, cmp);
    SortSorts(t, cmp);
    forall a, b | a in Sort(s, cmp) && b in Sort(s, cmp) && cmp(a, b) == 0 ensures a == b {
      assert a in multiset(s) && b in multiset(s);
    }
    SortedUnique(Sort(s, cmp), Sort(t, cmp), cmp);
  }

  /* Multiplicities in a list. */

  lemma Twice<T>(s: seq<T>, i: nat, j: nat)
    requires i < j < |s| && s[i] == s[j]
    ensures multiset(s)[s[i]] >= 2
  {
    assert s == s[..j] + [s[j]] + s[j + 1..];
    assert s[..j][i] == s[i];
  }

  lemma Once<T>(s: seq<T>, p: nat)
    requires p < |s| && forall q :: 0 <= q < |s| && q != p ==> s[q] != s[p]
    ensures multiset(s)[s[p]] == 1
  {
    assert s == s[..p] + [s[p]] + s[p + 1..];
    assert s[p] !in s[..p] && s[p] !in s[p + 1..];
  }
}
