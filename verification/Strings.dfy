/** JavaScript strings: sequences of UTF-16 code units, compared unit by unit. */
module Strings {

  /** One UTF-16 code unit. */
  type Unit = u: int | 0 <= u < 0x10000

  type Str = seq<Unit>

  /** The sign convention of a comparator handed to `Array.prototype.sort`. */
  function Compare(a: Str, b: Str): int
  {
    if a == b then 0
    else if a == [] then -1
    else if b == [] then 1
    else if a[0] < b[0] then -1
    else if a[0] > b[0] then 1
    else Compare(a[1..], b[1..])
  }

  /** JavaScript's `x || y` on numbers: the second comparison breaks a tie of the first. */
  function Then(x: int, y: int): int {
    if x != 0 then x else y
  }

  lemma {:induction false} CompareZero(a: Str, b: Str)
    ensures Compare(a, b) == 0 <==> a == b
    ensures -1 <= Compare(a, b) <= 1
  {
    if a != b && a != [] && b != [] && a[0] == b[0] {
      assert a == [a[0]] + a[1..] && b == [b[0]] + b[1..];
      CompareZero(a[1..], b[1..]);
    }
  }

  lemma {:induction false} CompareFlips(a: Str, b: Str)
    ensures Compare(a, b) == -Compare(b, a)
  {
    if a != b && a != [] && b != [] && a[0] == b[0] {
      CompareFlips(a[1..], b[1..]);
    }
  }

  lemma {:induction false} CompareTransitive(a: Str, b: Str, c: Str)
    requires Compare(a, b) <= 0 && Compare(b, c) <= 0
    ensures Compare(a, c) <= 0
    ensures Compare(a, b) < 0 || Compare(b, c) < 0 ==> Compare(a, c) < 0
  {
    CompareZero(a, b);
    CompareZero(b, c);
    CompareZero(a, c);
    if a != b && b != c {
      if a != [] && a[0] == b[0] == c[0] {
        CompareZero(a[1..], b[1..]);
        CompareZero(b[1..], c[1..]);
        assert a[1..] != c[1..] ==> a != c;
        CompareTransitive(a[1..], b[1..], c[1..]);
        assert a != c by {
          if a == c {
            CompareFlips(a, b);
          }
        }
      } else if a == c {
        CompareFlips(a, b);
      }
    }
  }

  /** The two agree up to unit `i`, where `a` ends or has the smaller unit. */
  predicate BeforeAt(a: Str, b: Str, i: nat) {
    && i <= |a| && i < |b| && a[..i] == b[..i]
    && (i < |a| ==> a[i] < b[i])
  }

  /** A string comes first exactly when it is a proper prefix, or smaller at the first unit that differs. */
  lemma {:induction false} CompareBefore(a: Str, b: Str)
    ensures Compare(a, b) < 0 <==> exists i: nat :: BeforeAt(a, b, i)
  {
    if a == b || b == [] {
      forall i: nat ensures !BeforeAt(a, b, i) {
        assert i < |b| && a[..i] == b[..i] && i < |a| ==> a[i] == b[i];
      }
    } else if a == [] || a[0] != b[0] {
      assert BeforeAt(a, b, 0) <==> a == [] || a[0] < b[0];
      forall i: nat | i > 0 ensures !BeforeAt(a, b, i) {
        assert i <= |a| && i < |b| ==> a[..i][0] == a[0] && b[..i][0] == b[0];
      }
    } else {
      CompareBefore(a[1..], b[1..]);
      assert a == [a[0]] + a[1..] && b == [b[0]] + b[1..];
      if i: nat :| BeforeAt(a[1..], b[1..], i) {
        assert a[..i + 1] == [a[0]] + a[1..][..i] && b[..i + 1] == [b[0]] + b[1..][..i];
        assert BeforeAt(a, b, i + 1);
      }
      if i: nat :| BeforeAt(a, b, i) {
        assert i > 0;
        assert a[1..][..i - 1] == a[..i][1..] && b[1..][..i - 1] == b[..i][1..];
        assert BeforeAt(a[1..], b[1..], i - 1);
      }
    }
  }
}
