/** The orders the generator sorts by: Go's `<` on strings, and sort keys
    built from it. `sort.Slice` is modelled by a stable insertion sort on
    sequences; only "sorted" and "a permutation of the input" are promised
    about it, which is all `sort.Slice` promises. */
module Ordering {

  /** Go's `<` on strings: byte-wise lexicographic order of the UTF-8
      encodings, which coincides with the lexicographic order of the
      code points that Dafny's `char` holds. */
  predicate StringLess(a: string, b: string)
  {
    if |a| == 0 then |b| > 0
    else if |b| == 0 then false
    else if a[0] != b[0] then a[0] < b[0]
    else StringLess(a[1..], b[1..])
  }

  lemma {:induction false} StringLessIrreflexive(a: string)
    ensures !StringLess(a, a)
  {
    if |a| > 0 {
      StringLessIrreflexive(a[1..]);
    }
  }

  lemma {:induction false} StringLessTransitive(a: string, b: string, c: string)
    requires StringLess(a, b) && StringLess(b, c)
    ensures StringLess(a, c)
  {
    if |a| > 0 && a[0] == b[0] && b[0] == c[0] {
      StringLessTransitive(a[1..], b[1..], c[1..]);
    }
  }

  lemma {:induction false} StringLessTotal(a: string, b: string)
    requires a != b
    ensures StringLess(a, b) || StringLess(b, a)
  {
    if |a| > 0 && |b| > 0 && a[0] == b[0] {
      assert a == [a[0]] + a[1..] && b == [b[0]] + b[1..];
      StringLessTotal(a[1..], b[1..]);
    }
  }

  /** A key compared first by rank, then by text. */
  datatype SortKey = SortKey(rank: nat, text: string)

  predicate KeyLess(x: SortKey, y: SortKey)
  {
    x.rank < y.rank || (x.rank == y.rank && StringLess(x.text, y.text))
  }

  /** "Not greater": what `sort.Slice` guarantees between earlier and later elements. */
  predicate KeyLe(x: SortKey, y: SortKey)
  {
    !KeyLess(y, x)
  }

  lemma KeyLessIrreflexive(x: SortKey)
    ensures !KeyLess(x, x)
  {
    StringLessIrreflexive(x.text);
  }

  lemma KeyLessTransitive(x: SortKey, y: SortKey, z: SortKey)
    requires KeyLess(x, y) && KeyLess(y, z)
    ensures KeyLess(x, z)
  {
    if x.rank == y.rank == z.rank {
      StringLessTransitive(x.text, y.text, z.text);
    }
  }

  lemma KeyLessTotal(x: SortKey, y: SortKey)
    requires x != y
    ensures KeyLess(x, y) || KeyLess(y, x)
  {
    if x.rank == y.rank {
      StringLessTotal(x.text, y.text);
    }
  }

  lemma KeyLeTransitive(x: SortKey, y: SortKey, z: SortKey)
    requires KeyLe(x, y) && KeyLe(y, z)
    ensures KeyLe(x, z)
  {
    if KeyLess(z, x) {
      if x == y {
      } else {
        KeyLessTotal(x, y);
        KeyLessTransitive(z, x, y);
      }
    }
  }

  lemma KeyLessAsymmetric(x: SortKey, y: SortKey)
    requires KeyLess(x, y)
    ensures KeyLe(x, y)
  {
    if KeyLess(y, x) {
      KeyLessTransitive(x, y, x);
      KeyLessIrreflexive(x);
    }
  }

  /** No element is greater than any element after it. */
  ghost predicate SortedBy<T>(s: seq<T>, key: T -> SortKey)
  {
    forall i, j :: 0 <= i < j < |s| ==> KeyLe(key(s[i]), key(s[j]))
  }

  /** Inserts `x` before the first element that is not less than it. */
  function Insert<T>(x: T, s: seq<T>, key: T -> SortKey): (r: seq<T>)
    ensures multiset(r) == multiset(s) + multiset{x}
  {
    if |s| == 0 then [x]
    else if KeyLess(key(s[0]), key(x)) then
      assert s == [s[0]] + s[1..];
      [s[0]] + Insert(x, s[1..], key)
    else [x] + s
  }

  lemma {:induction false} InsertSorted<T>(x: T, s: seq<T>, key: T -> SortKey)
    requires SortedBy(s, key)
    ensures SortedBy(Insert(x, s, key), key)
  {
    if |s| > 0 {
      if KeyLess(key(s[0]), key(x)) {
        var tail := s[1..];
        InsertSorted(x, tail, key);
        var r := Insert(x, tail, key);
        forall j | 0 <= j < |r|
          ensures KeyLe(key(s[0]), key(r[j]))
        {
          assert r[j] in multiset(r);
          if r[j] == x {
            KeyLessAsymmetric(key(s[0]), key(x));
          } else {
            assert r[j] in multiset(tail);
            var k :| 0 <= k < |tail| && tail[k] == r[j];
            assert s[k + 1] == r[j];
          }
        }
        var out := [s[0]] + r;
        forall i, j | 0 <= i < j < |out|
          ensures KeyLe(key(out[i]), key(out[j]))
        {
          if i > 0 {
            assert out[i] == r[i - 1] && out[j] == r[j - 1];
          }
        }
      } else {
        forall j | 0 <= j < |s|
          ensures KeyLe(key(x), key(s[j]))
        {
          if j > 0 {
            KeyLeTransitive(key(x), key(s[0]), key(s[j]));
          }
        }
        var out := [x] + s;
        forall i, j | 0 <= i < j < |out|
          ensures KeyLe(key(out[i]), key(out[j]))
        {
          if i > 0 {
            assert out[i] == s[i - 1] && out[j] == s[j - 1];
          }
        }
      }
    }
  }

  /** Sorts `s` by `key`: the result is sorted and a permutation of `s`. */
  function SortBy<T>(s: seq<T>, key: T -> SortKey): (r: seq<T>)
    ensures multiset(r) == multiset(s)
    ensures SortedBy(r, key)
  {
    if |s| == 0 then []
    else
      assert s == [s[0]] + s[1..];
      var rest := SortBy(s[1..], key);
      InsertSorted(s[0], rest, key);
      Insert(s[0], rest, key)
  }
}
