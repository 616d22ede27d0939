/**
  The order both import writers of the go/ rewrite hand to `sort.Slice`: one
  group of imports first, then ascending path, with Go's byte-wise string
  order. Only the result of the sort is modelled: an insertion sort stands
  for the library call and is proved to return a sorted permutation.
 */
module Sorting {

  /** Go's `<` on strings: byte-wise lexicographic order (a proper prefix comes first). */
  predicate LexLess(a: string, b: string)
    decreases |a|
  {
    |b| > 0 && (|a| == 0 || a[0] < b[0] || (a[0] == b[0] && LexLess(a[1..], b[1..])))
  }

  lemma {:induction false} LexLessIrreflexive(a: string)
    ensures !LexLess(a, a)
    decreases |a|
  {
    if |a| > 0 {
      LexLessIrreflexive(a[1..]);
    }
  }

  lemma {:induction false} LexLessAsymmetric(a: string, b: string)
    ensures !(LexLess(a, b) && LexLess(b, a))
    decreases |a|
  {
    if |a| > 0 && |b| > 0 && a[0] == b[0] {
      LexLessAsymmetric(a[1..], b[1..]);
    }
  }

  lemma {:induction false} LexLessTransitive(a: string, b: string, c: string)
    requires LexLess(a, b) && LexLess(b, c)
    ensures LexLess(a, c)
    decreases |a|
  {
    if |a| > 0 && a[0] == b[0] && b[0] == c[0] {
      LexLessTransitive(a[1..], b[1..], c[1..]);
    }
  }

  /** Two different strings are ordered one way or the other. */
  lemma {:induction false} LexLessTotal(a: string, b: string)
    ensures a == b || LexLess(a, b) || LexLess(b, a)
    decreases |a|
  {
    if |a| > 0 && |b| > 0 && a[0] == b[0] {
      LexLessTotal(a[1..], b[1..]);
      if a[1..] == b[1..] {
        assert a == [a[0]] + a[1..] && b == [b[0]] + b[1..];
      }
    }
  }

  /** What the comparison looks at: whether the import is in the leading group, and its path. */
  datatype SortKey = SortKey(first: bool, path: string)

  /** The `less` function of both sorts: the leading group first, then ascending path. */
  predicate KeyLess(a: SortKey, b: SortKey)
  {
    if a.first != b.first then a.first else LexLess(a.path, b.path)
  }

  /** `KeyLess` is a strict total order on keys. */
  lemma KeyLessOrder(a: SortKey, b: SortKey, c: SortKey)
    ensures !KeyLess(a, a)
    ensures !(KeyLess(a, b) && KeyLess(b, a))
    ensures a == b || KeyLess(a, b) || KeyLess(b, a)
    ensures KeyLess(a, b) && KeyLess(b, c) ==> KeyLess(a, c)
  {
    LexLessIrreflexive(a.path);
    LexLessAsymmetric(a.path, b.path);
    LexLessTotal(a.path, b.path);
    if KeyLess(a, b) && KeyLess(b, c) && a.first == b.first && b.first == c.first {
      LexLessTransitive(a.path, b.path, c.path);
    }
  }

  /** No element is less than one before it. */
  predicate Sorted<T>(s: seq<T>, key: T -> SortKey)
  {
    forall i, j :: 0 <= i < j < |s| ==> !KeyLess(key(s[j]), key(s[i]))
  }

  /** `x` placed before the first element that is not less than it. */
  function Insert<T>(x: T, s: seq<T>, key: T -> SortKey): (r: seq<T>)
    ensures multiset(r) == multiset(s) + multiset{x}
    ensures Sorted(s, key) ==> Sorted(r, key)
  {
    if |s| == 0 then [x]
    else if !KeyLess(key(s[0]), key(x)) then
      InsertFront(x, s, key);
      [x] + s
    else
      var rest := Insert(x, s[1..], key);
      assert s == [s[0]] + s[1..];
      InsertBehind(x, s, rest, key);
      [s[0]] + rest
  }

  lemma InsertFront<T>(x: T, s: seq<T>, key: T -> SortKey)
    requires |s| > 0 && !KeyLess(key(s[0]), key(x))
    ensures Sorted(s, key) ==> Sorted([x] + s, key)
  {
    if Sorted(s, key) {
      var r := [x] + s;
      forall i, j | 0 <= i < j < |r| ensures !KeyLess(key(r[j]), key(r[i])) {
        if i == 0 && j > 1 {
          KeyLessOrder(key(s[0]), key(s[j - 1]), key(x));
        }
      }
    }
  }

  lemma InsertBehind<T>(x: T, s: seq<T>, rest: seq<T>, key: T -> SortKey)
    requires |s| > 0 && KeyLess(key(s[0]), key(x))
    requires multiset(rest) == multiset(s[1..]) + multiset{x}
    requires Sorted(s[1..], key) ==> Sorted(rest, key)
    ensures Sorted(s, key) ==> Sorted([s[0]] + rest, key)
  {
    if Sorted(s, key) {
      assert Sorted(s[1..], key);
      var r := [s[0]] + rest;
      forall i, j | 0 <= i < j < |r| ensures !KeyLess(key(r[j]), key(r[i])) {
        if i == 0 {
          var y := rest[j - 1];
          assert y in multiset(rest);
          if y == x {
            KeyLessOrder(key(s[0]), key(x), key(x));
          } else {
            assert y in multiset(s[1..]);
            var k :| 0 <= k < |s[1..]| && s[1..][k] == y;
            assert s[k + 1] == y;
          }
        } else {
          assert r[i] == rest[i - 1] && r[j] == rest[j - 1];
        }
      }
    }
  }

  /** The sort `sort.Slice` performs, as a value: a sorted permutation of its input. */
  function SortByKey<T>(s: seq<T>, key: T -> SortKey): (r: seq<T>)
    ensures multiset(r) == multiset(s)
    ensures Sorted(r, key)
  {
    if |s| == 0 then []
    else
      assert s == [s[0]] + s[1..];
      Insert(s[0], SortByKey(s[1..], key), key)
  }
}
