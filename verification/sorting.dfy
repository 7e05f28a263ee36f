/** The comparator the admin tables pass to `Array.prototype.sort`:
    `a < b ? (asc ? -1 : 1) : a > b ? (asc ? 1 : -1) : 0` on a sort key, where
    strings compare by code unit and an undefined key compares false both ways.
    `Array.prototype.sort` is stable; it is modelled by insertion sort. */
module Sorting {
  import opened Wrappers

  /** JavaScript `a < b` on two strings: lexicographic by character, a proper
      prefix before the longer string. */
  predicate LexLess(a: string, b: string)
    decreases |a|
  {
    |b| > 0 && (|a| == 0 || a[0] < b[0] || (a[0] == b[0] && LexLess(a[1..], b[1..])))
  }

  lemma {:induction false} LexLessIrreflexive(a: string)
    ensures !LexLess(a, a)
    decreases |a|
  {
    if |a| > 0 {
      LexLessIrreflexive(a[1..]);
    }
  }

  lemma {:induction false} LexLessTransitive(a: string, b: string, c: string)
    requires LexLess(a, b) && LexLess(b, c)
    ensures LexLess(a, c)
    decreases |a|
  {
    if |a| > 0 && a[0] == b[0] && b[0] == c[0] {
      LexLessTransitive(a[1..], b[1..], c[1..]);
    }
  }

  /** Two different strings are ordered one way or the other. */
  lemma {:induction false} LexLessTotal(a: string, b: string)
    requires a != b
    ensures LexLess(a, b) || LexLess(b, a)
    decreases |a|
  {
    if |a| > 0 && |b| > 0 && a[0] == b[0] {
      assert a == [a[0]] + a[1..] && b == [b[0]] + b[1..];
      LexLessTotal(a[1..], b[1..]);
    }
  }

  lemma LexLessAsymmetric(a: string, b: string)
    requires LexLess(a, b)
    ensures !LexLess(b, a)
  {
    if LexLess(b, a) {
      LexLessTransitive(a, b, a);
      LexLessIrreflexive(a);
    }
  }

  /** The comparator's result for two sort keys. */
  function Compare(ka: Option<string>, kb: Option<string>, ascending: bool): (r: int)
    ensures r in {-1, 0, 1}
    ensures ka.None? || kb.None? ==> r == 0
    ensures ka.Some? && kb.Some? ==>
              (r < 0 <==> (if ascending then LexLess(ka.value, kb.value) else LexLess(kb.value, ka.value)))
  {
    if ka.Some? && kb.Some? && LexLess(ka.value, kb.value) then
      LexLessAsymmetric(ka.value, kb.value);
      if ascending then -1 else 1
    else if ka.Some? && kb.Some? && LexLess(kb.value, ka.value) then
      if ascending then 1 else -1
    else 0
  }

  /** Ordered by the comparator: no pair of elements is out of order. */
  predicate Sorted<T>(s: seq<T>, key: T -> Option<string>, ascending: bool) {
    forall i, j :: 0 <= i < j < |s| ==> Compare(key(s[i]), key(s[j]), ascending) <= 0
  }

  predicate AllKeyed<T>(s: seq<T>, key: T -> Option<string>) {
    forall i :: 0 <= i < |s| ==> key(s[i]).Some?
  }

  /** On defined keys the comparator is a total preorder. */
  lemma CompareTotal(ka: string, kb: string, ascending: bool)
    ensures Compare(Some(ka), Some(kb), ascending) > 0 <==> Compare(Some(kb), Some(ka), ascending) < 0
    ensures Compare(Some(ka), Some(kb), ascending) >= 0 ==> Compare(Some(kb), Some(ka), ascending) <= 0
  {
    if ka != kb {
      LexLessTotal(ka, kb);
    }
    if LexLess(ka, kb) {
      LexLessAsymmetric(ka, kb);
    }
    if LexLess(kb, ka) {
      LexLessAsymmetric(kb, ka);
    }
  }

  lemma CompareTransitive(ka: string, kb: string, kc: string, ascending: bool)
    requires Compare(Some(ka), Some(kb), ascending) <= 0 && Compare(Some(kb), Some(kc), ascending) <= 0
    ensures Compare(Some(ka), Some(kc), ascending) <= 0
  {
    CompareTotal(ka, kb, ascending);
    CompareTotal(kb, kc, ascending);
    CompareTotal(ka, kc, ascending);
    if Compare(Some(ka), Some(kc), ascending) > 0 {
      // kc strictly before ka; with ka <= kb and kb <= kc this is a cycle
      if ascending {
        assert LexLess(kc, ka);
        if kb == ka {
        } else if kb == kc {
        } else {
          LexLessTotal(ka, kb);
          LexLessTotal(kb, kc);
          if LexLess(kb, kc) {
            LexLessTransitive(kb, kc, ka);
          } else {
            LexLessTransitive(kc, kb, ka);
          }
        }
      } else {
        assert LexLess(ka, kc);
        if kb == ka {
        } else if kb == kc {
        } else {
          LexLessTotal(ka, kb);
          LexLessTotal(kb, kc);
          if LexLess(kc, kb) {
            LexLessTransitive(ka, kc, kb);
          } else {
            LexLessTransitive(ka, kb, kc);
          }
        }
      }
    }
  }

  /** Inserts `x` after every element that does not compare after it. */
  function Insert<T(==)>(x: T, s: seq<T>, key: T -> Option<string>, ascending: bool): (r: seq<T>)
    ensures multiset(r) == multiset(s) + multiset{x}
    ensures |r| == |s| + 1
  {
    if s == [] then [x]
    else if Compare(key(x), key(s[0]), ascending) < 0 then [x] + s
    else
      assert s == [s[0]] + s[1..];
      [s[0]] + Insert(x, s[1..], key, ascending)
  }

  /** Putting an element that compares before-or-equal to every element in
      front of a sorted sequence keeps it sorted. */
  lemma SortedCons<T>(x: T, t: seq<T>, key: T -> Option<string>, ascending: bool)
    requires Sorted(t, key, ascending)
    requires forall j :: 0 <= j < |t| ==> Compare(key(x), key(t[j]), ascending) <= 0
    ensures Sorted([x] + t, key, ascending)
  {
    var r := [x] + t;
    forall i, j | 0 <= i < j < |r|
      ensures Compare(key(r[i]), key(r[j]), ascending) <= 0
    {
      if i == 0 {
        assert r[j] == t[j - 1];
      } else {
        assert r[i] == t[i - 1] && r[j] == t[j - 1];
      }
    }
  }

  lemma {:induction false} InsertSorted<T>(x: T, s: seq<T>, key: T -> Option<string>, ascending: bool)
    requires Sorted(s, key, ascending) && AllKeyed(s, key) && key(x).Some?
    ensures Sorted(Insert(x, s, key, ascending), key, ascending)
  {
    if s == [] {
    } else if Compare(key(x), key(s[0]), ascending) < 0 {
      forall j | 0 <= j < |s|
        ensures Compare(key(x), key(s[j]), ascending) <= 0
      {
        if j > 0 {
          CompareTransitive(key(x).value, key(s[0]).value, key(s[j]).value, ascending);
        }
      }
      SortedCons(x, s, key, ascending);
    } else {
      var tail := s[1..];
      var t := Insert(x, tail, key, ascending);
      assert Sorted(tail, key, ascending) && AllKeyed(tail, key);
      InsertSorted(x, tail, key, ascending);
      CompareTotal(key(x).value, key(s[0]).value, ascending);
      forall j | 0 <= j < |t|
        ensures Compare(key(s[0]), key(t[j]), ascending) <= 0
      {
        assert t[j] in multiset(t);
        if t[j] != x {
          assert t[j] in multiset(tail);
          var k :| 0 <= k < |tail| && tail[k] == t[j];
          assert s[k + 1] == t[j];
        }
      }
      SortedCons(s[0], t, key, ascending);
    }
  }

  /** `[...s].sort(comparator)`: stable insertion of each element in turn. */
  function SortBy<T(==)>(s: seq<T>, key: T -> Option<string>, ascending: bool): (r: seq<T>)
    ensures multiset(r) == multiset(s)
    ensures |r| == |s|
  {
    if s == [] then []
    else
      assert s == s[..|s| - 1] + [s[|s| - 1]];
      Insert(s[|s| - 1], SortBy(s[..|s| - 1], key, ascending), key, ascending)
  }

  /** When every element has a defined key, the result is a permutation of the
      input ordered by the comparator. */
  lemma {:induction false} SortBySorted<T>(s: seq<T>, key: T -> Option<string>, ascending: bool)
    requires AllKeyed(s, key)
    ensures Sorted(SortBy(s, key, ascending), key, ascending)
    ensures multiset(SortBy(s, key, ascending)) == multiset(s)
  {
    if s != [] {
      var init := s[..|s| - 1];
      assert AllKeyed(init, key);
      SortBySorted(init, key, ascending);
      var t := SortBy(init, key, ascending);
      forall i | 0 <= i < |t| ensures key(t[i]).Some? {
        assert t[i] in multiset(init);
      }
      InsertSorted(s[|s| - 1], t, key, ascending);
    }
  }
}
