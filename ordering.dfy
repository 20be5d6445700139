/**
 * Name ordering used when collector lists are sorted for display.
 * Locale collation (`localeCompare`) and Unicode case mapping are replaced by
 * code-point lexicographic order and ASCII lower-casing.
 */
module Ordering {
  import opened Common

  /** `a` sorts no later than `b`: code-point lexicographic order. */
  predicate LexLe(a: string, b: string)
  {
    |a| == 0 || (|b| > 0 && (a[0] < b[0] || (a[0] == b[0] && LexLe(a[1..], b[1..]))))
  }

  lemma {:induction false} LexLeTotal(a: string, b: string)
    ensures LexLe(a, b) || LexLe(b, a)
  {
    if |a| > 0 && |b| > 0 && a[0] == b[0] {
      LexLeTotal(a[1..], b[1..]);
    }
  }

  lemma {:induction false} LexLeTrans(a: string, b: string, c: string)
    requires LexLe(a, b) && LexLe(b, c)
    ensures LexLe(a, c)
  {
    if |a| > 0 && a[0] == b[0] && b[0] == c[0] {
      LexLeTrans(a[1..], b[1..], c[1..]);
    }
  }

  function ToLowerChar(c: char): char
  {
    if 'A' <= c <= 'Z' then (c as int + 32) as char else c
  }

  /** ASCII lower-casing (`toLowerCase` restricted to ASCII letters). */
  function ToLower(s: string): (r: string)
    ensures |r| == |s|
    ensures forall i :: 0 <= i < |s| ==> r[i] == ToLowerChar(s[i])
    ensures forall i :: 0 <= i < |r| ==> !('A' <= r[i] <= 'Z')
  {
    seq(|s|, i requires 0 <= i < |s| => ToLowerChar(s[i]))
  }

  /** Every pair of positions is in order of `key`. */
  ghost predicate SortedBy<T>(s: seq<T>, key: T -> string)
  {
    forall i, j :: 0 <= i < j < |s| ==> LexLe(key(s[i]), key(s[j]))
  }

  /** Inserts `x` before the first element it sorts no later than. */
  function Insert<T(==)>(x: T, s: seq<T>, key: T -> string): (r: seq<T>)
    ensures multiset(r) == multiset(s) + multiset{x}
    ensures forall i :: 0 <= i < |r| ==> r[i] == x || r[i] in s
  {
    if |s| == 0 then [x]
    else if LexLe(key(x), key(s[0])) then [x] + s
    else assert s == [s[0]] + s[1..]; [s[0]] + Insert(x, s[1..], key)
  }

  /** Insertion sort by `key`: the result is a permutation of `s`. */
  function SortBy<T(==)>(s: seq<T>, key: T -> string): (r: seq<T>)
    ensures multiset(r) == multiset(s)
    ensures |r| == |s|
  {
    if |s| == 0 then []
    else assert s == [s[0]] + s[1..]; Insert(s[0], SortBy(s[1..], key), key)
  }

  lemma {:induction false} InsertSorted<T>(x: T, s: seq<T>, key: T -> string)
    requires SortedBy(s, key)
    ensures SortedBy(Insert(x, s, key), key)
  {
    if |s| > 0 {
      if LexLe(key(x), key(s[0])) {
        var r := [x] + s;
        forall i, j | 0 <= i < j < |r| ensures LexLe(key(r[i]), key(r[j])) {
          if i == 0 && j > 1 {
            LexLeTrans(key(x), key(s[0]), key(s[j - 1]));
          }
        }
      } else {
        LexLeTotal(key(x), key(s[0]));
        InsertSorted(x, s[1..], key);
        var t := Insert(x, s[1..], key);
        var r := [s[0]] + t;
        forall i, j | 0 <= i < j < |r| ensures LexLe(key(r[i]), key(r[j])) {
          if i == 0 {
            assert r[j] == t[j - 1];
            if t[j - 1] != x {
              var k :| 0 <= k < |s[1..]| && s[1..][k] == t[j - 1];
              assert s[k + 1] == t[j - 1];
            }
          }
        }
      }
    }
  }

  /** Insertion sort orders its result by `key`. */
  lemma {:induction false} SortBySorted<T>(s: seq<T>, key: T -> string)
    ensures SortedBy(SortBy(s, key), key)
  {
    if |s| > 0 {
      SortBySorted(s[1..], key);
      InsertSorted(s[0], SortBy(s[1..], key), key);
    }
  }

  lemma {:induction false} InsertCount<T>(x: T, s: seq<T>, key: T -> string, p: T -> bool)
    ensures CountWhere(Insert(x, s, key), p) == (if p(x) then 1 else 0) + CountWhere(s, p)
  {
    if |s| > 0 && !LexLe(key(x), key(s[0])) {
      InsertCount(x, s[1..], key, p);
      assert ([s[0]] + Insert(x, s[1..], key))[1..] == Insert(x, s[1..], key);
    } else if |s| > 0 {
      assert ([x] + s)[1..] == s;
    }
  }

  /** Sorting does not change how many elements satisfy any predicate. */
  lemma {:induction false} SortByCount<T>(s: seq<T>, key: T -> string, p: T -> bool)
    ensures CountWhere(SortBy(s, key), p) == CountWhere(s, p)
  {
    if |s| > 0 {
      SortByCount(s[1..], key, p);
      InsertCount(s[0], SortBy(s[1..], key), key, p);
    }
  }
}
