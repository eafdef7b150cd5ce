/**
 * The pieces of Python's string and list library that the poster renderer
 * relies on: `str.split` with a one-character separator (and the `[0]` and
 * `[-1]` pieces it is indexed with), code-point ordering of strings, and the
 * stable `sorted(..., key=...)`.
 */
module PyStrings {
  /** `sep.join(parts)`: the inverse of `split`. */
  function Join(parts: seq<string>, sep: char): string
    requires |parts| >= 1
    decreases |parts|
  {
    if |parts| == 1 then parts[0] else parts[0] + [sep] + Join(parts[1..], sep)
  }

  /**
   * `s.split(sep)` for a one-character separator: the maximal separator-free
   * pieces between separators, always at least one (`"".split(".") == [""]`).
   */
  function Split(s: string, sep: char): (r: seq<string>)
    ensures |r| >= 1
    ensures forall i :: 0 <= i < |r| ==> sep !in r[i]
    decreases |s|
  {
    if |s| == 0 then [""]
    else
      var rest := Split(s[1..], sep);
      if s[0] == sep then [""] + rest
      else [[s[0]] + rest[0]] + rest[1..]
  }

  function Last<T>(s: seq<T>): T
    requires |s| > 0
  {
    s[|s| - 1]
  }

  /** Joining the pieces gives back the string. */
  lemma {:induction false} SplitJoin(s: string, sep: char)
    ensures Join(Split(s, sep), sep) == s
    decreases |s|
  {
    if |s| > 0 {
      var rest := Split(s[1..], sep);
      SplitJoin(s[1..], sep);
      if s[0] == sep {
        assert ([""] + rest)[1..] == rest;
      } else {
        var ps := [[s[0]] + rest[0]] + rest[1..];
        if |rest| > 1 {
          assert ps[1..] == rest[1..];
        }
        assert Join(ps, sep) == [s[0]] + Join(rest, sep);
        assert s == [s[0]] + s[1..];
      }
    }
  }

  /** A string without the separator is a single piece. */
  lemma {:induction false} SplitWhole(s: string, sep: char)
    requires sep !in s
    ensures Split(s, sep) == [s]
    decreases |s|
  {
    if |s| > 0 {
      SplitWhole(s[1..], sep);
      assert s == [s[0]] + s[1..];
    }
  }

  /** Splitting at a separator concatenates the pieces of both sides. */
  lemma {:induction false} SplitAppend(a: string, b: string, sep: char)
    ensures Split(a + [sep] + b, sep) == Split(a, sep) + Split(b, sep)
    decreases |a|
  {
    var s := a + [sep] + b;
    if |a| == 0 {
      assert s[1..] == b;
    } else {
      assert s[1..] == a[1..] + [sep] + b;
      SplitAppend(a[1..], b, sep);
    }
  }

  /** Splitting the join of separator-free pieces gives back the pieces. */
  lemma {:induction false} JoinSplit(parts: seq<string>, sep: char)
    requires |parts| >= 1
    requires forall i :: 0 <= i < |parts| ==> sep !in parts[i]
    ensures Split(Join(parts, sep), sep) == parts
    decreases |parts|
  {
    SplitWhole(parts[0], sep);
    if |parts| > 1 {
      JoinSplit(parts[1..], sep);
      SplitAppend(parts[0], Join(parts[1..], sep), sep);
      assert parts == [parts[0]] + parts[1..];
    }
  }

  lemma {:induction false} JoinSnoc(parts: seq<string>, sep: char)
    requires |parts| >= 2
    ensures Join(parts, sep) == Join(parts[..|parts| - 1], sep) + [sep] + Last(parts)
    decreases |parts|
  {
    if |parts| > 2 {
      JoinSnoc(parts[1..], sep);
      assert parts[1..][..|parts| - 2] == parts[..|parts| - 1][1..];
    }
  }

  /** `s.split(sep)[-1]`: the text after the last separator, or all of `s`. */
  function AfterLast(s: string, sep: char): string {
    Last(Split(s, sep))
  }

  /** `s.split(sep)[0]`: the text before the first separator, or all of `s`. */
  function BeforeFirst(s: string, sep: char): string {
    Split(s, sep)[0]
  }

  /** The text after a separator that is followed by no other is the last piece. */
  lemma AfterLastIs(p: string, t: string, sep: char)
    requires sep !in t
    ensures AfterLast(p + [sep] + t, sep) == t
  {
    SplitAppend(p, t, sep);
    SplitWhole(t, sep);
  }

  /** The text before a separator that is preceded by no other is the first piece. */
  lemma BeforeFirstIs(p: string, t: string, sep: char)
    requires sep !in p
    ensures BeforeFirst(p + [sep] + t, sep) == p
  {
    SplitAppend(p, t, sep);
    SplitWhole(p, sep);
  }

  /**
   * The last piece is a separator-free suffix, and either it is the whole
   * string or a separator comes right before it.
   */
  lemma AfterLastShape(s: string, sep: char)
    ensures sep !in AfterLast(s, sep)
    ensures |AfterLast(s, sep)| <= |s| && s[|s| - |AfterLast(s, sep)|..] == AfterLast(s, sep)
    ensures AfterLast(s, sep) == s || s[|s| - |AfterLast(s, sep)| - 1] == sep
  {
    var ps := Split(s, sep);
    SplitJoin(s, sep);
    if |ps| >= 2 {
      JoinSnoc(ps, sep);
    }
  }

  /** Strict code-point (lexicographic) order, as Python compares `str`. */
  predicate LexLess(a: string, b: string)
    decreases |a|
  {
    if |b| == 0 then false
    else if |a| == 0 then true
    else if a[0] != b[0] then a[0] < b[0]
    else LexLess(a[1..], b[1..])
  }

  lemma {:induction false} LexIrreflexive(a: string)
    ensures !LexLess(a, a)
    decreases |a|
  {
    if |a| > 0 {
      LexIrreflexive(a[1..]);
    }
  }

  lemma {:induction false} LexTotal(a: string, b: string)
    ensures LexLess(a, b) || a == b || LexLess(b, a)
    decreases |a|
  {
    if |a| > 0 && |b| > 0 && a[0] == b[0] {
      LexTotal(a[1..], b[1..]);
      if a[1..] == b[1..] {
        assert a == [a[0]] + a[1..] && b == [b[0]] + b[1..];
      }
    }
  }

  lemma {:induction false} LexTransitive(a: string, b: string, c: string)
    requires LexLess(a, b) && LexLess(b, c)
    ensures LexLess(a, c)
    decreases |a|
  {
    if |a| > 0 && a[0] == b[0] && b[0] == c[0] {
      LexTransitive(a[1..], b[1..], c[1..]);
    }
  }

  /** "Not after" is transitive: the order `sorted` uses is a total preorder. */
  lemma NotLessTransitive(a: string, b: string, c: string)
    requires !LexLess(b, a) && !LexLess(c, b)
    ensures !LexLess(c, a)
  {
    LexTotal(a, b);
    if LexLess(c, a) && LexLess(a, b) {
      LexTransitive(c, a, b);
    }
  }

  /** Ordered by key: no element's key is below an earlier one's. */
  predicate SortedBy(s: seq<string>, key: string -> string) {
    forall i, j :: 0 <= i < j < |s| ==> !LexLess(key(s[j]), key(s[i]))
  }

  /** The elements whose key is `k`, in their order in `s`. */
  function WithKey(s: seq<string>, key: string -> string, k: string): seq<string> {
    if |s| == 0 then []
    else (if key(s[0]) == k then [s[0]] else []) + WithKey(s[1..], key, k)
  }

  /** Insert `x` before the first element whose key is not below its own. */
  function Insert(x: string, t: seq<string>, key: string -> string): (r: seq<string>)
    ensures multiset(r) == multiset(t) + multiset{x}
  {
    if |t| == 0 then [x]
    else if !LexLess(key(t[0]), key(x)) then [x] + t
    else
      assert t == [t[0]] + t[1..];
      [t[0]] + Insert(x, t[1..], key)
  }

  lemma {:induction false} InsertSorted(x: string, t: seq<string>, key: string -> string)
    requires SortedBy(t, key)
    ensures SortedBy(Insert(x, t, key), key)
  {
    if |t| > 0 {
      if !LexLess(key(t[0]), key(x)) {
        forall j | 0 <= j < |t|
          ensures !LexLess(key(t[j]), key(x))
        {
          if j > 0 {
            NotLessTransitive(key(x), key(t[0]), key(t[j]));
          }
        }
      } else {
        var rest := Insert(x, t[1..], key);
        InsertSorted(x, t[1..], key);
        LexTotal(key(t[0]), key(x));
        LexIrreflexive(key(x));
        forall j | 0 <= j < |rest|
          ensures !LexLess(key(rest[j]), key(t[0]))
        {
          assert rest[j] in multiset(rest);
          if rest[j] == x {
            if LexLess(key(x), key(t[0])) {
              LexTransitive(key(x), key(t[0]), key(x));
            }
          } else {
            assert rest[j] in multiset(t[1..]);
            var k :| 0 <= k < |t[1..]| && t[1..][k] == rest[j];
            assert t[k + 1] == rest[j];
          }
        }
      }
    }
  }

  /**
   * Inserting `x` leaves every other key's elements in place: only the
   * elements with `x`'s key gain `x`, at their front.
   */
  lemma {:induction false} InsertStable(x: string, t: seq<string>, key: string -> string, k: string)
    ensures WithKey(Insert(x, t, key), key, k) == (if key(x) == k then [x] else []) + WithKey(t, key, k)
  {
    if |t| > 0 && LexLess(key(t[0]), key(x)) {
      InsertStable(x, t[1..], key, k);
      InsertPastHead(x, t, key, k);
    } else if |t| > 0 {
      assert Insert(x, t, key) == [x] + t;
      WithKeyCons(x, t, key, k);
    }
  }

  /** The step of `InsertStable` when `x` goes past the head of `t`. */
  lemma InsertPastHead(x: string, t: seq<string>, key: string -> string, k: string)
    requires |t| > 0 && LexLess(key(t[0]), key(x))
    requires WithKey(Insert(x, t[1..], key), key, k) == (if key(x) == k then [x] else []) + WithKey(t[1..], key, k)
    ensures WithKey(Insert(x, t, key), key, k) == (if key(x) == k then [x] else []) + WithKey(t, key, k)
  {
    LexIrreflexive(key(x));
    ConsDifferentKey(t[0], x, Insert(x, t[1..], key), t[1..], key, k);
    assert [t[0]] + t[1..] == t;
  }

  /** An element whose key differs from `x`'s commutes with `x` in every key group. */
  lemma ConsDifferentKey(y: string, x: string, s: seq<string>, u: seq<string>, key: string -> string, k: string)
    requires key(y) != key(x)
    requires WithKey(s, key, k) == (if key(x) == k then [x] else []) + WithKey(u, key, k)
    ensures WithKey([y] + s, key, k) == (if key(x) == k then [x] else []) + WithKey([y] + u, key, k)
  {
    WithKeyCons(y, s, key, k);
    WithKeyCons(y, u, key, k);
  }

  lemma WithKeyCons(y: string, s: seq<string>, key: string -> string, k: string)
    ensures WithKey([y] + s, key, k) == (if key(y) == k then [y] else []) + WithKey(s, key, k)
  {
    assert ([y] + s)[1..] == s;
  }

  /** `sorted(s, key=key)`: a stable insertion sort. */
  function SortBy(s: seq<string>, key: string -> string): (r: seq<string>)
    ensures multiset(r) == multiset(s)
  {
    if |s| == 0 then []
    else
      assert s == [s[0]] + s[1..];
      Insert(s[0], SortBy(s[1..], key), key)
  }

  /** `sorted` orders by key. */
  lemma {:induction false} SortBySorted(s: seq<string>, key: string -> string)
    ensures SortedBy(SortBy(s, key), key)
  {
    if |s| > 0 {
      SortBySorted(s[1..], key);
      InsertSorted(s[0], SortBy(s[1..], key), key);
    }
  }

  /** `sorted` is stable: elements with equal keys keep their relative order. */
  lemma {:induction false} SortByStable(s: seq<string>, key: string -> string, k: string)
    ensures WithKey(SortBy(s, key), key, k) == WithKey(s, key, k)
  {
    if |s| > 0 {
      SortByStable(s[1..], key, k);
      InsertStable(s[0], SortBy(s[1..], key), key, k);
    }
  }
}
