/** Sequence operations with the semantics of `Array.prototype.filter`,
    `Array.prototype.some` and the stable `Array.prototype.sort` of ECMA-262. */
module Seqs {

  /** `s.filter(p)`. */
  function Filter<T>(s: seq<T>, p: T -> bool): (r: seq<T>)
    ensures |r| <= |s|
    ensures forall i :: 0 <= i < |s| && p(s[i]) ==> s[i] in r
    ensures multiset(r) <= multiset(s)
    ensures forall i :: 0 <= i < |r| ==> p(r[i])
    decreases |s|
  {
    if |s| == 0 then []
    else
      assert s == [s[0]] + s[1..];
      if p(s[0]) then [s[0]] + Filter(s[1..], p) else Filter(s[1..], p)
  }

  /** `a` is `b` with some elements removed and the rest kept in order. */
  ghost predicate IsSubsequence<T>(a: seq<T>, b: seq<T>)
    decreases |b|
  {
    if |a| == 0 then true
    else if |b| == 0 then false
    else (a[0] == b[0] && IsSubsequence(a[1..], b[1..])) || IsSubsequence(a, b[1..])
  }

  lemma {:induction false} FilterIsSubsequence<T>(s: seq<T>, p: T -> bool)
    ensures IsSubsequence(Filter(s, p), s)
    decreases |s|
  {
    if |s| > 0 {
      FilterIsSubsequence(s[1..], p);
      var r := Filter(s, p);
      if p(s[0]) {
        assert r[0] == s[0] && r[1..] == Filter(s[1..], p);
      }
    }
  }

  /** A filter whose predicate keeps every element returns its input. */
  lemma {:induction false} FilterAll<T>(s: seq<T>, p: T -> bool)
    requires forall i :: 0 <= i < |s| ==> p(s[i])
    ensures Filter(s, p) == s
    decreases |s|
  {
    if |s| > 0 {
      FilterAll(s[1..], p);
    }
  }

  function Both<T>(p: T -> bool, q: T -> bool): T -> bool {
    x => p(x) && q(x)
  }

  /** Filtering twice is filtering once by the conjunction. */
  lemma {:induction false} FilterFilter<T>(s: seq<T>, p: T -> bool, q: T -> bool)
    ensures Filter(Filter(s, p), q) == Filter(s, Both(p, q))
    decreases |s|
  {
    if |s| > 0 {
      FilterFilter(s[1..], p, q);
      if p(s[0]) {
        assert Filter(s, p) == [s[0]] + Filter(s[1..], p);
        assert Filter(s, p)[1..] == Filter(s[1..], p);
      }
    }
  }

  /** `s.some(p)`, by a left-to-right scan. */
  function Any<T>(s: seq<T>, p: T -> bool): bool
    decreases |s|
  {
    |s| > 0 && (p(s[0]) || Any(s[1..], p))
  }

  lemma {:induction false} AnyMeansExists<T>(s: seq<T>, p: T -> bool)
    ensures Any(s, p) <==> exists i :: 0 <= i < |s| && p(s[i])
    decreases |s|
  {
    if |s| > 0 {
      AnyMeansExists(s[1..], p);
      if exists i :: 0 <= i < |s| && p(s[i]) {
        var i :| 0 <= i < |s| && p(s[i]);
        if i > 0 {
          assert s[1..][i - 1] == s[i];
        }
      }
      if Any(s[1..], p) {
        var i :| 0 <= i < |s| - 1 && p(s[1..][i]);
        assert s[i + 1] == s[1..][i];
      }
    }
  }

  /** A property of every element carries over to any rearrangement. */
  lemma PermutationKeeps<T>(a: seq<T>, b: seq<T>, p: T -> bool)
    requires multiset(a) == multiset(b)
    requires forall i :: 0 <= i < |b| ==> p(b[i])
    ensures forall i :: 0 <= i < |a| ==> p(a[i])
  {
    forall i | 0 <= i < |a|
      ensures p(a[i])
    {
      assert a[i] in multiset(b);
      var j :| 0 <= j < |b| && b[j] == a[i];
    }
  }

  /** A filter stage that runs only when `active`. */
  function When<T>(active: bool, p: T -> bool): T -> bool {
    if active then p else _ => true
  }

  lemma StageAsFilter<T>(s: seq<T>, active: bool, p: T -> bool)
    ensures (if active then Filter(s, p) else s) == Filter(s, When(active, p))
  {
    if !active {
      FilterAll(s, When(active, p));
    }
  }

  /** Non-decreasing in `key`. */
  ghost predicate SortedBy<T>(s: seq<T>, key: T -> int) {
    forall i, j :: 0 <= i < j < |s| ==> key(s[i]) <= key(s[j])
  }

  /** Insert `x` before the first element whose key is not smaller than its own. */
  function Insert<T>(x: T, s: seq<T>, key: T -> int): (r: seq<T>)
    ensures multiset(r) == multiset(s) + multiset{x}
    ensures |r| == |s| + 1
    ensures key(r[0]) == key(x) || (|s| > 0 && key(r[0]) == key(s[0]))
    decreases |s|
  {
    if |s| == 0 || key(x) <= key(s[0]) then [x] + s
    else
      assert s == [s[0]] + s[1..];
      [s[0]] + Insert(x, s[1..], key)
  }

  lemma {:induction false} InsertSorted<T>(x: T, s: seq<T>, key: T -> int)
    requires SortedBy(s, key)
    ensures SortedBy(Insert(x, s, key), key)
    decreases |s|
  {
    if |s| > 0 && key(x) > key(s[0]) {
      var rest := Insert(x, s[1..], key);
      InsertSorted(x, s[1..], key);
      var r := [s[0]] + rest;
      assert forall j :: 0 <= j < |rest| ==> key(s[0]) <= key(rest[j]) by {
        forall j | 0 <= j < |rest|
          ensures key(s[0]) <= key(rest[j])
        {
          assert multiset(rest) == multiset(s[1..]) + multiset{x};
          assert rest[j] in multiset(rest);
          if rest[j] != x {
            assert rest[j] in multiset(s[1..]);
            var k :| 0 <= k < |s[1..]| && s[1..][k] == rest[j];
            assert s[k + 1] == rest[j];
          }
        }
      }
      assert Insert(x, s, key) == r;
    } else if |s| > 0 {
      assert Insert(x, s, key) == [x] + s;
    }
  }

  /** A stable sort ascending by `key` (insertion sort). */
  function SortBy<T>(s: seq<T>, key: T -> int): (r: seq<T>)
    ensures multiset(r) == multiset(s)
    ensures |r| == |s|
    ensures SortedBy(r, key)
    decreases |s|
  {
    if |s| == 0 then []
    else
      assert s == [s[0]] + s[1..];
      InsertSorted(s[0], SortBy(s[1..], key), key);
      Insert(s[0], SortBy(s[1..], key), key)
  }

  function HasKey<T>(key: T -> int, c: int): T -> bool {
    y => key(y) == c
  }

  lemma {:induction false} InsertStable<T>(x: T, s: seq<T>, key: T -> int, c: int)
    ensures Filter(Insert(x, s, key), HasKey(key, c))
         == (if key(x) == c then [x] else []) + Filter(s, HasKey(key, c))
    decreases |s|
  {
    var p := HasKey(key, c);
    if |s| == 0 || key(x) <= key(s[0]) {
      var r := [x] + s;
      assert r[0] == x && r[1..] == s;
      assert Insert(x, s, key) == r;
    } else {
      var rest := Insert(x, s[1..], key);
      InsertStable(x, s[1..], key, c);
      var r := [s[0]] + rest;
      assert r[0] == s[0] && r[1..] == rest;
      assert Insert(x, s, key) == r;
      assert !p(s[0]) || key(x) != c;
      if key(x) == c {
        assert !p(s[0]);
        assert Filter(r, p) == Filter(rest, p);
        assert Filter(s, p) == Filter(s[1..], p);
      } else {
        assert Filter(rest, p) == Filter(s[1..], p);
      }
    }
  }

  /** Stability: the elements sharing any one key keep their input order. */
  lemma {:induction false} SortStable<T>(s: seq<T>, key: T -> int, c: int)
    ensures Filter(SortBy(s, key), HasKey(key, c)) == Filter(s, HasKey(key, c))
    decreases |s|
  {
    if |s| > 0 {
      SortStable(s[1..], key, c);
      InsertStable(s[0], SortBy(s[1..], key), key, c);
    }
  }

  /** `[...s].reverse()`. */
  function Reverse<T>(s: seq<T>): (r: seq<T>)
    ensures |r| == |s|
    ensures forall i :: 0 <= i < |s| ==> r[i] == s[|s| - 1 - i]
    decreases |s|
  {
    if |s| == 0 then [] else Reverse(s[1..]) + [s[0]]
  }

  lemma {:induction false} ReverseMultiset<T>(s: seq<T>)
    ensures multiset(Reverse(s)) == multiset(s)
    decreases |s|
  {
    if |s| > 0 {
      ReverseMultiset(s[1..]);
      assert s == [s[0]] + s[1..];
    }
  }

  lemma ReverseReverse<T>(s: seq<T>)
    ensures Reverse(Reverse(s)) == s
  {
  }

  /** Two sorted rearrangements of the same elements are equal when no two
      different elements share a key. */
  lemma {:induction false} SortedUnique<T>(a: seq<T>, b: seq<T>, key: T -> int)
    requires SortedBy(a, key) && SortedBy(b, key)
    requires multiset(a) == multiset(b)
    requires forall i, j :: 0 <= i < |a| && 0 <= j < |a| && key(a[i]) == key(a[j]) ==> a[i] == a[j]
    ensures a == b
    decreases |a|
  {
    if |a| == 0 {
      assert |b| == |multiset(b)| == 0;
    } else {
      SameHead(a, b, key);
      DropHead(a, b);
      SortedUnique(a[1..], b[1..], key);
    }
  }

  lemma SameHead<T>(a: seq<T>, b: seq<T>, key: T -> int)
    requires |a| > 0
    requires SortedBy(a, key) && SortedBy(b, key)
    requires multiset(a) == multiset(b)
    requires forall i, j :: 0 <= i < |a| && 0 <= j < |a| && key(a[i]) == key(a[j]) ==> a[i] == a[j]
    ensures |b| == |a| && a[0] == b[0]
  {
    assert |b| == |multiset(b)| == |a|;
    assert b[0] in multiset(a);
    var j :| 0 <= j < |a| && a[j] == b[0];
    assert a[0] in multiset(b);
    var k :| 0 <= k < |b| && b[k] == a[0];
    assert key(a[0]) <= key(a[j]) && key(b[0]) <= key(b[k]);
  }

  lemma DropHead<T>(a: seq<T>, b: seq<T>)
    requires |a| > 0 && |b| > 0 && a[0] == b[0]
    requires multiset(a) == multiset(b)
    ensures multiset(a[1..]) == multiset(b[1..])
  {
    assert a == [a[0]] + a[1..] && b == [b[0]] + b[1..];
    assert multiset(a[1..]) == multiset(a) - multiset{a[0]};
    assert multiset(b[1..]) == multiset(b) - multiset{b[0]};
  }
}
