/** Sequence utilities shared by the whole model: an Option type, the order-preserving
    `filter` of JavaScript arrays, the subsequence relation, and the stable sort that
    `Array.prototype.sort` performs with a numeric comparator `(a, b) => key(a) - key(b)`. */
module Common {

  datatype Option<+T> = None | Some(value: T)

  /** `s.filter(p)`: the elements satisfying `p`, in their original order. */
  function Filter<T>(s: seq<T>, p: T -> bool): (r: seq<T>)
    ensures |r| <= |s|
    ensures forall i :: 0 <= i < |r| ==> p(r[i])
  {
    if s == [] then []
    else if p(s[|s| - 1]) then Filter(s[..|s| - 1], p) + [s[|s| - 1]]
    else Filter(s[..|s| - 1], p)
  }

  /** The filter keeps elements of `s` only, and every element satisfying `p`. */
  lemma {:induction false} FilterMembers<T>(s: seq<T>, p: T -> bool)
    ensures forall i :: 0 <= i < |Filter(s, p)| ==> Filter(s, p)[i] in s
    ensures forall i :: 0 <= i < |s| && p(s[i]) ==> s[i] in Filter(s, p)
  {
    if s != [] {
      var q := s[..|s| - 1];
      FilterMembers(q, p);
      assert forall i :: 0 <= i < |q| ==> q[i] == s[i];
    }
  }

  /** The filter keeps every copy of an element satisfying `p`, and no copy of any
      other. */
  lemma {:induction false} FilterMultiset<T>(s: seq<T>, p: T -> bool)
    ensures forall x :: multiset(Filter(s, p))[x] == if p(x) then multiset(s)[x] else 0
  {
    if s != [] {
      var q, y := s[..|s| - 1], s[|s| - 1];
      FilterMultiset(q, p);
      assert s == q + [y];
    }
  }

  /** `a` is `b` with some elements removed and the rest kept in order. */
  predicate IsSubsequence<T(==)>(a: seq<T>, b: seq<T>)
  {
    if a == [] then true
    else if b == [] then false
    else if a[|a| - 1] == b[|b| - 1] then IsSubsequence(a[..|a| - 1], b[..|b| - 1])
    else IsSubsequence(a, b[..|b| - 1])
  }

  lemma {:induction false} FilterIsSubsequence<T>(s: seq<T>, p: T -> bool)
    ensures IsSubsequence(Filter(s, p), s)
  {
    if s != [] {
      FilterIsSubsequence(s[..|s| - 1], p);
      if !p(s[|s| - 1]) {
        SubsequenceOfPrefix(Filter(s[..|s| - 1], p), s);
      }
    }
  }

  /** Dropping the last element of the longer sequence keeps a subsequence a subsequence. */
  lemma {:induction false} SubsequenceOfPrefix<T>(a: seq<T>, b: seq<T>)
    requires b != [] && IsSubsequence(a, b[..|b| - 1])
    ensures IsSubsequence(a, b)
    decreases |b|, 0
  {
    if a != [] && a[|a| - 1] == b[|b| - 1] {
      SubsequenceDropLast(a, b[..|b| - 1]);
    }
  }

  /** Dropping the last element of a subsequence keeps it a subsequence. */
  lemma {:induction false} SubsequenceDropLast<T>(a: seq<T>, c: seq<T>)
    requires a != [] && IsSubsequence(a, c)
    ensures IsSubsequence(a[..|a| - 1], c)
    decreases |c|, 1
  {
    var c' := c[..|c| - 1];
    if a[|a| - 1] == c[|c| - 1] {
      SubsequenceOfPrefix(a[..|a| - 1], c);
    } else {
      SubsequenceDropLast(a, c');
      SubsequenceOfPrefix(a[..|a| - 1], c);
    }
  }

  lemma {:induction false} SubsequenceTransitive<T>(a: seq<T>, b: seq<T>, c: seq<T>)
    requires IsSubsequence(a, b) && IsSubsequence(b, c)
    ensures IsSubsequence(a, c)
    decreases |c|
  {
    if a != [] {
      assert b != [] && c != [];
      var c' := c[..|c| - 1];
      if b[|b| - 1] == c[|c| - 1] {
        assert IsSubsequence(b[..|b| - 1], c');
        if a[|a| - 1] == b[|b| - 1] {
          SubsequenceTransitive(a[..|a| - 1], b[..|b| - 1], c');
        } else {
          SubsequenceTransitive(a, b[..|b| - 1], c');
          SubsequenceOfPrefix(a, c);
        }
      } else {
        SubsequenceTransitive(a, b, c');
        SubsequenceOfPrefix(a, c);
      }
    }
  }

  /** Filtering twice is filtering once by the conjunction. */
  lemma {:induction false} FilterFilter<T>(s: seq<T>, p: T -> bool, q: T -> bool)
    ensures Filter(Filter(s, p), q) == Filter(s, x => p(x) && q(x))
  {
    if s != [] {
      FilterFilter(s[..|s| - 1], p, q);
    }
  }

  /** Filtering by a predicate that every element satisfies changes nothing. */
  lemma {:induction false} FilterAll<T>(s: seq<T>, p: T -> bool)
    requires forall i :: 0 <= i < |s| ==> p(s[i])
    ensures Filter(s, p) == s
  {
    if s != [] {
      FilterAll(s[..|s| - 1], p);
    }
  }

  /** Filtering by a predicate that no element satisfies yields nothing. */
  lemma {:induction false} FilterNone<T>(s: seq<T>, p: T -> bool)
    requires forall i :: 0 <= i < |s| ==> !p(s[i])
    ensures Filter(s, p) == []
  {
    if s != [] {
      FilterNone(s[..|s| - 1], p);
    }
  }

  lemma {:induction false} FilterAppend<T>(a: seq<T>, b: seq<T>, p: T -> bool)
    ensures Filter(a + b, p) == Filter(a, p) + Filter(b, p)
    decreases |b|
  {
    if b != [] {
      assert (a + b)[..|a + b| - 1] == a + b[..|b| - 1];
      FilterAppend(a, b[..|b| - 1], p);
    } else {
      assert a + b == a;
    }
  }

  /** Two predicates that agree on every element filter alike. */
  lemma {:induction false} FilterCongruent<T>(s: seq<T>, p: T -> bool, q: T -> bool)
    requires forall i :: 0 <= i < |s| ==> p(s[i]) == q(s[i])
    ensures Filter(s, p) == Filter(s, q)
  {
    if s != [] {
      FilterCongruent(s[..|s| - 1], p, q);
    }
  }

  /** Appending a non-empty sequence is appending all but its last element, then
      that element. */
  lemma AppendSplitLast<T>(t: seq<T>, q: seq<T>)
    requires q != []
    ensures t + q == (t + q[..|q| - 1]) + [q[|q| - 1]]
  {
    assert q == q[..|q| - 1] + [q[|q| - 1]];
  }

  lemma AppendAssoc<T>(a: seq<T>, b: seq<T>, c: seq<T>)
    ensures (a + b) + c == a + (b + c)
  {
  }

  /** JavaScript's `a % b` for a positive `b`: the remainder takes the sign of `a`. */
  function JsRem(a: int, b: int): (r: int)
    requires b > 0
    ensures a >= 0 ==> r == a % b
  {
    if a >= 0 then a % b else -((-a) % b)
  }

  /** `Math.max(0, a)`. */
  function Max0(a: int): (r: int)
    ensures r >= 0 && r >= a
  {
    if a > 0 then a else 0
  }

  /** Keys ascend along `s`. */
  predicate SortedBy<T>(s: seq<T>, key: T -> int)
  {
    forall i, j :: 0 <= i < j < |s| ==> key(s[i]) <= key(s[j])
  }

  /** Filtering keeps a sorted sequence sorted. */
  lemma {:induction false} FilterSorted<T>(s: seq<T>, p: T -> bool, key: T -> int)
    requires SortedBy(s, key)
    ensures SortedBy(Filter(s, p), key)
  {
    if s != [] {
      var q := s[..|s| - 1];
      assert SortedBy(q, key);
      FilterSorted(q, p, key);
      FilterMembers(q, p);
      assert forall i :: 0 <= i < |q| ==> key(q[i]) <= key(s[|s| - 1]);
    }
  }

  /** In a sorted sequence the first element kept by a filter has the smallest
      key among the elements satisfying the predicate, and the last the largest. */
  lemma FilterSortedEnds<T>(s: seq<T>, p: T -> bool, key: T -> int)
    requires SortedBy(s, key) && Filter(s, p) != []
    ensures forall i :: 0 <= i < |s| && p(s[i]) ==>
      key(Filter(s, p)[0]) <= key(s[i]) <= key(Filter(s, p)[|Filter(s, p)| - 1])
  {
    var f := Filter(s, p);
    FilterSorted(s, p, key);
    FilterMembers(s, p);
    forall i | 0 <= i < |s| && p(s[i])
      ensures key(f[0]) <= key(s[i]) <= key(f[|f| - 1])
    {
      var j :| 0 <= j < |f| && f[j] == s[i];
      assert key(f[0]) <= key(f[j]) <= key(f[|f| - 1]);
    }
  }

  /** The filter is empty exactly when no element satisfies the predicate. */
  lemma FilterEmpty<T>(s: seq<T>, p: T -> bool)
    ensures Filter(s, p) == [] <==> forall i :: 0 <= i < |s| ==> !p(s[i])
  {
    FilterMembers(s, p);
    if forall i :: 0 <= i < |s| ==> !p(s[i]) {
      FilterNone(s, p);
    }
  }

  /** Puts `x` after every element whose key is at most `key(x)`: the element that
      came later in the input stays behind its equals, as a stable sort keeps it. */
  function Insert<T>(x: T, s: seq<T>, key: T -> int): (r: seq<T>)
    ensures |r| == |s| + 1
  {
    if s == [] then [x]
    else if key(s[0]) <= key(x) then [s[0]] + Insert(x, s[1..], key)
    else [x] + s
  }

  /** Inserting adds `x` and keeps every element of `s`. */
  lemma {:induction false} InsertPermutes<T>(x: T, s: seq<T>, key: T -> int)
    ensures multiset(Insert(x, s, key)) == multiset(s) + multiset{x}
    ensures forall i :: 0 <= i < |s| + 1 ==> Insert(x, s, key)[i] == x || Insert(x, s, key)[i] in s
  {
    if s != [] {
      assert s == [s[0]] + s[1..];
      if key(s[0]) <= key(x) {
        InsertPermutes(x, s[1..], key);
      }
    }
  }

  lemma {:induction false} InsertSorted<T>(x: T, s: seq<T>, key: T -> int)
    requires SortedBy(s, key)
    ensures SortedBy(Insert(x, s, key), key)
  {
    if s != [] && key(s[0]) <= key(x) {
      var tail := s[1..];
      InsertSorted(x, tail, key);
      InsertPermutes(x, tail, key);
      var rest := Insert(x, tail, key);
      forall i | 0 <= i < |rest| ensures key(s[0]) <= key(rest[i]) {
        if rest[i] != x {
          var k :| 0 <= k < |tail| && tail[k] == rest[i];
          assert tail[k] == s[k + 1];
        }
      }
      assert Insert(x, s, key) == [s[0]] + rest;
    }
  }

  /** The stable sort of `s` by ascending `key`. */
  function SortBy<T>(s: seq<T>, key: T -> int): (r: seq<T>)
    ensures |r| == |s|
  {
    if s == [] then []
    else Insert(s[|s| - 1], SortBy(s[..|s| - 1], key), key)
  }

  /** Sorting permutes: every element keeps its number of occurrences. */
  lemma {:induction false} SortByPermutes<T>(s: seq<T>, key: T -> int)
    ensures multiset(SortBy(s, key)) == multiset(s)
  {
    if s != [] {
      SortByPermutes(s[..|s| - 1], key);
      InsertPermutes(s[|s| - 1], SortBy(s[..|s| - 1], key), key);
      assert s == s[..|s| - 1] + [s[|s| - 1]];
    }
  }

  /** Sorting neither adds nor loses elements. */
  lemma SortByMembers<T>(s: seq<T>, key: T -> int)
    ensures forall i :: 0 <= i < |s| ==> s[i] in SortBy(s, key)
    ensures forall i :: 0 <= i < |SortBy(s, key)| ==> SortBy(s, key)[i] in s
  {
    var r := SortBy(s, key);
    SortByPermutes(s, key);
    assert forall i :: 0 <= i < |s| ==> s[i] in multiset(s);
    assert forall i :: 0 <= i < |r| ==> r[i] in multiset(r);
  }

  lemma {:induction false} SortByIsSorted<T>(s: seq<T>, key: T -> int)
    ensures SortedBy(SortBy(s, key), key)
  {
    if s != [] {
      SortByIsSorted(s[..|s| - 1], key);
      InsertSorted(s[|s| - 1], SortBy(s[..|s| - 1], key), key);
    }
  }

  /** A sequence already in key order is left as it is. */
  lemma {:induction false} SortSorted<T>(s: seq<T>, key: T -> int)
    requires SortedBy(s, key)
    ensures SortBy(s, key) == s
  {
    if s != [] {
      var p, x := s[..|s| - 1], s[|s| - 1];
      assert SortedBy(p, key) by {
        forall i, j | 0 <= i < j < |p| ensures key(p[i]) <= key(p[j]) {
          assert p[i] == s[i] && p[j] == s[j];
        }
      }
      SortSorted(p, key);
      forall i | 0 <= i < |p| ensures key(p[i]) <= key(x) {
        assert p[i] == s[i];
      }
      InsertLast(x, p, key);
      assert p + [x] == s;
    }
  }

  lemma {:induction false} InsertLast<T>(x: T, s: seq<T>, key: T -> int)
    requires forall i :: 0 <= i < |s| ==> key(s[i]) <= key(x)
    ensures Insert(x, s, key) == s + [x]
  {
    if s != [] {
      InsertLast(x, s[1..], key);
      assert s == [s[0]] + s[1..];
    }
  }
}
