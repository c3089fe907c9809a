/**
 * Orders and the list operations that Python's `sorted`, `set` and pandas'
 * `unique`/`drop_duplicates`/boolean indexing perform on the aggregated data.
 */
module Ordering {
  import opened Wrappers

  predicate NoDuplicates<T(==)>(s: seq<T>)
  {
    forall i, j :: 0 <= i < j < |s| ==> s[i] != s[j]
  }

  /** Python's `<` on `str`: lexicographic by code point, a proper prefix comes first. */
  predicate LexLess(a: string, b: string)
  {
    if a == [] then b != []
    else if b == [] then false
    else if a[0] != b[0] then a[0] < b[0]
    else LexLess(a[1..], b[1..])
  }

  lemma {:induction false} LexLessIrreflexive(a: string)
    ensures !LexLess(a, a)
  {
    if a != [] { LexLessIrreflexive(a[1..]); }
  }

  lemma {:induction false} LexLessTransitive(a: string, b: string, c: string)
    requires LexLess(a, b) && LexLess(b, c)
    ensures LexLess(a, c)
  {
    if a != [] && b != [] && c != [] && a[0] == b[0] && b[0] == c[0] {
      LexLessTransitive(a[1..], b[1..], c[1..]);
    }
  }

  lemma {:induction false} LexLessTotal(a: string, b: string)
    ensures a == b || LexLess(a, b) || LexLess(b, a)
  {
    if a != [] && b != [] && a[0] == b[0] {
      LexLessTotal(a[1..], b[1..]);
      if a[1..] == b[1..] {
        assert a == [a[0]] + a[1..] && b == [b[0]] + b[1..];
      }
    }
  }

  predicate SortedStrings(s: seq<string>)
  {
    forall i, j :: 0 <= i < j < |s| ==> LexLess(s[i], s[j])
  }

  /** Inserts `x` into a strictly ascending list, keeping it strictly ascending. */
  function InsertString(x: string, s: seq<string>): (r: seq<string>)
    requires SortedStrings(s)
    ensures SortedStrings(r)
    ensures forall y :: y in r <==> y == x || y in s
  {
    if s == [] then [x]
    else if x == s[0] then s
    else if LexLess(x, s[0]) then
      assert forall j :: 0 <= j < |s| ==> LexLess(x, s[j]) by {
        forall j | 0 <= j < |s| ensures LexLess(x, s[j]) {
          if j > 0 { LexLessTransitive(x, s[0], s[j]); }
        }
      }
      [x] + s
    else
      LexLessTotal(x, s[0]);
      var tail := InsertString(x, s[1..]);
      assert forall y :: y in tail ==> LexLess(s[0], y) by {
        forall y | y in tail ensures LexLess(s[0], y) {
          if y != x {
            var j :| 0 <= j < |s[1..]| && s[1..][j] == y;
            assert s[j + 1] == y;
          }
        }
      }
      assert s == [s[0]] + s[1..];
      [s[0]] + tail
  }

  /** `sorted(set(s))` for strings: the distinct elements of `s`, ascending. */
  function SortStrings(s: seq<string>): (r: seq<string>)
    ensures SortedStrings(r)
    ensures forall y :: y in r <==> y in s
  {
    if s == [] then []
    else
      var r := InsertString(s[|s| - 1], SortStrings(s[..|s| - 1]));
      assert s == s[..|s| - 1] + [s[|s| - 1]];
      r
  }

  lemma SortedStringsNoDuplicates(s: seq<string>)
    requires SortedStrings(s)
    ensures NoDuplicates(s)
  {
    forall i, j | 0 <= i < j < |s| ensures s[i] != s[j] {
      if s[i] == s[j] { LexLessIrreflexive(s[i]); }
    }
  }

  /** A strictly ascending list is determined by its elements. */
  lemma {:induction false} SortedStringsUnique(a: seq<string>, b: seq<string>)
    requires SortedStrings(a) && SortedStrings(b)
    requires forall y :: y in a <==> y in b
    ensures a == b
    decreases |a|
  {
    if a != [] { assert a[0] in a; }
    if b != [] { assert b[0] in b; }
    if a != [] && b != [] {
      var i :| 0 <= i < |b| && b[i] == a[0];
      var j :| 0 <= j < |a| && a[j] == b[0];
      if i > 0 && j > 0 {
        LexLessTransitive(b[0], a[0], b[0]);
        LexLessIrreflexive(b[0]);
      } else if i > 0 {
        LexLessIrreflexive(a[0]);
      } else if j > 0 {
        LexLessIrreflexive(b[0]);
      }
      assert a[0] == b[0];
      forall y ensures y in a[1..] <==> y in b[1..] {
        if y in a[1..] {
          var k :| 0 <= k < |a[1..]| && a[1..][k] == y;
          assert LexLess(a[0], a[k + 1]);
          if y == b[0] { LexLessIrreflexive(y); }
          assert y in b;
        }
        if y in b[1..] {
          var k :| 0 <= k < |b[1..]| && b[1..][k] == y;
          assert LexLess(b[0], b[k + 1]);
          if y == a[0] { LexLessIrreflexive(y); }
          assert y in a;
        }
      }
      SortedStringsUnique(a[1..], b[1..]);
      assert a == [a[0]] + a[1..] && b == [b[0]] + b[1..];
    }
  }

  predicate Increasing(s: seq<int>)
  {
    forall i, j :: 0 <= i < j < |s| ==> s[i] < s[j]
  }

  function InsertInt(x: int, s: seq<int>): (r: seq<int>)
    requires Increasing(s)
    ensures Increasing(r)
    ensures forall y :: y in r <==> y == x || y in s
  {
    if s == [] then [x]
    else if x == s[0] then s
    else if x < s[0] then [x] + s
    else
      var tail := InsertInt(x, s[1..]);
      IntInsertedAfterHead(x, s, tail);
      [s[0]] + tail
  }

  /** Putting the head back in front of `x` inserted into the rest keeps the order and the values. */
  lemma IntInsertedAfterHead(x: int, s: seq<int>, tail: seq<int>)
    requires |s| > 0 && Increasing(s) && s[0] < x && Increasing(tail)
    requires forall y :: y in tail <==> y == x || y in s[1..]
    ensures Increasing([s[0]] + tail)
    ensures forall y :: y in [s[0]] + tail <==> y == x || y in s
  {
    forall y | y in tail ensures s[0] < y {
      if y != x {
        var j :| 0 <= j < |s[1..]| && s[1..][j] == y;
        assert s[j + 1] == y;
      }
    }
    var r := [s[0]] + tail;
    forall i, j | 0 <= i < j < |r| ensures r[i] < r[j] {
      assert r[j] == tail[j - 1] && tail[j - 1] in tail;
      if i > 0 {
        assert r[i] == tail[i - 1];
      }
    }
    assert s == [s[0]] + s[1..];
  }

  /** `sorted(set(s), key=int)`: the distinct values of `s`, in ascending numeric order. */
  function SortInts(s: seq<int>): (r: seq<int>)
    ensures Increasing(r)
    ensures forall y :: y in r <==> y in s
  {
    if s == [] then []
    else
      var init, last := s[..|s| - 1], s[|s| - 1];
      var r := InsertInt(last, SortInts(init));
      assert s == init + [last];
      assert forall y :: y in s <==> y in init || y == last;
      r
  }

  /** pandas' `drop_duplicates`: the first occurrence of every element, in order. */
  function Dedup<T(==,!new)>(s: seq<T>): (r: seq<T>)
    ensures NoDuplicates(r)
    ensures forall x :: x in r <==> x in s
  {
    if s == [] then []
    else
      var prefix := Dedup(s[..|s| - 1]);
      assert s == s[..|s| - 1] + [s[|s| - 1]];
      if s[|s| - 1] in prefix then prefix else prefix + [s[|s| - 1]]
  }

  /** Boolean indexing `df[mask]`: the elements that satisfy `p`, in order. */
  function Filter<T(!new)>(s: seq<T>, p: T -> bool): (r: seq<T>)
    ensures |r| <= |s|
    ensures forall x :: x in r <==> x in s && p(x)
    ensures multiset(r) <= multiset(s)
  {
    if s == [] then []
    else
      var prefix := Filter(s[..|s| - 1], p);
      assert s == s[..|s| - 1] + [s[|s| - 1]];
      if p(s[|s| - 1]) then prefix + [s[|s| - 1]] else prefix
  }

  /** Where an element kept by `Filter` came from. */
  lemma FilterOrigin<T(!new)>(s: seq<T>, p: T -> bool, i: nat) returns (k: nat)
    requires i < |Filter(s, p)|
    ensures k < |s| && s[k] == Filter(s, p)[i] && p(s[k])
  {
    assert Filter(s, p)[i] in Filter(s, p);
    k :| 0 <= k < |s| && s[k] == Filter(s, p)[i];
  }

  /** Where `Filter` keeps an element that satisfies `p`. */
  lemma FilterKeeps<T(!new)>(s: seq<T>, p: T -> bool, k: nat) returns (i: nat)
    requires k < |s| && p(s[k])
    ensures i < |Filter(s, p)| && Filter(s, p)[i] == s[k]
  {
    assert s[k] in s;
    i :| 0 <= i < |Filter(s, p)| && Filter(s, p)[i] == s[k];
  }

  /** How many elements satisfy `p`. */
  function CountWhere<T>(s: seq<T>, p: T -> bool): nat
  {
    if s == [] then 0 else CountWhere(s[..|s| - 1], p) + (if p(s[|s| - 1]) then 1 else 0)
  }

  /** `Count` over a prefix one element longer. */
  lemma CountPrefixStep<T>(s: seq<T>, k: nat, p: T -> bool)
    requires k < |s|
    ensures CountWhere(s[..k + 1], p) == CountWhere(s[..k], p) + (if p(s[k]) then 1 else 0)
  {
    assert s[..k + 1][..k] == s[..k];
  }

  /** `Count` is the length of `Filter`. */
  lemma {:induction false} CountFilter<T(!new)>(s: seq<T>, p: T -> bool)
    ensures CountWhere(s, p) == |Filter(s, p)|
  {
    if s != [] {
      CountFilter(s[..|s| - 1], p);
    }
  }

  lemma {:induction false} FilterFilter<T(!new)>(s: seq<T>, p: T -> bool, q: T -> bool, pq: T -> bool)
    requires forall x :: pq(x) == (p(x) && q(x))
    ensures Filter(Filter(s, p), q) == Filter(s, pq)
  {
    if s != [] {
      var init := s[..|s| - 1];
      FilterFilter(init, p, q, pq);
      if p(s[|s| - 1]) {
        assert Filter(s, p)[..|Filter(s, p)| - 1] == Filter(init, p);
      }
    }
  }

  lemma {:induction false} FilterAll<T(!new)>(s: seq<T>, p: T -> bool)
    requires forall x :: p(x)
    ensures Filter(s, p) == s
  {
    if s != [] {
      FilterAll(s[..|s| - 1], p);
      assert s == s[..|s| - 1] + [s[|s| - 1]];
    }
  }

  /** The values `f` gives, skipping the elements it gives None for, in order. */
  function FilterMap<A, B>(s: seq<A>, f: A -> Option<B>): seq<B>
  {
    if s == [] then []
    else
      var init := FilterMap(s[..|s| - 1], f);
      match f(s[|s| - 1])
      case None => init
      case Some(y) => init + [y]
  }

  /** Every value of a `FilterMap` comes from some element. */
  lemma {:induction false} FilterMapOrigin<A, B>(s: seq<A>, f: A -> Option<B>, y: B) returns (j: nat)
    requires y in FilterMap(s, f)
    ensures j < |s| && f(s[j]) == Some(y)
    decreases |s|
  {
    var init := s[..|s| - 1];
    if y in FilterMap(init, f) {
      j := FilterMapOrigin(init, f, y);
    } else {
      j := |s| - 1;
    }
  }

  /** Every element `f` gives a value for contributes it. */
  lemma {:induction false} FilterMapInclude<A, B>(s: seq<A>, f: A -> Option<B>, j: nat)
    requires j < |s| && f(s[j]).Some?
    ensures f(s[j]).value in FilterMap(s, f)
    decreases |s|
  {
    if j < |s| - 1 {
      var init := s[..|s| - 1];
      assert init[j] == s[j];
      FilterMapInclude(init, f, j);
    }
  }

  /** `FilterMap` over a prefix one element longer. */
  lemma FilterMapPrefixStep<A, B>(s: seq<A>, f: A -> Option<B>, k: nat)
    requires k < |s|
    ensures FilterMap(s[..k + 1], f) == FilterMap(s[..k], f) + (if f(s[k]).Some? then [f(s[k]).value] else [])
  {
    assert s[..k + 1][..k] == s[..k];
  }

  /** How many values `FilterMap` keeps from the elements before index `j`. */
  function FilterMapRank<A, B>(s: seq<A>, f: A -> Option<B>, j: nat): nat
    requires j <= |s|
  {
    |FilterMap(s[..j], f)|
  }

  /** The values kept from a prefix are a prefix of the values kept. */
  lemma {:induction false} FilterMapPrefix<A, B>(s: seq<A>, f: A -> Option<B>, j: nat)
    requires j <= |s|
    ensures |FilterMap(s[..j], f)| <= |FilterMap(s, f)|
    ensures FilterMap(s, f)[..|FilterMap(s[..j], f)|] == FilterMap(s[..j], f)
    decreases |s|
  {
    if j == |s| {
      assert s[..j] == s;
    } else {
      var init := s[..|s| - 1];
      assert init[..j] == s[..j];
      FilterMapPrefix(init, f, j);
    }
  }

  /** An element `f` gives a value for contributes it at its rank. */
  lemma FilterMapAtRank<A, B>(s: seq<A>, f: A -> Option<B>, j: nat)
    requires j < |s| && f(s[j]).Some?
    ensures FilterMapRank(s, f, j) < |FilterMap(s, f)|
    ensures FilterMap(s, f)[FilterMapRank(s, f, j)] == f(s[j]).value
  {
    var p := s[..j + 1];
    assert p[..j] == s[..j];
    assert FilterMap(p, f) == FilterMap(s[..j], f) + [f(s[j]).value];
    FilterMapPrefix(s, f, j + 1);
  }

  /** Elements that contribute keep their order. */
  lemma FilterMapRankMonotone<A, B>(s: seq<A>, f: A -> Option<B>, j: nat, i: nat)
    requires j < i <= |s| && f(s[j]).Some?
    ensures FilterMapRank(s, f, j) < FilterMapRank(s, f, i)
  {
    var p := s[..i];
    assert p[..j + 1] == s[..j + 1];
    assert (s[..j + 1])[..j] == s[..j];
    assert FilterMap(s[..j + 1], f) == FilterMap(s[..j], f) + [f(s[j]).value];
    FilterMapPrefix(p, f, j + 1);
  }

  /** Every kept value has a position among the elements, and that element's rank is the value's index. */
  lemma {:induction false} FilterMapPosition<A, B>(s: seq<A>, f: A -> Option<B>, k: nat) returns (i: nat)
    requires k < |FilterMap(s, f)|
    ensures i < |s| && f(s[i]).Some? && FilterMapRank(s, f, i) == k
    decreases |s|
  {
    var init := s[..|s| - 1];
    if k < |FilterMap(init, f)| {
      i := FilterMapPosition(init, f, k);
      assert init[..i] == s[..i];
    } else {
      i := |s| - 1;
      assert s[..i] == init;
    }
  }

  /** `FilterMap` keeps at most one value per element. */
  lemma {:induction false} FilterMapLength<A, B>(s: seq<A>, f: A -> Option<B>)
    ensures |FilterMap(s, f)| <= |s|
    decreases |s|
  {
    if s != [] {
      FilterMapLength(s[..|s| - 1], f);
    }
  }

  /** When `f` gives a value for every element, `FilterMap` keeps them all, in place. */
  lemma {:induction false} FilterMapEvery<A, B>(s: seq<A>, f: A -> Option<B>)
    requires forall i :: 0 <= i < |s| ==> f(s[i]).Some?
    ensures |FilterMap(s, f)| == |s|
    ensures forall i :: 0 <= i < |s| ==> FilterMap(s, f)[i] == f(s[i]).value
    decreases |s|
  {
    if s != [] {
      var init := s[..|s| - 1];
      assert forall i :: 0 <= i < |init| ==> init[i] == s[i];
      FilterMapEvery(init, f);
      assert f(s[|s| - 1]).Some?;
    }
  }

  /** The concatenation of the sequences `f` gives for the elements, in order. */
  function Flatten<A, B>(s: seq<A>, f: A -> seq<B>): seq<B>
  {
    if s == [] then [] else Flatten(s[..|s| - 1], f) + f(s[|s| - 1])
  }

  /** Every value of a `Flatten` comes from some element. */
  lemma {:induction false} FlattenOrigin<A, B>(s: seq<A>, f: A -> seq<B>, y: B) returns (k: nat)
    requires y in Flatten(s, f)
    ensures k < |s| && y in f(s[k])
    decreases |s|
  {
    var init := s[..|s| - 1];
    if y in Flatten(init, f) {
      k := FlattenOrigin(init, f, y);
    } else {
      k := |s| - 1;
    }
  }

  /** Every value of every element's sequence is in the `Flatten`. */
  lemma {:induction false} FlattenInclude<A, B>(s: seq<A>, f: A -> seq<B>, k: nat, y: B)
    requires k < |s| && y in f(s[k])
    ensures y in Flatten(s, f)
    decreases |s|
  {
    if k < |s| - 1 {
      var init := s[..|s| - 1];
      assert init[k] == s[k];
      FlattenInclude(init, f, k, y);
    }
  }

  /** `Flatten` over a prefix one element longer. */
  lemma FlattenPrefixStep<A, B>(s: seq<A>, f: A -> seq<B>, k: nat)
    requires k < |s|
    ensures Flatten(s[..k + 1], f) == Flatten(s[..k], f) + f(s[k])
  {
    assert s[..k + 1][..k] == s[..k];
  }

  /** When no element gives more than `L` values, the `Flatten` has at most `|s| * L`. */
  lemma {:induction false} FlattenLengthBound<A, B>(s: seq<A>, f: A -> seq<B>, L: nat)
    requires forall i :: 0 <= i < |s| ==> |f(s[i])| <= L
    ensures |Flatten(s, f)| <= |s| * L
    decreases |s|
  {
    if s != [] {
      var init := s[..|s| - 1];
      assert forall i :: 0 <= i < |init| ==> init[i] == s[i];
      FlattenLengthBound(init, f, L);
      assert |f(s[|s| - 1])| <= L;
      assert (|s| - 1) * L + L == |s| * L;
    }
  }

  /** When every element gives exactly `L` values, the `Flatten` has exactly `|s| * L`. */
  lemma {:induction false} FlattenLengthExact<A, B>(s: seq<A>, f: A -> seq<B>, L: nat)
    requires forall i :: 0 <= i < |s| ==> |f(s[i])| == L
    ensures |Flatten(s, f)| == |s| * L
    decreases |s|
  {
    if s != [] {
      var init := s[..|s| - 1];
      assert forall i :: 0 <= i < |init| ==> init[i] == s[i];
      FlattenLengthExact(init, f, L);
      assert |f(s[|s| - 1])| == L;
      assert (|s| - 1) * L + L == |s| * L;
    }
  }

  /** `a * L + b < n * L` for a block `a < n` of `L` values and an offset `b < L`. */
  lemma BlockOffset(a: nat, n: nat, L: nat, b: nat)
    requires a < n && b < L
    ensures a * L + b < n * L
  {
    var m: nat := n - (a + 1);
    assert (a + 1) * L == a * L + L;
    assert n * L == (a + 1) * L + m * L;
    assert m * L >= 0;
  }

  /** When every element gives exactly `L` values, value `b` of element `a` sits at `a * L + b`. */
  lemma {:induction false} FlattenUniformAt<A, B>(s: seq<A>, f: A -> seq<B>, L: nat, a: nat, b: nat)
    requires forall i :: 0 <= i < |s| ==> |f(s[i])| == L
    requires a < |s| && b < L
    ensures a * L + b < |Flatten(s, f)| && Flatten(s, f)[a * L + b] == f(s[a])[b]
    decreases |s|
  {
    var init := s[..|s| - 1];
    assert forall i :: 0 <= i < |init| ==> init[i] == s[i];
    FlattenLengthExact(init, f, L);
    assert Flatten(s, f) == Flatten(init, f) + f(s[|s| - 1]);
    if a < |s| - 1 {
      FlattenUniformAt(init, f, L, a, b);
      BlockOffset(a, |init|, L, b);
    }
    FlattenLengthExact(s, f, L);
  }

  /** `[f(x) for x in s]`. */
  function MapSeq<A, B>(s: seq<A>, f: A -> B): (r: seq<B>)
    ensures |r| == |s|
    ensures forall i :: 0 <= i < |s| ==> r[i] == f(s[i])
  {
    if s == [] then [] else MapSeq(s[..|s| - 1], f) + [f(s[|s| - 1])]
  }

  /** `MapSeq` over a prefix one element longer. */
  lemma MapSeqPrefixStep<A, B>(s: seq<A>, f: A -> B, k: nat)
    requires k < |s|
    ensures MapSeq(s[..k + 1], f) == MapSeq(s[..k], f) + [f(s[k])]
  {
    assert s[..k + 1][..k] == s[..k];
  }

  /** The values of a `MapSeq` are the images of the elements. */
  lemma MapSeqMembers<A, B>(s: seq<A>, f: A -> B, y: B)
    ensures y in MapSeq(s, f) <==> exists i :: 0 <= i < |s| && f(s[i]) == y
  {
    var r := MapSeq(s, f);
    if y in r {
      var i :| 0 <= i < |r| && r[i] == y;
      assert f(s[i]) == y;
    }
    if exists i :: 0 <= i < |s| && f(s[i]) == y {
      var i :| 0 <= i < |s| && f(s[i]) == y;
      assert r[i] == y;
    }
  }

  /** The least element of a non-empty list (pandas' `min`). */
  function Min(s: seq<int>): (m: int)
    requires |s| > 0
    ensures m in s && forall i :: 0 <= i < |s| ==> m <= s[i]
  {
    if |s| == 1 then s[0]
    else
      var m := Min(s[1..]);
      assert forall i :: 1 <= i < |s| ==> s[i] == s[1..][i - 1];
      if s[0] < m then s[0] else m
  }

  /** The greatest element of a non-empty list (pandas' `max`). */
  function Max(s: seq<int>): (m: int)
    requires |s| > 0
    ensures m in s && forall i :: 0 <= i < |s| ==> s[i] <= m
  {
    if |s| == 1 then s[0]
    else
      var m := Max(s[1..]);
      assert forall i :: 1 <= i < |s| ==> s[i] == s[1..][i - 1];
      if s[0] > m then s[0] else m
  }

  /** `p` holds for every element; defined element by element from the front, as a loop checks it. */
  predicate AllHold<T>(s: seq<T>, p: T -> bool)
  {
    s == [] || (AllHold(s[..|s| - 1], p) && p(s[|s| - 1]))
  }

  lemma {:induction false} AllHoldEach<T>(s: seq<T>, p: T -> bool)
    ensures AllHold(s, p) <==> forall k :: 0 <= k < |s| ==> p(s[k])
  {
    if s != [] {
      var init := s[..|s| - 1];
      AllHoldEach(init, p);
      forall k | 0 <= k < |init| ensures init[k] == s[k] { }
    }
  }
}
