/**
 * The ranking query behind the float pool of OBJParser/Program.cs:
 * `(from f in list orderby <occurrences of f in list> descending select f).Distinct()`
 * and the dictionary that numbers its result from 1. LINQ's `orderby` is a
 * stable sort, and `Distinct` keeps the first occurrence of every value.
 */
module Ranking {

  // ---------------------------------------------------------------------------
  // Counting and first occurrences
  // ---------------------------------------------------------------------------

  /** `(from v in s where v == x select v).Count()`. */
  function Count<T(==)>(s: seq<T>, x: T): nat
  {
    if s == [] then 0 else Count(s[..|s| - 1], x) + (if s[|s| - 1] == x then 1 else 0)
  }

  /** The position of the first occurrence of `x` in `s`. */
  function FirstIndex<T(==)>(s: seq<T>, x: T): (i: nat)
    requires x in s
    ensures i < |s| && s[i] == x && x !in s[..i]
  {
    if s[0] == x then 0
    else
      var i := FirstIndex(s[1..], x) + 1;
      assert s[..i] == [s[0]] + s[1..][..i - 1];
      i
  }

  /** The first occurrence is the only position holding `x` with no `x` before it. */
  lemma FirstIndexUnique<T>(s: seq<T>, x: T, i: int)
    requires 0 <= i < |s| && s[i] == x && x !in s[..i]
    ensures FirstIndex(s, x) == i
  {
    var f := FirstIndex(s, x);
  }

  /** The first occurrence in a concatenation. */
  lemma FirstIndexConcat<T>(u: seq<T>, v: seq<T>, a: T)
    requires a in u + v
    ensures FirstIndex(u + v, a) == if a in u then FirstIndex(u, a) else |u| + FirstIndex(v, a)
  {
    if a in u {
      var i := FirstIndex(u, a);
      assert (u + v)[..i] == u[..i];
      FirstIndexUnique(u + v, a, i);
    } else {
      assert a in v by {
        var k :| 0 <= k < |u + v| && (u + v)[k] == a;
        if k < |u| {
          assert u[k] == a;
        } else {
          assert v[k - |u|] == a;
        }
      }
      var i := FirstIndex(v, a);
      assert (u + v)[..|u| + i] == u + v[..i];
      FirstIndexUnique(u + v, a, |u| + i);
    }
  }

  // ---------------------------------------------------------------------------
  // The stable sort by a key, descending
  // ---------------------------------------------------------------------------

  predicate SortedDescending<T>(r: seq<T>, key: T -> int)
  {
    forall i, j :: 0 <= i < j < |r| ==> key(r[i]) >= key(r[j])
  }

  /** Where `x` goes: after every element whose key is at least its own. */
  function InsertPosition<T>(r: seq<T>, x: T, key: T -> int): (q: nat)
    ensures q <= |r|
  {
    if r == [] || key(r[|r| - 1]) >= key(x) then |r| else InsertPosition(r[..|r| - 1], x, key)
  }

  /** One step of a stable insertion sort, walking from the back. */
  function Insert<T>(r: seq<T>, x: T, key: T -> int): seq<T>
  {
    if r == [] || key(r[|r| - 1]) >= key(x) then r + [x]
    else Insert(r[..|r| - 1], x, key) + [r[|r| - 1]]
  }

  /** `orderby key descending`: stable, so equal keys keep their input order. */
  function SortDescending<T>(s: seq<T>, key: T -> int): seq<T>
  {
    if s == [] then [] else Insert(SortDescending(s[..|s| - 1], key), s[|s| - 1], key)
  }

  /** Insertion puts `x` at its position, right after an element whose key
      is at least its own (if any). */
  lemma {:induction false} InsertSplit<T>(r: seq<T>, x: T, key: T -> int)
    ensures var q := InsertPosition(r, x, key);
      Insert(r, x, key) == r[..q] + [x] + r[q..] &&
      (q > 0 ==> key(r[q - 1]) >= key(x))
    decreases |r|
  {
    if r != [] && key(r[|r| - 1]) < key(x) {
      var init := r[..|r| - 1];
      InsertSplit(init, x, key);
      var q := InsertPosition(init, x, key);
      assert r[..q] == init[..q];
      assert r[q..] == init[q..] + [r[|r| - 1]];
    }
  }

  /** Everything insertion puts after `x` has a smaller key. */
  lemma {:induction false} InsertAfterSmaller<T>(r: seq<T>, x: T, key: T -> int)
    ensures forall k :: InsertPosition(r, x, key) <= k < |r| ==> key(r[k]) < key(x)
    decreases |r|
  {
    if r != [] && key(r[|r| - 1]) < key(x) {
      var init := r[..|r| - 1];
      InsertAfterSmaller(init, x, key);
      forall k | InsertPosition(r, x, key) <= k < |r| - 1
        ensures key(r[k]) < key(x)
      {
        assert r[k] == init[k];
      }
    }
  }

  /** The elements of `Insert(r, x, key)` position by position. */
  lemma InsertIndex<T>(r: seq<T>, x: T, key: T -> int)
    ensures var q, t := InsertPosition(r, x, key), Insert(r, x, key);
      |t| == |r| + 1 && t[q] == x &&
      (forall k :: 0 <= k < q ==> t[k] == r[k]) &&
      (forall k :: q < k < |t| ==> t[k] == r[k - 1])
  {
    InsertSplit(r, x, key);
  }

  /** Insertion adds exactly `x`. */
  lemma InsertMultiset<T>(r: seq<T>, x: T, key: T -> int)
    ensures multiset(Insert(r, x, key)) == multiset(r) + multiset{x}
  {
    var q := InsertPosition(r, x, key);
    assert Insert(r, x, key) == r[..q] + [x] + r[q..] by {
      InsertSplit(r, x, key);
    }
    assert r == r[..q] + r[q..];
  }

  /** Insertion into a sorted sequence keeps it sorted. */
  lemma InsertSorted<T>(r: seq<T>, x: T, key: T -> int)
    requires SortedDescending(r, key)
    ensures SortedDescending(Insert(r, x, key), key)
  {
    var q := InsertPosition(r, x, key);
    var t := Insert(r, x, key);
    InsertIndex(r, x, key);
    assert q > 0 ==> key(r[q - 1]) >= key(x) by {
      InsertSplit(r, x, key);
    }
    forall i, j | 0 <= i < j < |t|
      ensures key(t[i]) >= key(t[j])
    {
      if j < q {
        assert key(r[i]) >= key(r[j]);
      } else if j == q {
        assert key(r[i]) >= key(r[q - 1]);
      } else if i < q {
        assert key(r[i]) >= key(r[j - 1]);
      } else if i == q {
        InsertAfterSmaller(r, x, key);
        assert key(r[j - 1]) < key(x);
      } else {
        assert key(r[i - 1]) >= key(r[j - 1]);
      }
    }
  }

  /** The first occurrences in `r` after inserting `x` at position `q`: those
      before `q` stay, the others move one place on. */
  lemma FirstIndexAfterInsert<T>(r: seq<T>, x: T, key: T -> int, c: T)
    requires c in r
    ensures var q := InsertPosition(r, x, key);
      c in Insert(r, x, key) &&
      FirstIndex(Insert(r, x, key), c) == if FirstIndex(r, c) < q then FirstIndex(r, c) else FirstIndex(r, c) + 1
  {
    var q := InsertPosition(r, x, key);
    var t := Insert(r, x, key);
    var front, back := r[..q], r[q..];
    assert r == front + back;
    assert t == front + ([x] + back) by {
      InsertSplit(r, x, key);
    }
    if c in front {
      assert FirstIndex(r, c) == FirstIndex(front, c) < q by {
        FirstIndexConcat(front, back, c);
      }
      assert FirstIndex(t, c) == FirstIndex(front, c) by {
        FirstIndexConcat(front, [x] + back, c);
      }
    } else {
      assert c in back;
      assert c != x by {
        if c == x {
          var k := FirstIndex(back, c);
          assert r[q + k] == x;
          InsertAfterSmaller(r, x, key);
          assert false;
        }
      }
      assert FirstIndex(r, c) == q + FirstIndex(back, c) by {
        FirstIndexConcat(front, back, c);
      }
      assert FirstIndex([x] + back, c) == 1 + FirstIndex(back, c) by {
        FirstIndexConcat([x], back, c);
      }
      assert FirstIndex(t, c) == q + FirstIndex([x] + back, c) by {
        FirstIndexConcat(front, [x] + back, c);
      }
    }
  }

  /** `a` comes before `b` in the ranking: a larger key, or the same key and
      an earlier first occurrence in `s`. */
  predicate RanksBefore<T(==)>(s: seq<T>, key: T -> int, a: T, b: T)
    requires a in s && b in s
  {
    key(a) > key(b) || (key(a) == key(b) && FirstIndex(s, a) < FirstIndex(s, b))
  }

  /** `t` holds the values of `s`, and lists first whichever of two values
      ranks before the other. */
  ghost predicate KeepsRankOrder<T(!new)>(s: seq<T>, key: T -> int, t: seq<T>)
  {
    (forall x :: x in t <==> x in s) &&
    forall a, b :: a in s && b in s && a != b && RanksBefore(s, key, a, b) ==>
      FirstIndex(t, a) < FirstIndex(t, b)
  }

  /** Where a new value `x` lands relative to the values already sorted. */
  lemma NewValuePosition<T>(t0: seq<T>, x: T, key: T -> int, a: T)
    requires SortedDescending(t0, key) && a in t0
    ensures var q := InsertPosition(t0, x, key);
      (key(a) >= key(x) ==> FirstIndex(t0, a) < q) &&
      (key(a) < key(x) ==> FirstIndex(t0, a) >= q)
  {
    var q := InsertPosition(t0, x, key);
    var k := FirstIndex(t0, a);
    if k >= q && key(a) >= key(x) {
      InsertAfterSmaller(t0, x, key);
    }
    if k < q && key(a) < key(x) {
      InsertSplit(t0, x, key);
    }
  }

  /** Inserting into a sorted permutation of `init` holds the values of
      `init + [x]`. */
  lemma InsertMembers<T>(init: seq<T>, x: T, key: T -> int, t0: seq<T>)
    requires multiset(t0) == multiset(init)
    ensures forall c :: c in Insert(t0, x, key) <==> c in init + [x]
  {
    var p, t := init + [x], Insert(t0, x, key);
    InsertMultiset(t0, x, key);
    forall c
      ensures c in t <==> c in p
    {
      assert c in t <==> c in multiset(t);
      assert c in p <==> c in multiset(p);
    }
  }

  /** Where a value of `init` lands after one more insertion. */
  lemma OldValueIndex<T>(init: seq<T>, x: T, key: T -> int, t0: seq<T>, c: T)
    requires SortedDescending(t0, key) && multiset(t0) == multiset(init) && c in init
    ensures c in t0 && FirstIndex(init + [x], c) == FirstIndex(init, c)
    ensures c in Insert(t0, x, key)
    ensures var q := InsertPosition(t0, x, key);
      FirstIndex(Insert(t0, x, key), c) == if FirstIndex(t0, c) < q then FirstIndex(t0, c) else FirstIndex(t0, c) + 1
  {
    assert c in multiset(init);
    FirstIndexConcat(init, [x], c);
    FirstIndexAfterInsert(t0, x, key, c);
  }

  /** Where a new value lands: at the insertion position. */
  lemma NewValueIndex<T>(init: seq<T>, x: T, key: T -> int, t0: seq<T>)
    requires SortedDescending(t0, key) && multiset(t0) == multiset(init) && x !in init
    ensures FirstIndex(init + [x], x) == |init|
    ensures x in Insert(t0, x, key)
    ensures FirstIndex(Insert(t0, x, key), x) == InsertPosition(t0, x, key)
  {
    var t, q := Insert(t0, x, key), InsertPosition(t0, x, key);
    InsertMembers(init, x, key, t0);
    FirstIndexConcat(init, [x], x);
    assert x !in multiset(t0);
    InsertSplit(t0, x, key);
    assert t[..q] == t0[..q];
    FirstIndexUnique(t, x, q);
  }

  /** One pair after one step of the sort: the value ranking first comes
      first. */
  lemma SortStepPair<T(!new)>(init: seq<T>, x: T, key: T -> int, t0: seq<T>, a: T, b: T)
    requires SortedDescending(t0, key)
    requires multiset(t0) == multiset(init)
    requires KeepsRankOrder(init, key, t0)
    requires a in init + [x] && b in init + [x] && a != b && RanksBefore(init + [x], key, a, b)
    ensures a in Insert(t0, x, key) && b in Insert(t0, x, key)
    ensures FirstIndex(Insert(t0, x, key), a) < FirstIndex(Insert(t0, x, key), b)
  {
    InsertMembers(init, x, key, t0);
    if a in init {
      OldValueIndex(init, x, key, t0, a);
    } else {
      NewValueIndex(init, x, key, t0);
    }
    if b in init {
      OldValueIndex(init, x, key, t0, b);
    } else {
      NewValueIndex(init, x, key, t0);
    }
    if a in init && b in init {
      assert RanksBefore(init, key, a, b);
    } else if a == x {
      NewValuePosition(t0, x, key, b);
    } else {
      NewValuePosition(t0, x, key, a);
    }
  }

  /** One step of the sort keeps the ranking order of first occurrences. */
  lemma SortStep<T(!new)>(init: seq<T>, x: T, key: T -> int, t0: seq<T>)
    requires SortedDescending(t0, key)
    requires multiset(t0) == multiset(init)
    requires KeepsRankOrder(init, key, t0)
    ensures KeepsRankOrder(init + [x], key, Insert(t0, x, key))
  {
    var p, t := init + [x], Insert(t0, x, key);
    InsertMembers(init, x, key, t0);
    forall a, b | a in p && b in p && a != b && RanksBefore(p, key, a, b)
      ensures FirstIndex(t, a) < FirstIndex(t, b)
    {
      SortStepPair(init, x, key, t0, a, b);
    }
  }

  /** The sort is a permutation, sorted by key, and among elements it orders
      by key and then by first occurrence in the input. */
  lemma {:induction false} SortOrder<T(!new)>(s: seq<T>, key: T -> int)
    ensures SortedDescending(SortDescending(s, key), key)
    ensures multiset(SortDescending(s, key)) == multiset(s)
    ensures KeepsRankOrder(s, key, SortDescending(s, key))
    decreases |s|
  {
    if s != [] {
      var init, x := s[..|s| - 1], s[|s| - 1];
      assert s == init + [x];
      var t0 := SortDescending(init, key);
      SortOrder(init, key);
      InsertSorted(t0, x, key);
      InsertMultiset(t0, x, key);
      SortStep(init, x, key, t0);
    }
  }

  // ---------------------------------------------------------------------------
  // Distinct
  // ---------------------------------------------------------------------------

  /** `Distinct()`: the first occurrence of every value, in order. */
  function Distinct<T(==)>(t: seq<T>): seq<T>
  {
    if t == [] then []
    else
      var init := t[..|t| - 1];
      if t[|t| - 1] in init then Distinct(init) else Distinct(init) + [t[|t| - 1]]
  }

  predicate NoDuplicates<T(==)>(r: seq<T>)
  {
    forall i, j :: 0 <= i < j < |r| ==> r[i] != r[j]
  }

  /** Distinct keeps every value once and lists the values in the order of
      their first occurrences. */
  lemma {:induction false} DistinctFirstOccurrences<T>(t: seq<T>)
    ensures forall x :: x in Distinct(t) <==> x in t
    ensures NoDuplicates(Distinct(t))
    ensures forall i, j :: 0 <= i < j < |Distinct(t)| ==>
      FirstIndex(t, Distinct(t)[i]) < FirstIndex(t, Distinct(t)[j])
    decreases |t|
  {
    if t != [] {
      var init, y := t[..|t| - 1], t[|t| - 1];
      assert t == init + [y];
      DistinctFirstOccurrences(init);
      var d0 := Distinct(init);
      forall c | c in init
        ensures FirstIndex(t, c) == FirstIndex(init, c)
      {
        FirstIndexConcat(init, [y], c);
      }
      if y !in init {
        FirstIndexConcat(init, [y], y);
        var d := Distinct(t);
        assert d == d0 + [y];
        forall i, j | 0 <= i < j < |d|
          ensures FirstIndex(t, d[i]) < FirstIndex(t, d[j])
        {
          assert d[i] == d0[i];
          if j < |d0| {
            assert d[j] == d0[j];
          }
        }
      }
    }
  }

  /** A duplicate-free sequence has as many elements as values. */
  lemma {:induction false} NoDuplicatesCardinality<T>(r: seq<T>)
    requires NoDuplicates(r)
    ensures |set x | x in r| == |r|
    decreases |r|
  {
    if r != [] {
      var init := r[..|r| - 1];
      NoDuplicatesCardinality(init);
      assert (set x | x in r) == (set x | x in init) + {r[|r| - 1]};
      assert r[|r| - 1] !in init;
    }
  }

  // ---------------------------------------------------------------------------
  // The ranking and its numbering
  // ---------------------------------------------------------------------------

  /** `(from f in s orderby Count(s, f) descending select f).Distinct()`. */
  function RankByFrequency<T(==)>(s: seq<T>): seq<T>
  {
    Distinct(SortDescending(s, x => Count(s, x)))
  }

  /** `f` ranks before `g` in `s`: it occurs more often, or as often and first. */
  predicate MoreFrequent<T(==)>(s: seq<T>, f: T, g: T)
    requires f in s && g in s
  {
    RanksBefore(s, x => Count(s, x), f, g)
  }

  /** The ranking holds exactly the values of `s`, each once. */
  lemma RankingMembers<T(!new)>(s: seq<T>)
    ensures forall x :: x in RankByFrequency(s) <==> x in s
    ensures NoDuplicates(RankByFrequency(s))
  {
    var t := SortDescending(s, x => Count(s, x));
    SortOrder(s, x => Count(s, x));
    DistinctFirstOccurrences(t);
    forall x | x in t
      ensures x in s
    {
      assert x in multiset(t);
    }
    forall x | x in s
      ensures x in t
    {
      assert x in multiset(s);
    }
  }

  /** The ranking lists every value of `s` exactly once, by descending
      occurrence count, ties by first occurrence in `s`. */
  lemma RankingOrder<T(!new)>(s: seq<T>)
    ensures forall x :: x in RankByFrequency(s) <==> x in s
    ensures NoDuplicates(RankByFrequency(s))
    ensures |RankByFrequency(s)| == |set x | x in s|
    ensures forall i, j :: 0 <= i < j < |RankByFrequency(s)| ==>
      MoreFrequent(s, RankByFrequency(s)[i], RankByFrequency(s)[j])
  {
    var key := x => Count(s, x);
    var r := RankByFrequency(s);
    RankingMembers(s);
    NoDuplicatesCardinality(r);
    assert (set x | x in r) == (set x | x in s);
    forall i, j | 0 <= i < j < |r|
      ensures MoreFrequent(s, r[i], r[j])
    {
      RankingPair(s, i, j);
    }
  }

  /** One pair of the ranking is in ranking order. */
  lemma RankingPair<T(!new)>(s: seq<T>, i: int, j: int)
    requires 0 <= i < j < |RankByFrequency(s)|
    ensures RankByFrequency(s)[i] in s && RankByFrequency(s)[j] in s
    ensures MoreFrequent(s, RankByFrequency(s)[i], RankByFrequency(s)[j])
  {
    var key := x => Count(s, x);
    var t := SortDescending(s, key);
    var r := RankByFrequency(s);
    SortOrder(s, key);
    DistinctFirstOccurrences(t);
    RankingMembers(s);
    var a, b := r[i], r[j];
    assert a in s && b in s && a != b;
    if !RanksBefore(s, key, a, b) {
      assert RanksBefore(s, key, b, a);
    }
  }

  /** `new Dictionary(uniques.Zip(Enumerable.Range(1, count), ...))`: the k-th
      value gets id k, for the first `count` values. */
  function NumberFromOne<T(==)>(uniques: seq<T>, count: int): map<T, int>
  {
    if uniques == [] || count <= 0 then map[]
    else
      var n := if |uniques| <= count then |uniques| else count;
      var init := uniques[..n - 1];
      NumberFromOne(init, n - 1)[uniques[n - 1] := n]
  }

  /** Numbering a duplicate-free list with room for all of it: id k + 1 goes
      to the k-th value and to nothing else. */
  lemma {:induction false} NumberFromOneIds<T>(uniques: seq<T>, count: int)
    requires NoDuplicates(uniques) && |uniques| <= count
    ensures forall x :: x in NumberFromOne(uniques, count) <==> x in uniques
    ensures forall k :: 0 <= k < |uniques| ==> NumberFromOne(uniques, count)[uniques[k]] == k + 1
    decreases |uniques|
  {
    if uniques != [] {
      var n := |uniques|;
      var init := uniques[..n - 1];
      NumberFromOneIds(init, n - 1);
      forall k | 0 <= k < n - 1
        ensures uniques[k] == init[k] && uniques[k] != uniques[n - 1]
      {
      }
    }
  }

  /** The pool numbering of `s`: the ranking numbered from 1, with room for
      `|s|` ids. */
  function PoolNumbering<T(==)>(s: seq<T>): map<T, int>
  {
    NumberFromOne(RankByFrequency(s), |s|)
  }

  /** The numbering gives the k-th ranked value id k + 1, and ids to the
      values of `s` only. */
  lemma PoolNumberingIds<T(!new)>(s: seq<T>)
    ensures forall x :: x in PoolNumbering(s) <==> x in s
    ensures forall k :: 0 <= k < |RankByFrequency(s)| ==>
      RankByFrequency(s)[k] in PoolNumbering(s) && PoolNumbering(s)[RankByFrequency(s)[k]] == k + 1
  {
    RankingOrder(s);
    SetOfSeqSize(s);
    NumberFromOneIds(RankByFrequency(s), |s|);
  }

  /** The pool numbering: ids are exactly 1..N for the N distinct values of
      `s`, each id decodes back through the ranking, and a smaller id means a
      higher occurrence count or the same count and an earlier first occurrence. */
  lemma PoolIds<T(!new)>(s: seq<T>)
    ensures forall x :: x in PoolNumbering(s) <==> x in s
    ensures forall x :: x in PoolNumbering(s) ==>
      1 <= PoolNumbering(s)[x] <= |RankByFrequency(s)| && RankByFrequency(s)[PoolNumbering(s)[x] - 1] == x
    ensures forall x, y :: x in PoolNumbering(s) && y in PoolNumbering(s) && x != y ==>
      (PoolNumbering(s)[x] < PoolNumbering(s)[y] <==> MoreFrequent(s, x, y))
  {
    var r := RankByFrequency(s);
    var d := PoolNumbering(s);
    PoolNumberingIds(s);
    assert forall x :: x in r <==> x in s by {
      RankingOrder(s);
    }
    forall x | x in d
      ensures 1 <= d[x] <= |r| && r[d[x] - 1] == x
    {
      var k :| 0 <= k < |r| && r[k] == x;
      assert d[r[k]] == k + 1;
    }
    forall x, y | x in d && y in d && x != y
      ensures d[x] < d[y] <==> MoreFrequent(s, x, y)
    {
      var i :| 0 <= i < |r| && r[i] == x;
      var j :| 0 <= j < |r| && r[j] == y;
      assert d[x] == i + 1 && d[y] == j + 1;
      RankingOrder(s);
      if i < j {
        assert MoreFrequent(s, r[i], r[j]);
      } else {
        assert MoreFrequent(s, r[j], r[i]);
      }
    }
  }

  /** A sequence has at most as many values as elements. */
  lemma {:induction false} SetOfSeqSize<T>(s: seq<T>)
    ensures |set x | x in s| <= |s|
    decreases |s|
  {
    if s != [] {
      var init := s[..|s| - 1];
      SetOfSeqSize(init);
      assert (set x | x in s) == (set x | x in init) + {s[|s| - 1]};
    }
  }

  /** Occurrences in a concatenation add up. */
  lemma {:induction false} CountAppend<T>(a: seq<T>, b: seq<T>, x: T)
    ensures Count(a + b, x) == Count(a, x) + Count(b, x)
    decreases |b|
  {
    if b == [] {
      assert a + b == a;
    } else {
      var init := b[..|b| - 1];
      assert (a + b)[..|a + b| - 1] == a + init;
      CountAppend(a, init, x);
    }
  }

  /** A run of `n` copies of `v` holds `x` n times if `x` is `v`, else never. */
  lemma {:induction false} CountRun<T>(n: nat, v: T, x: T)
    ensures Count(seq(n, _ => v), x) == if v == x then n else 0
  {
    if n > 0 {
      CountRun(n - 1, v, x);
      assert seq(n, _ => v)[..n - 1] == seq(n - 1, _ => v);
    }
  }

  /** In the raw values of three vertices (0,0,0), (0,0,1), (0,0,2), 0 occurs
      seven times, 1 and 2 once each. */
  lemma ExampleCounts(s: seq<int>)
    requires s == [0, 0, 0, 0, 0, 1, 0, 0, 2]
    ensures Count(s, 0) == 7 && Count(s, 1) == 1 && Count(s, 2) == 1
  {
    var five, two := seq(5, _ => 0), seq(2, _ => 0);
    assert s == five + [1] + two + [2];
    forall x | x in {0, 1, 2}
      ensures Count(s, x) == Count(five, x) + Count([1], x) + Count(two, x) + Count([2], x)
    {
      CountAppend(five + [1] + two, [2], x);
      CountAppend(five + [1], two, x);
      CountAppend(five, [1], x);
    }
    CountRun(5, 0, 0); CountRun(5, 0, 1); CountRun(5, 0, 2);
    CountRun(2, 0, 0); CountRun(2, 0, 1); CountRun(2, 0, 2);
    CountRun(1, 1, 0); CountRun(1, 1, 1); CountRun(1, 1, 2);
    CountRun(1, 2, 0); CountRun(1, 2, 1); CountRun(1, 2, 2);
    assert [1] == seq(1, _ => 1) && [2] == seq(1, _ => 2);
  }

  /** In those raw values 0 ranks before everything, and 1 before 2. */
  lemma ExampleOrder(s: seq<int>, x: int, y: int)
    requires s == [0, 0, 0, 0, 0, 1, 0, 0, 2]
    requires x in s && y in s && x != y
    ensures MoreFrequent(s, x, y) <==> (x == 0 || (x == 1 && y == 2))
  {
    ExampleCounts(s);
    assert s[..5] == [0, 0, 0, 0, 0];
    FirstIndexUnique(s, 0, 0);
    FirstIndexUnique(s, 1, 5);
    FirstIndexUnique(s, 2, 8);
  }

  /** The ranking of those raw values lists 0, 1 and 2 once each, in
      ranking order. */
  lemma ExampleRankShape(s: seq<int>)
    requires s == [0, 0, 0, 0, 0, 1, 0, 0, 2]
    ensures |RankByFrequency(s)| == 3
    ensures forall x :: x in RankByFrequency(s) <==> x in s
    ensures RankByFrequency(s)[0] != RankByFrequency(s)[1] && RankByFrequency(s)[1] != RankByFrequency(s)[2] && RankByFrequency(s)[2] != RankByFrequency(s)[0]
    ensures RankByFrequency(s)[0] in s && RankByFrequency(s)[1] in s && RankByFrequency(s)[2] in s
    ensures MoreFrequent(s, RankByFrequency(s)[0], RankByFrequency(s)[1])
    ensures MoreFrequent(s, RankByFrequency(s)[1], RankByFrequency(s)[2])
  {
    RankingOrder(s);
    var r := RankByFrequency(s);
    assert (set x | x in s) == {0, 1, 2};
    assert NoDuplicates(r);
    assert r[0] in r && r[1] in r && r[2] in r;
  }

  /** The ranking of those raw values: 0 takes id 1; 1 and 2 follow in
      first-seen order. */
  lemma RankingExample(s: seq<int>)
    requires s == [0, 0, 0, 0, 0, 1, 0, 0, 2]
    ensures RankByFrequency(s) == [0, 1, 2]
  {
    var r := RankByFrequency(s);
    ExampleRankShape(s);
    var a, b, c := r[0], r[1], r[2];
    assert forall x :: x in s <==> x in {0, 1, 2};
    ExampleOrder(s, a, b);
    ExampleOrder(s, b, c);
    assert a == 0 || (a == 1 && b == 2);
    assert a == 0 && b == 1 && c == 2;
    assert r == [a, b, c];
  }
}
