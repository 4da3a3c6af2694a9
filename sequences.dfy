/** The LINQ operators the repositories use over their tables: Where,
    FirstOrDefault and a stable OrderByDescending on an integer key. */
module Sequences {
  import opened Base

  /** Where(p): the elements satisfying p, in their original order. */
  function Filter<T>(s: seq<T>, p: T -> bool): seq<T> {
    if s == [] then [] else (if p(s[0]) then [s[0]] else []) + Filter(s[1..], p)
  }

  /** Where(p) keeps exactly the elements that satisfy p. */
  lemma {:induction false} FilterMembers<T>(s: seq<T>, p: T -> bool)
    ensures forall i :: 0 <= i < |Filter(s, p)| ==> Filter(s, p)[i] in s && p(Filter(s, p)[i])
    ensures forall i :: 0 <= i < |s| && p(s[i]) ==> s[i] in Filter(s, p)
  {
    if s != [] {
      FilterMembers(s[1..], p);
      assert s == [s[0]] + s[1..];
      forall i | 0 <= i < |s| && p(s[i]) ensures s[i] in Filter(s, p) {
        if i > 0 {
          assert s[i] == s[1..][i - 1];
        }
      }
    }
  }

  /** Where(p) never duplicates an element. */
  lemma {:induction false} FilterSubMultiset<T>(s: seq<T>, p: T -> bool)
    ensures multiset(Filter(s, p)) <= multiset(s)
  {
    if s != [] {
      FilterSubMultiset(s[1..], p);
      assert s == [s[0]] + s[1..];
    }
  }

  /** FirstOrDefault(p): the first element satisfying p, or None. */
  function Find<T>(s: seq<T>, p: T -> bool): (r: Option<T>)
    ensures r.None? <==> forall i :: 0 <= i < |s| ==> !p(s[i])
    ensures r.Some? ==> r.value in s && p(r.value)
  {
    if s == [] then None else if p(s[0]) then Some(s[0]) else Find(s[1..], p)
  }

  lemma {:induction false} FindIsHeadOfFilter<T>(s: seq<T>, p: T -> bool)
    ensures Find(s, p) == (if Filter(s, p) == [] then None else Some(Filter(s, p)[0]))
  {
    if s != [] && !p(s[0]) {
      FindIsHeadOfFilter(s[1..], p);
    }
  }

  /** When exactly one element satisfies p, FirstOrDefault(p) returns it. */
  lemma {:induction false} FindUnico<T>(s: seq<T>, k: nat, p: T -> bool)
    requires k < |s| && p(s[k])
    requires forall i :: 0 <= i < |s| && i != k ==> !p(s[i])
    ensures Find(s, p) == Some(s[k])
  {
    if k > 0 {
      FindUnico(s[1..], k - 1, p);
    }
  }

  /** A sequence ordered by key, greatest first. */
  predicate Descending<T>(s: seq<T>, key: T -> int) {
    forall i, j :: 0 <= i < j < |s| ==> key(s[i]) >= key(s[j])
  }

  /** Inserts x before the first element whose key does not exceed key(x). */
  function Insert<T>(x: T, s: seq<T>, key: T -> int): (r: seq<T>)
    ensures multiset(r) == multiset(s) + multiset{x}
  {
    if s == [] || key(x) >= key(s[0]) then
      [x] + s
    else
      assert s == [s[0]] + s[1..];
      [s[0]] + Insert(x, s[1..], key)
  }

  /** OrderByDescending(key): an insertion sort that keeps the original order
      of elements with equal keys. */
  function SortDesc<T>(s: seq<T>, key: T -> int): (r: seq<T>)
    ensures multiset(r) == multiset(s)
  {
    if s == [] then []
    else
      assert s == [s[0]] + s[1..];
      Insert(s[0], SortDesc(s[1..], key), key)
  }

  lemma {:induction false} InsertSorted<T>(x: T, s: seq<T>, key: T -> int)
    requires Descending(s, key)
    ensures Descending(Insert(x, s, key), key)
  {
    if s != [] && key(x) < key(s[0]) {
      InsertSorted(x, s[1..], key);
      var t := Insert(x, s[1..], key);
      assert s == [s[0]] + s[1..];
      forall i | 0 <= i < |t| ensures key(t[i]) <= key(s[0]) {
        assert t[i] in multiset(t);
        if t[i] != x {
          assert t[i] in multiset(s[1..]);
        }
      }
    }
  }

  /** The listing is ordered by key, greatest first. */
  lemma {:induction false} SortDescSorted<T>(s: seq<T>, key: T -> int)
    ensures Descending(SortDesc(s, key), key)
  {
    if s != [] {
      SortDescSorted(s[1..], key);
      InsertSorted(s[0], SortDesc(s[1..], key), key);
    }
  }

  lemma SortedElements<T>(s: seq<T>, key: T -> int)
    requires Descending(s, key) && s != []
    ensures forall i :: 0 <= i < |s| ==> key(s[i]) <= key(s[0])
  {
  }

  lemma {:induction false} FilterSorted<T>(s: seq<T>, key: T -> int, p: T -> bool)
    requires Descending(s, key)
    ensures Descending(Filter(s, p), key)
  {
    if s != [] {
      FilterSorted(s[1..], key, p);
      FilterMembers(s[1..], p);
      var f1 := Filter(s[1..], p);
      assert s == [s[0]] + s[1..];
      forall i | 0 <= i < |f1| ensures key(f1[i]) <= key(s[0]) {
        assert f1[i] in s[1..];
      }
    }
  }

  lemma DescendingTail<T>(s: seq<T>, key: T -> int)
    requires Descending(s, key) && s != []
    ensures Descending(s[1..], key)
  {
  }

  lemma {:induction false} FilterInsert<T>(x: T, s: seq<T>, key: T -> int, p: T -> bool)
    requires Descending(s, key)
    ensures Filter(Insert(x, s, key), p)
         == if p(x) then Insert(x, Filter(s, p), key) else Filter(s, p)
  {
    if s != [] {
      var f := Filter(s, p);
      var f1 := Filter(s[1..], p);
      assert f == (if p(s[0]) then [s[0]] else []) + f1;
      if key(x) >= key(s[0]) {
        var u := [x] + s;
        assert Insert(x, s, key) == u;
        assert Filter(u, p) == (if p(x) then [x] else []) + f by {
          assert u[0] == x && u[1..] == s;
        }
        if p(x) && f != [] {
          assert key(f[0]) <= key(s[0]) by {
            FilterMembers(s, p);
            assert f[0] in s;
            SortedElements(s, key);
          }
        }
      } else {
        var t := Insert(x, s[1..], key);
        var u := [s[0]] + t;
        DescendingTail(s, key);
        FilterInsert(x, s[1..], key, p);
        assert Insert(x, s, key) == u;
        if p(s[0]) {
          assert Filter(u, p) == [s[0]] + Filter(t, p) by {
            assert u[0] == s[0] && u[1..] == t;
          }
          assert f == [s[0]] + f1;
          if p(x) {
            assert Insert(x, f, key) == [s[0]] + Insert(x, f1, key) by {
              assert f[0] == s[0] && f[1..] == f1;
            }
          }
        } else {
          assert Filter(u, p) == Filter(t, p) by {
            assert u[0] == s[0] && u[1..] == t;
            assert [] + Filter(t, p) == Filter(t, p);
          }
          assert f == f1 by {
            assert [] + f1 == f1;
          }
        }
      }
    }
  }

  /** Filtering a sorted table equals sorting the filtered table: the query
      Where(p).OrderByDescending(key) keeps the relative order of the full
      listing. */
  lemma {:induction false} FilterSortCommute<T>(s: seq<T>, key: T -> int, p: T -> bool)
    ensures Filter(SortDesc(s, key), p) == SortDesc(Filter(s, p), key)
  {
    if s != [] {
      var s1 := SortDesc(s[1..], key);
      var f1 := Filter(s[1..], p);
      FilterSortCommute(s[1..], key, p);
      SortDescSorted(s[1..], key);
      FilterInsert(s[0], s1, key, p);
      assert SortDesc(s, key) == Insert(s[0], s1, key);
      if p(s[0]) {
        var f := [s[0]] + f1;
        assert Filter(s, p) == f;
        assert f[0] == s[0] && f[1..] == f1;
        assert SortDesc(f, key) == Insert(s[0], SortDesc(f1, key), key);
      } else {
        assert Filter(s, p) == f1;
      }
    }
  }
}
