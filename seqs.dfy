/**
 * The array combinators the TypeScript code chains together (`filter`,
 * `reduce` with `+`, `slice(0, n)`, a stable `sort` on a numeric key), as
 * functions on sequences, with the facts about them the rest of the model
 * relies on.
 */
module Seqs {
  import opened Wrappers

  // ---------------------------------------------------------------------------
  // filter

  /** `s.filter(p)`: the elements of `s` that satisfy `p`, in their order. */
  function Filter<T>(s: seq<T>, p: T -> bool): (r: seq<T>)
    ensures |r| <= |s|
  {
    if s == [] then [] else (if p(s[0]) then [s[0]] else []) + Filter(s[1..], p)
  }

  /** An element is kept exactly when it is in `s` and satisfies `p`. */
  lemma {:induction false} FilterMember<T>(s: seq<T>, p: T -> bool, x: T)
    ensures x in Filter(s, p) <==> x in s && p(x)
  {
    if s != [] {
      FilterMember(s[1..], p, x);
      assert s == [s[0]] + s[1..];
    }
  }

  lemma {:induction false} FilterAppend<T>(s: seq<T>, t: seq<T>, p: T -> bool)
    ensures Filter(s + t, p) == Filter(s, p) + Filter(t, p)
  {
    if s == [] {
      assert s + t == t;
    } else {
      var head := if p(s[0]) then [s[0]] else [];
      assert (s + t)[0] == s[0];
      assert (s + t)[1..] == s[1..] + t;
      FilterAppend(s[1..], t, p);
      calc {
        Filter(s + t, p);
        head + Filter(s[1..] + t, p);
        head + (Filter(s[1..], p) + Filter(t, p));
        (head + Filter(s[1..], p)) + Filter(t, p);
      }
    }
  }

  /** Filtering with `p` keeps everything exactly when every element satisfies `p`. */
  lemma {:induction false} FilterAll<T>(s: seq<T>, p: T -> bool)
    requires forall x | x in s :: p(x)
    ensures Filter(s, p) == s
  {
    if s != [] {
      FilterAll(s[1..], p);
    }
  }

  /** Nothing is kept when no element satisfies `p`. */
  lemma {:induction false} FilterNone<T>(s: seq<T>, p: T -> bool)
    requires forall x | x in s :: !p(x)
    ensures Filter(s, p) == []
  {
    if s != [] {
      FilterNone(s[1..], p);
    }
  }

  /** Two predicates that agree on the elements of `s` filter it alike. */
  lemma {:induction false} FilterCongruent<T>(s: seq<T>, p: T -> bool, q: T -> bool)
    requires forall x | x in s :: p(x) == q(x)
    ensures Filter(s, p) == Filter(s, q)
  {
    if s != [] {
      FilterCongruent(s[1..], p, q);
    }
  }

  /** Filtering twice is filtering once with the conjunction. */
  lemma {:induction false} FilterFilter<T>(s: seq<T>, p: T -> bool, q: T -> bool, pq: T -> bool)
    requires forall x | x in s :: pq(x) == (p(x) && q(x))
    ensures Filter(Filter(s, p), q) == Filter(s, pq)
  {
    if s != [] {
      FilterFilter(s[1..], p, q, pq);
      var head := if p(s[0]) then [s[0]] else [];
      FilterAppend(head, Filter(s[1..], p), q);
    }
  }

  // ---------------------------------------------------------------------------
  // reduce((sum, x) => sum + f(x), 0)

  /** `s.reduce((sum, x) => sum + f(x), 0)`. */
  function Sum<T>(s: seq<T>, f: T -> int): int
  {
    if s == [] then 0 else f(s[0]) + Sum(s[1..], f)
  }

  lemma {:induction false} SumAppend<T>(s: seq<T>, t: seq<T>, f: T -> int)
    ensures Sum(s + t, f) == Sum(s, f) + Sum(t, f)
  {
    if s == [] {
      assert s + t == t;
    } else {
      assert (s + t)[1..] == s[1..] + t;
      SumAppend(s[1..], t, f);
    }
  }

  /** A sum of non-negative terms is non-negative. */
  lemma {:induction false} SumNonNegative<T>(s: seq<T>, f: T -> int)
    requires forall x | x in s :: f(x) >= 0
    ensures Sum(s, f) >= 0
  {
    if s != [] {
      SumNonNegative(s[1..], f);
    }
  }

  /**
   * Splitting a sequence by a predicate and its negation splits the sum:
   * nothing is counted twice and nothing is lost.
   */
  lemma {:induction false} SumPartition<T>(s: seq<T>, f: T -> int, p: T -> bool, q: T -> bool)
    requires forall x | x in s :: q(x) == !p(x)
    ensures Sum(s, f) == Sum(Filter(s, p), f) + Sum(Filter(s, q), f)
  {
    if s != [] {
      SumPartition(s[1..], f, p, q);
      var head := if p(s[0]) then [s[0]] else [];
      SumAppend(head, Filter(s[1..], p), f);
      var other := if q(s[0]) then [s[0]] else [];
      SumAppend(other, Filter(s[1..], q), f);
    }
  }

  /** With non-negative terms, the sum over a filtered sequence is at most the whole sum. */
  lemma {:induction false} SumFilterAtMost<T>(s: seq<T>, f: T -> int, p: T -> bool)
    requires forall x | x in s :: f(x) >= 0
    ensures 0 <= Sum(Filter(s, p), f) <= Sum(s, f)
  {
    if s != [] {
      SumFilterAtMost(s[1..], f, p);
      var head := if p(s[0]) then [s[0]] else [];
      SumAppend(head, Filter(s[1..], p), f);
    }
  }

  /** Summing a pointwise sum of two terms sums each term separately. */
  lemma {:induction false} SumPointwise<T>(s: seq<T>, f: T -> int, g: T -> int, h: T -> int)
    requires forall x | x in s :: f(x) == g(x) + h(x)
    ensures Sum(s, f) == Sum(s, g) + Sum(s, h)
  {
    if s != [] {
      SumPointwise(s[1..], f, g, h);
    }
  }

  /**
   * A reduce that adds `f(x)` only when `p(x)` holds (`masked` gives 0
   * otherwise) is the sum of `f` over the elements satisfying `p`.
   */
  lemma {:induction false} SumMasked<T>(s: seq<T>, f: T -> int, p: T -> bool, masked: T -> int)
    requires forall x | x in s :: masked(x) == if p(x) then f(x) else 0
    ensures Sum(s, masked) == Sum(Filter(s, p), f)
  {
    if s != [] {
      SumMasked(s[1..], f, p, masked);
      var head := if p(s[0]) then [s[0]] else [];
      SumAppend(head, Filter(s[1..], p), f);
    }
  }

  // ---------------------------------------------------------------------------
  // slice(0, n)

  /** `s.slice(0, n)` for a non-negative `n`. */
  function Take<T>(s: seq<T>, n: nat): (r: seq<T>)
    ensures |r| <= n && |r| <= |s|
    ensures |r| == if |s| < n then |s| else n
    ensures forall i :: 0 <= i < |r| ==> r[i] == s[i]
  {
    if |s| <= n then s else s[..n]
  }

  // ---------------------------------------------------------------------------
  // A stable sort on a numeric key, largest key first:
  // `s.sort((a, b) => key(b) - key(a))`. ECMAScript requires Array.prototype.sort
  // to be stable, so elements with equal keys keep their relative order.

  /** No element has a larger key than one before it. */
  ghost predicate SortedDesc<T>(s: seq<T>, key: T -> int)
  {
    forall i, j :: 0 <= i < j < |s| ==> key(s[i]) >= key(s[j])
  }

  /** `x` inserted after every element whose key is at least `key(x)`. */
  function Insert<T>(s: seq<T>, x: T, key: T -> int): (r: seq<T>)
    ensures |r| == |s| + 1
  {
    if s == [] then [x]
    else if key(s[0]) >= key(x) then
      assert s == [s[0]] + s[1..];
      [s[0]] + Insert(s[1..], x, key)
    else [x] + s
  }

  /** Insertion sort, taking the elements left to right. */
  function SortDesc<T>(s: seq<T>, key: T -> int): (r: seq<T>)
    ensures |r| == |s|
  {
    if s == [] then []
    else
      assert s == s[..|s| - 1] + [s[|s| - 1]];
      Insert(SortDesc(s[..|s| - 1], key), s[|s| - 1], key)
  }

  /** Inserting adds exactly `x`. */
  lemma {:induction false} InsertPermutation<T>(s: seq<T>, x: T, key: T -> int)
    ensures multiset(Insert(s, x, key)) == multiset(s) + multiset{x}
  {
    if s != [] && key(s[0]) >= key(x) {
      InsertPermutation(s[1..], x, key);
      assert s == [s[0]] + s[1..];
    }
  }

  /** Sorting is a permutation. */
  lemma {:induction false} SortDescPermutation<T>(s: seq<T>, key: T -> int)
    ensures multiset(SortDesc(s, key)) == multiset(s)
  {
    if s != [] {
      SortDescPermutation(s[..|s| - 1], key);
      InsertPermutation(SortDesc(s[..|s| - 1], key), s[|s| - 1], key);
      assert s == s[..|s| - 1] + [s[|s| - 1]];
    }
  }

  /** The predicate "has key `k`", used to state stability. */
  function HasKey<T>(key: T -> int, k: int): T -> bool
  {
    x => key(x) == k
  }

  /**
   * Where `Insert` puts `x` in a sorted sequence: after the first `j`
   * elements, which all have a key at least `key(x)`, and before the rest,
   * which all have a smaller key.
   */
  lemma {:induction false} InsertAt<T>(s: seq<T>, x: T, key: T -> int, j: nat)
    requires j <= |s|
    requires forall k | 0 <= k < j :: key(s[k]) >= key(x)
    requires forall k | j <= k < |s| :: key(s[k]) < key(x)
    ensures Insert(s, x, key) == s[..j] + [x] + s[j..]
  {
    if j == 0 {
      assert s[..0] == [] && s[0..] == s;
    } else {
      var rest := s[1..];
      assert rest[..j - 1] == s[1..j];
      assert rest[j - 1..] == s[j..];
      InsertAt(rest, x, key, j - 1);
      assert [s[0]] + s[1..j] == s[..j];
    }
  }

  lemma {:induction false} InsertSorted<T>(s: seq<T>, x: T, key: T -> int)
    requires SortedDesc(s, key)
    ensures SortedDesc(Insert(s, x, key), key)
  {
    if s != [] && key(s[0]) >= key(x) {
      InsertSorted(s[1..], x, key);
      var r := Insert(s[1..], x, key);
      InsertPermutation(s[1..], x, key);
      assert forall y | y in r :: key(s[0]) >= key(y) by {
        assert multiset(r) == multiset(s[1..]) + multiset{x};
        forall y | y in r ensures key(s[0]) >= key(y) {
          assert y in multiset(r);
          if y != x {
            assert y in multiset(s[1..]);
            assert y in s[1..];
          }
        }
      }
    }
  }

  /** The result of `SortDesc` is ordered by key, largest first. */
  lemma {:induction false} SortDescSorted<T>(s: seq<T>, key: T -> int)
    ensures SortedDesc(SortDesc(s, key), key)
  {
    if s != [] {
      SortDescSorted(s[..|s| - 1], key);
      InsertSorted(SortDesc(s[..|s| - 1], key), s[|s| - 1], key);
    }
  }

  /** Inserting keeps, for every key, the order of the elements with that key, `x` last. */
  lemma {:induction false} InsertStable<T>(s: seq<T>, x: T, key: T -> int, k: int)
    requires SortedDesc(s, key)
    ensures Filter(Insert(s, x, key), HasKey(key, k))
         == Filter(s, HasKey(key, k)) + Filter([x], HasKey(key, k))
  {
    var p := HasKey(key, k);
    if s == [] {
    } else if key(s[0]) >= key(x) {
      InsertStable(s[1..], x, key, k);
      assert Insert(s, x, key) == [s[0]] + Insert(s[1..], x, key);
      FilterAppend([s[0]], Insert(s[1..], x, key), p);
      FilterAppend([s[0]], s[1..], p);
      assert [s[0]] + s[1..] == s;
    } else {
      // every element of s has a key smaller than key(x)
      FilterAppend([x], s, p);
      if key(x) == k {
        assert forall y | y in s :: !p(y) by {
          forall y | y in s ensures !p(y) {
            var i :| 0 <= i < |s| && s[i] == y;
            assert key(s[0]) >= key(s[i]);
          }
        }
        FilterNone(s, p);
      }
    }
  }

  /**
   * Stability: for every key, the elements with that key appear in the
   * sorted result in exactly the order they had in the input.
   */
  lemma {:induction false} SortDescStable<T>(s: seq<T>, key: T -> int, k: int)
    ensures Filter(SortDesc(s, key), HasKey(key, k)) == Filter(s, HasKey(key, k))
  {
    if s != [] {
      var init, last := s[..|s| - 1], s[|s| - 1];
      SortDescStable(init, key, k);
      SortDescSorted(init, key);
      InsertStable(SortDesc(init, key), last, key, k);
      assert s == init + [last];
      FilterAppend(init, [last], HasKey(key, k));
    }
  }

  /** Sorting does not change any filtered sum. */
  lemma {:induction false} InsertSum<T>(s: seq<T>, x: T, key: T -> int, p: T -> bool, f: T -> int)
    ensures Sum(Filter(Insert(s, x, key), p), f) == Sum(Filter(s, p), f) + Sum(Filter([x], p), f)
  {
    if s == [] {
    } else if key(s[0]) >= key(x) {
      InsertSum(s[1..], x, key, p, f);
      FilterAppend([s[0]], Insert(s[1..], x, key), p);
      SumAppend(Filter([s[0]], p), Filter(Insert(s[1..], x, key), p), f);
      FilterAppend([s[0]], s[1..], p);
      assert [s[0]] + s[1..] == s;
      SumAppend(Filter([s[0]], p), Filter(s[1..], p), f);
    } else {
      FilterAppend([x], s, p);
      SumAppend(Filter([x], p), Filter(s, p), f);
    }
  }

  lemma {:induction false} SortDescSum<T>(s: seq<T>, key: T -> int, p: T -> bool, f: T -> int)
    ensures Sum(Filter(SortDesc(s, key), p), f) == Sum(Filter(s, p), f)
  {
    if s != [] {
      var init, last := s[..|s| - 1], s[|s| - 1];
      SortDescSum(init, key, p, f);
      InsertSum(SortDesc(init, key), last, key, p, f);
      assert s == init + [last];
      FilterAppend(init, [last], p);
      SumAppend(Filter(init, p), Filter([last], p), f);
    }
  }

  /**
   * After sorting, the first `n` elements outrank every element left out:
   * `SortDesc(s, key)` followed by `slice(0, n)` keeps the top `n`.
   */
  lemma TakeTop<T>(s: seq<T>, key: T -> int, n: nat)
    ensures SortedDesc(Take(SortDesc(s, key), n), key)
    ensures forall e, r | e in s && e !in Take(SortDesc(s, key), n) && r in Take(SortDesc(s, key), n) ::
      key(r) >= key(e)
  {
    var sorted := SortDesc(s, key);
    var first := Take(sorted, n);
    SortDescSorted(s, key);
    SortDescPermutation(s, key);
    forall e, r | e in s && e !in first && r in first ensures key(r) >= key(e) {
      assert e in multiset(sorted);
      var j :| 0 <= j < |sorted| && sorted[j] == e;
      var i :| 0 <= i < |first| && first[i] == r;
      assert forall k | 0 <= k < |first| :: sorted[k] != e;
      assert key(sorted[i]) >= key(sorted[j]);
    }
  }

  // ---------------------------------------------------------------------------
  // find

  /** Position of the first element satisfying `p`, or `|s|` when there is none. */
  function FindIndex<T>(s: seq<T>, p: T -> bool): (i: nat)
    ensures i <= |s|
    ensures i < |s| ==> p(s[i])
    ensures forall j :: 0 <= j < i ==> !p(s[j])
  {
    if s == [] then 0 else if p(s[0]) then 0 else 1 + FindIndex(s[1..], p)
  }

  /** `s.find(p)`: the first element satisfying `p`, or `undefined`. */
  function Find<T>(s: seq<T>, p: T -> bool): (r: Option<T>)
    ensures r.Some? ==> r.value in s && p(r.value)
    ensures r.None? ==> forall x | x in s :: !p(x)
  {
    var i := FindIndex(s, p);
    if i < |s| then Some(s[i]) else None
  }

  // ---------------------------------------------------------------------------
  // map, and map followed by filter(x => x !== undefined)

  /** `s.map(f)`. */
  function MapSeq<A, B>(s: seq<A>, f: A -> B): (r: seq<B>)
    ensures |r| == |s|
    ensures forall i :: 0 <= i < |s| ==> r[i] == f(s[i])
  {
    if s == [] then [] else [f(s[0])] + MapSeq(s[1..], f)
  }

  /** `s.map(f).filter(y => y !== undefined)`. */
  function FilterMap<A, B>(s: seq<A>, f: A -> Option<B>): (r: seq<B>)
    ensures |r| <= |s|
  {
    if s == [] then [] else (if f(s[0]).Some? then [f(s[0]).value] else []) + FilterMap(s[1..], f)
  }

  /**
   * When `f` succeeds exactly on the elements satisfying `p`, and `g` recovers
   * the source element from what `f` built, the kept results are exactly the
   * elements satisfying `p`, in order.
   */
  lemma {:induction false} FilterMapKept<A, B>(s: seq<A>, f: A -> Option<B>, g: B -> A, p: A -> bool)
    requires forall x | x in s :: f(x).Some? == p(x)
    requires forall x | x in s :: f(x).Some? ==> g(f(x).value) == x
    ensures MapSeq(FilterMap(s, f), g) == Filter(s, p)
  {
    if s != [] {
      FilterMapKept(s[1..], f, g, p);
      var head := if f(s[0]).Some? then [f(s[0]).value] else [];
      MapAppend(head, FilterMap(s[1..], f), g);
    }
  }

  /** Everything `FilterMap` keeps was built by `f` from an element of `s`. */
  lemma {:induction false} FilterMapMember<A, B>(s: seq<A>, f: A -> Option<B>, y: B)
    requires y in FilterMap(s, f)
    ensures exists x :: x in s && f(x) == Some(y)
  {
    if f(s[0]) != Some(y) {
      FilterMapMember(s[1..], f, y);
      var x :| x in s[1..] && f(x) == Some(y);
      assert x in s;
    }
  }

  /** Summing through a projection is summing the projected values. */
  lemma {:induction false} SumMapSeq<A, B>(s: seq<A>, g: A -> B, f: B -> int, fg: A -> int)
    requires forall x | x in s :: fg(x) == f(g(x))
    ensures Sum(s, fg) == Sum(MapSeq(s, g), f)
  {
    if s != [] {
      SumMapSeq(s[1..], g, f, fg);
      assert MapSeq(s, g)[1..] == MapSeq(s[1..], g);
    }
  }

  /** Projecting commutes with filtering on the projected value. */
  lemma {:induction false} MapSeqFilter<A, B>(s: seq<A>, g: A -> B, p: B -> bool, pg: A -> bool)
    requires forall x | x in s :: pg(x) == p(g(x))
    ensures MapSeq(Filter(s, pg), g) == Filter(MapSeq(s, g), p)
  {
    if s != [] {
      MapSeqFilter(s[1..], g, p, pg);
      assert MapSeq(s, g)[1..] == MapSeq(s[1..], g);
      MapAppend(if pg(s[0]) then [s[0]] else [], Filter(s[1..], pg), g);
    }
  }

  /** Keeping some elements of an ordered sequence keeps it ordered. */
  lemma {:induction false} FilterSorted<T>(s: seq<T>, p: T -> bool, key: T -> int)
    requires SortedDesc(s, key)
    ensures SortedDesc(Filter(s, p), key)
  {
    if s != [] {
      var rest := Filter(s[1..], p);
      FilterSorted(s[1..], p, key);
      if p(s[0]) {
        forall k | 0 <= k < |rest| ensures key(s[0]) >= key(rest[k]) {
          FilterMember(s[1..], p, rest[k]);
          var i :| 0 <= i < |s[1..]| && s[1..][i] == rest[k];
          assert s[i + 1] == rest[k];
        }
        assert Filter(s, p) == [s[0]] + rest;
      }
    }
  }

  lemma {:induction false} MapAppend<A, B>(s: seq<A>, t: seq<A>, f: A -> B)
    ensures MapSeq(s + t, f) == MapSeq(s, f) + MapSeq(t, f)
  {
  }

  // ---------------------------------------------------------------------------
  // `Array.from(new Map(s.map(x => [idOf(x), x])).values())`: a JavaScript Map
  // keeps the position at which a key was first set and the value it was
  // last set to.

  /** Some element of `s` has id `k`. */
  predicate HasId<T(==)>(s: seq<T>, idOf: T -> int, k: int)
  {
    exists x | x in s :: idOf(x) == k
  }

  /** "The id of `x` does not occur in `s`." */
  function NewId<T(==)>(s: seq<T>, idOf: T -> int): T -> bool
  {
    x => !HasId(s, idOf, idOf(x))
  }

  /** No id occurs twice. */
  ghost predicate DistinctIds<T>(s: seq<T>, idOf: T -> int)
  {
    forall i, j :: 0 <= i < j < |s| ==> idOf(s[i]) != idOf(s[j])
  }

  /** Elements with the same id are the same element. */
  ghost predicate IdConsistent<T>(s: seq<T>, idOf: T -> int)
  {
    forall x, y | x in s && y in s && idOf(x) == idOf(y) :: x == y
  }

  /** `map.set(idOf(x), x)` on a Map whose values, in order, are `acc`. */
  function Upsert<T>(acc: seq<T>, x: T, idOf: T -> int): (r: seq<T>)
  {
    if acc == [] then [x]
    else if idOf(acc[0]) == idOf(x) then [x] + acc[1..]
    else [acc[0]] + Upsert(acc[1..], x, idOf)
  }

  /** `find` looks at the head first, then at the rest. */
  lemma FindCons<T>(s: seq<T>, p: T -> bool)
    requires s != []
    ensures Find(s, p) == if p(s[0]) then Some(s[0]) else Find(s[1..], p)
  {
    if !p(s[0]) {
      var i := FindIndex(s[1..], p);
      assert FindIndex(s, p) == i + 1;
    }
  }

  /**
   * Reading back after a `set`: the key just set yields the new value, and
   * every other key yields what it did before.
   */
  lemma {:induction false} UpsertLookup<T>(acc: seq<T>, x: T, idOf: T -> int, k: int)
    ensures Find(Upsert(acc, x, idOf), HasKey(idOf, k)) ==
      if k == idOf(x) then Some(x) else Find(acc, HasKey(idOf, k))
  {
    var r := Upsert(acc, x, idOf);
    FindCons(r, HasKey(idOf, k));
    if acc != [] {
      FindCons(acc, HasKey(idOf, k));
      if idOf(acc[0]) != idOf(x) {
        UpsertLookup(acc[1..], x, idOf, k);
      }
    }
  }

  /** The values of a Map built from `s`, one `set` per element, left to right. */
  function Dedup<T>(s: seq<T>, idOf: T -> int): seq<T>
  {
    if s == [] then [] else Upsert(Dedup(s[..|s| - 1], idOf), s[|s| - 1], idOf)
  }

  /** After `set`, the ids present are the old ones plus the new one. */
  lemma {:induction false} UpsertIds<T>(acc: seq<T>, x: T, idOf: T -> int, k: int)
    ensures HasId(Upsert(acc, x, idOf), idOf, k) <==> HasId(acc, idOf, k) || k == idOf(x)
  {
    var r := Upsert(acc, x, idOf);
    if acc == [] {
      assert r == [x];
    } else if idOf(acc[0]) == idOf(x) {
      assert acc == [acc[0]] + acc[1..];
      if HasId(acc, idOf, k) {
        var y :| y in acc && idOf(y) == k;
        if y != acc[0] {
          assert y in r;
        } else {
          assert x in r;
        }
      }
    } else {
      UpsertIds(acc[1..], x, idOf, k);
      assert acc == [acc[0]] + acc[1..];
      var rest := Upsert(acc[1..], x, idOf);
      assert r == [acc[0]] + rest;
      if HasId(r, idOf, k) {
        var y :| y in r && idOf(y) == k;
        if y != acc[0] {
          assert y in rest;
          if HasId(acc[1..], idOf, k) {
            var w :| w in acc[1..] && idOf(w) == k;
            assert w in acc;
          }
        }
      }
      if HasId(acc[1..], idOf, k) || k == idOf(x) {
        assert HasId(rest, idOf, k);
        var z :| z in rest && idOf(z) == k;
        assert z in r;
      }
    }
  }

  lemma {:induction false} UpsertDistinct<T>(acc: seq<T>, x: T, idOf: T -> int)
    requires DistinctIds(acc, idOf)
    ensures DistinctIds(Upsert(acc, x, idOf), idOf)
  {
    var r := Upsert(acc, x, idOf);
    if acc == [] {
    } else if idOf(acc[0]) == idOf(x) {
      assert forall i | 0 <= i < |r| :: idOf(r[i]) == idOf(acc[i]);
    } else {
      var rest := Upsert(acc[1..], x, idOf);
      UpsertDistinct(acc[1..], x, idOf);
      forall j | 0 <= j < |rest| ensures idOf(acc[0]) != idOf(rest[j]) {
        assert rest[j] in rest;
        UpsertIds(acc[1..], x, idOf, idOf(rest[j]));
        if HasId(acc[1..], idOf, idOf(rest[j])) {
          var y :| y in acc[1..] && idOf(y) == idOf(rest[j]);
          var i :| 0 <= i < |acc[1..]| && acc[1..][i] == y;
          assert acc[i + 1] == y;
        }
      }
      assert forall j | 1 <= j < |r| :: r[j] == rest[j - 1];
    }
  }

  /** The values of a Map never repeat a key: every id occurs at most once. */
  lemma {:induction false} DedupDistinct<T>(s: seq<T>, idOf: T -> int)
    ensures DistinctIds(Dedup(s, idOf), idOf)
  {
    if s != [] {
      DedupDistinct(s[..|s| - 1], idOf);
      UpsertDistinct(Dedup(s[..|s| - 1], idOf), s[|s| - 1], idOf);
    }
  }

  /** Setting a key that is already present with the same value changes nothing. */
  lemma {:induction false} UpsertPresent<T>(acc: seq<T>, x: T, idOf: T -> int)
    requires HasId(acc, idOf, idOf(x))
    requires IdConsistent(acc + [x], idOf)
    ensures Upsert(acc, x, idOf) == acc
  {
    assert acc[0] in acc + [x] && x in acc + [x];
    if idOf(acc[0]) != idOf(x) {
      var y :| y in acc && idOf(y) == idOf(x);
      assert y in acc[1..];
      assert acc[1..] + [x] <= acc + [x] || forall z | z in acc[1..] + [x] :: z in acc + [x];
      UpsertPresent(acc[1..], x, idOf);
      assert [acc[0]] + acc[1..] == acc;
    }
  }

  /** Setting a new key appends its value. */
  lemma {:induction false} UpsertAbsent<T>(acc: seq<T>, x: T, idOf: T -> int)
    requires !HasId(acc, idOf, idOf(x))
    ensures Upsert(acc, x, idOf) == acc + [x]
  {
    if acc != [] {
      assert acc[0] in acc;
      assert forall y | y in acc[1..] :: y in acc;
      UpsertAbsent(acc[1..], x, idOf);
      assert [acc[0]] + (acc[1..] + [x]) == acc + [x];
    }
  }

  /** Building a Map from elements with distinct ids keeps them all, in order. */
  lemma {:induction false} DedupOfDistinct<T>(s: seq<T>, idOf: T -> int)
    requires DistinctIds(s, idOf)
    ensures Dedup(s, idOf) == s
  {
    if s != [] {
      var init, last := s[..|s| - 1], s[|s| - 1];
      DedupOfDistinct(init, idOf);
      forall y | y in init ensures idOf(y) != idOf(last) {
        var i :| 0 <= i < |init| && init[i] == y;
        assert s[i] == y;
      }
      UpsertAbsent(init, last, idOf);
      assert init + [last] == s;
    }
  }

  /**
   * Deduplicating `a + b`, where `a` and `b` each have distinct ids and equal
   * ids mean equal elements, keeps all of `a` first and then the elements of
   * `b` whose id is not in `a`.
   */
  lemma {:induction false} DedupAppend<T>(a: seq<T>, b: seq<T>, idOf: T -> int)
    requires DistinctIds(a, idOf) && DistinctIds(b, idOf)
    requires IdConsistent(a + b, idOf)
    ensures Dedup(a + b, idOf) == a + Filter(b, NewId(a, idOf))
  {
    if b == [] {
      assert a + b == a;
      DedupOfDistinct(a, idOf);
    } else {
      var init, y := b[..|b| - 1], b[|b| - 1];
      assert b == init + [y];
      assert DistinctIds(init, idOf);
      IdConsistentSub(a + init, a + b, idOf);
      DedupAppend(a, init, idOf);
      assert (a + b)[..|a + b| - 1] == a + init;
      assert Dedup(a + b, idOf) == Upsert(Dedup(a + init, idOf), y, idOf);
      DedupAppendLast(a, init, y, idOf);
    }
  }

  /** A part of an id-consistent sequence is id-consistent. */
  lemma IdConsistentSub<T>(s: seq<T>, t: seq<T>, idOf: T -> int)
    requires IdConsistent(t, idOf)
    requires forall z | z in s :: z in t
    ensures IdConsistent(s, idOf)
  {
  }

  /** The last step of `DedupAppend`: one more element of `b` is set. */
  lemma DedupAppendLast<T>(a: seq<T>, init: seq<T>, y: T, idOf: T -> int)
    requires DistinctIds(init + [y], idOf)
    requires IdConsistent(a + (init + [y]), idOf)
    ensures Upsert(a + Filter(init, NewId(a, idOf)), y, idOf) == a + Filter(init + [y], NewId(a, idOf))
  {
    var kept := Filter(init, NewId(a, idOf));
    var acc := a + kept;
    FilterAppend(init, [y], NewId(a, idOf));
    assert Filter([y], NewId(a, idOf)) == (if NewId(a, idOf)(y) then [y] else []);
    assert forall z | z in kept :: z in init by {
      forall z | z in kept ensures z in init {
        FilterMember(init, NewId(a, idOf), z);
      }
    }
    if HasId(a, idOf, idOf(y)) {
      IdConsistentSub(acc + [y], a + (init + [y]), idOf);
      UpsertPresent(acc, y, idOf);
    } else {
      forall z | z in acc ensures idOf(z) != idOf(y) {
        if z in kept {
          var i :| 0 <= i < |init| && init[i] == z;
          assert (init + [y])[i] == z && (init + [y])[|init|] == y;
        }
      }
      UpsertAbsent(acc, y, idOf);
    }
  }
}
