/**
 * The in-place sort the client and the server use on arrays: JavaScript's
 * `Array.prototype.sort` with a comparator `(x, y) => key(y) - key(x)`,
 * which is stable, so it orders by key, largest first, and keeps equal keys
 * in their original order.
 */
module Sorting {
  import opened Seqs

  /**
   * `a.sort((x, y) => key(y) - key(x))`: an insertion sort that moves each
   * element left past the elements with a strictly smaller key, so equal
   * keys keep their order.
   */
  method SortDescInPlace<T>(a: array<T>, key: T -> int)
    modifies a
    ensures a[..] == SortDesc(old(a[..]), key)
  {
    ghost var input := a[..];
    for i := 0 to a.Length
      invariant a[..] == SortDesc(input[..i], key) + input[i..]
    {
      SortStep(a, i, key, input);
    }
    assert input[..a.Length] == input;
  }

  /** `[...s].sort(...)`: the list copied into a fresh array, which is then sorted in place. */
  method SortedCopy<T>(s: seq<T>, key: T -> int) returns (a: array<T>)
    ensures fresh(a) && a[..] == SortDesc(s, key)
  {
    a := new T[|s|](i requires 0 <= i < |s| => s[i]);
    assert a[..] == s;
    SortDescInPlace(a, key);
  }

  /** Extends the sorted prefix by one element. */
  method SortStep<T>(a: array<T>, i: int, key: T -> int, ghost input: seq<T>)
    requires 0 <= i < a.Length == |input|
    requires a[..] == SortDesc(input[..i], key) + input[i..]
    modifies a
    ensures a[..] == SortDesc(input[..i + 1], key) + input[i + 1..]
  {
    assert a[..i] == SortDesc(input[..i], key) && a[i] == input[i];
    assert a[i + 1..] == input[i + 1..];
    SortDescSorted(input[..i], key);
    InsertLeft(a, i, key);
    SortDescSnoc(input, i, key);
    assert a[..] == a[..i + 1] + a[i + 1..];
  }

  /** One step of `SortDesc`: sorting one more element inserts it. */
  lemma SortDescSnoc<T>(s: seq<T>, i: int, key: T -> int)
    requires 0 <= i < |s|
    ensures SortDesc(s[..i + 1], key) == Insert(SortDesc(s[..i], key), s[i], key)
  {
    assert s[..i + 1][..i] == s[..i];
  }

  /** Moves `a[i]` left into the sorted prefix `a[..i]`, past every smaller key. */
  method InsertLeft<T>(a: array<T>, i: int, key: T -> int)
    requires 0 <= i < a.Length
    requires SortedDesc(a[..i], key)
    modifies a
    ensures a[..i + 1] == Insert(old(a[..i]), old(a[i]), key)
    ensures a[i + 1..] == old(a[i + 1..])
  {
    ghost var sorted := a[..i];
    var x := a[i];
    var j := MakeRoom(a, i, key);
    InsertionPoint(sorted, key, j, x);
    a[j] := x;
    ghost var moved := sorted[..j] + [x] + sorted[j..];
    assert |moved| == i + 1;
    forall k | 0 <= k <= i ensures a[k] == moved[k] {
      if k < j {
        assert moved[k] == sorted[k];
      } else if k > j {
        assert moved[k] == sorted[k - 1];
      }
    }
    assert a[..i + 1] == moved;
  }

  /**
   * Shifts right by one the elements of `a[..i]` that have a smaller key than
   * `a[i]`, starting from the end, and returns the position that opens up.
   */
  method MakeRoom<T>(a: array<T>, i: int, key: T -> int) returns (j: int)
    requires 0 <= i < a.Length
    modifies a
    ensures 0 <= j <= i
    ensures forall k | 0 <= k < j :: a[k] == old(a[k])
    ensures forall k | j < k <= i :: a[k] == old(a[k - 1])
    ensures forall k | i < k < a.Length :: a[k] == old(a[k])
    ensures j > 0 ==> key(old(a[j - 1])) >= key(old(a[i]))
    ensures forall k | j <= k < i :: key(old(a[k])) < key(old(a[i]))
  {
    var x := a[i];
    j := i;
    while j > 0 && key(a[j - 1]) < key(x)
      invariant 0 <= j <= i
      invariant forall k | 0 <= k < j :: a[k] == old(a[k])
      invariant forall k | j < k <= i :: a[k] == old(a[k - 1])
      invariant forall k | i < k < a.Length :: a[k] == old(a[k])
      invariant forall k | j <= k < i :: key(old(a[k])) < key(x)
    {
      a[j] := a[j - 1];
      j := j - 1;
    }
  }

  /**
   * In a sorted sequence, `x` goes at the first position whose predecessor
   * has a key at least `key(x)` and whose followers all have smaller keys.
   */
  lemma InsertionPoint<T>(s: seq<T>, key: T -> int, j: int, x: T)
    requires SortedDesc(s, key)
    requires 0 <= j <= |s|
    requires j > 0 ==> key(s[j - 1]) >= key(x)
    requires forall k | j <= k < |s| :: key(s[k]) < key(x)
    ensures Insert(s, x, key) == s[..j] + [x] + s[j..]
  {
    forall k | 0 <= k < j ensures key(s[k]) >= key(x) {
      assert key(s[k]) >= key(s[j - 1]);
    }
    InsertAt(s, x, key, j);
  }
}
