/**
 * Grouping a list into a dictionary of lists by a key, as the client pages
 * do with a `forEach` that creates an empty list for a new key and pushes
 * each element onto the list of its key.
 */
module Grouping {
  import opened Seqs

  function OfKey<T, K(==)>(key: T -> K, k: K): T -> bool
  {
    (x: T) => key(x) == k
  }

  /**
   * `groups` has a list for exactly the keys occurring in `s`, and that
   * list is the elements of `s` with that key, in their order in `s`;
   * `keys` lists each key once, in order of first appearance.
   */
  ghost predicate GroupedBy<T, K>(s: seq<T>, key: T -> K, groups: map<K, seq<T>>, keys: seq<K>)
  {
    && (forall k | k in groups :: k in keys)
    && (forall i | 0 <= i < |keys| :: keys[i] in groups)
    && (forall i | 0 <= i < |s| :: key(s[i]) in groups)
    && (forall k | k in groups :: groups[k] == Filter(s, OfKey(key, k)) && groups[k] != [])
    && (forall i, j | 0 <= i < j < |keys| :: keys[i] != keys[j])
  }

  /** The `forEach` loop that fills the dictionary. */
  method GroupBy<T, K(==)>(s: seq<T>, key: T -> K) returns (groups: map<K, seq<T>>, keys: seq<K>)
    ensures GroupedBy(s, key, groups, keys)
  {
    groups, keys := map[], [];
    for i := 0 to |s|
      invariant GroupedBy(s[..i], key, groups, keys)
    {
      var k := key(s[i]);
      if k in groups {
        GroupStepKnown(s, i, key, groups, keys);
        groups := groups[k := groups[k] + [s[i]]];
      } else {
        GroupStepNew(s, i, key, groups, keys);
        groups, keys := groups[k := [s[i]]], keys + [k];
      }
    }
    assert s[..|s|] == s;
  }

  /** An element whose key already has a list is pushed onto that list. */
  lemma GroupStepKnown<T, K>(s: seq<T>, i: int, key: T -> K, groups: map<K, seq<T>>, keys: seq<K>)
    requires 0 <= i < |s| && GroupedBy(s[..i], key, groups, keys) && key(s[i]) in groups
    ensures GroupedBy(s[..i + 1], key, groups[key(s[i]) := groups[key(s[i])] + [s[i]]], keys)
  {
    FilterStep(s, i, key);
  }

  /** An element with a new key starts a list of its own, and its key is listed last. */
  lemma GroupStepNew<T, K>(s: seq<T>, i: int, key: T -> K, groups: map<K, seq<T>>, keys: seq<K>)
    requires 0 <= i < |s| && GroupedBy(s[..i], key, groups, keys) && key(s[i]) !in groups
    ensures GroupedBy(s[..i + 1], key, groups[key(s[i]) := [s[i]]], keys + [key(s[i])])
  {
    var k := key(s[i]);
    FilterStep(s, i, key);
    forall x | x in s[..i] ensures !OfKey(key, k)(x) {
      var j :| 0 <= j < i && s[..i][j] == x;
    }
    FilterNone(s[..i], OfKey(key, k));
  }

  /** Extending the prefix by one element extends only the list of that element's key. */
  lemma FilterStep<T, K>(s: seq<T>, i: int, key: T -> K)
    requires 0 <= i < |s|
    ensures forall k ::
      Filter(s[..i + 1], OfKey(key, k)) ==
      Filter(s[..i], OfKey(key, k)) + (if key(s[i]) == k then [s[i]] else [])
  {
    assert s[..i + 1] == s[..i] + [s[i]];
    forall k ensures Filter(s[..i + 1], OfKey(key, k)) ==
      Filter(s[..i], OfKey(key, k)) + (if key(s[i]) == k then [s[i]] else [])
    {
      FilterAppend(s[..i], [s[i]], OfKey(key, k));
      assert Filter([s[i]], OfKey(key, k)) == (if key(s[i]) == k then [s[i]] else []) + Filter([s[i]][1..], OfKey(key, k));
    }
  }

  /** The groups partition the list: every element is in the group of its own key and in no other. */
  lemma GroupsPartition<T, K>(s: seq<T>, key: T -> K, groups: map<K, seq<T>>, keys: seq<K>, x: T, k: K)
    requires GroupedBy(s, key, groups, keys)
    requires x in s && k in groups
    ensures x in groups[k] <==> key(x) == k
    ensures key(x) in groups
  {
    FilterMember(s, OfKey(key, k), x);
    var i :| 0 <= i < |s| && s[i] == x;
  }

  /** Every group's elements all have that group's key. */
  lemma GroupKeys<T, K>(s: seq<T>, key: T -> K, groups: map<K, seq<T>>, keys: seq<K>, k: K, x: T)
    requires GroupedBy(s, key, groups, keys)
    requires k in groups && x in groups[k]
    ensures x in s && key(x) == k
  {
    FilterMember(s, OfKey(key, k), x);
  }
}
