/**
 * Mapping merge with omission markers (`_merge_mappings`): the second mapping
 * wins on a shared key, and a key whose winning value is the `Omit` marker is
 * dropped from the result.
 */
module Mappings {

  /** A mapping value that is either given or the explicit `Omit` marker. */
  datatype Slot<+T> = Given(value: T) | Omit

  /** A mapping without markers, seen as one whose values are all given. */
  function Lift<K, V>(m: map<K, V>): (r: map<K, Slot<V>>)
    ensures r.Keys == m.Keys
    ensures forall k :: k in r ==> r[k] == Given(m[k])
  {
    map k | k in m :: Given(m[k])
  }

  /** `_merge_mappings(m1, m2)`: `{**m1, **m2}` without the `Omit` values. */
  function MergeMappings<K, V>(m1: map<K, Slot<V>>, m2: map<K, Slot<V>>): (r: map<K, V>)
    // a key survives exactly when its winning value is not `Omit`
    ensures r.Keys == (set k | k in m2 && m2[k].Given?) + (set k | k in m1 && k !in m2 && m1[k].Given?)
    // the second mapping wins on a shared key
    ensures forall k :: k in r && k in m2 ==> r[k] == m2[k].value
    ensures forall k :: k in r && k !in m2 ==> r[k] == m1[k].value
  {
    var merged := m1 + m2;
    map k | k in merged && merged[k].Given? :: merged[k].value
  }

  /** Merging into nothing only strips the markers; merging nothing keeps a lifted mapping. */
  lemma MergeIdentity<K, V>(m: map<K, V>)
    ensures MergeMappings(map[], Lift(m)) == m
    ensures MergeMappings(Lift(m), map[]) == m
  {
  }

  /**
   * Spreading `a` and `b` into one dict and merging the result with `c` gives
   * what merging `a` with `b` first and then with `c` gives: the order in which
   * layers are stacked is all that decides the winner.
   */
  lemma MergeLayers<K, V>(a: map<K, Slot<V>>, b: map<K, Slot<V>>, c: map<K, Slot<V>>)
    ensures MergeMappings(a + b, c) == MergeMappings(Lift(MergeMappings(a, b)), c)
  {
    var l := MergeMappings(a + b, c);
    var r := MergeMappings(Lift(MergeMappings(a, b)), c);
    forall k | k in l ensures k in r && r[k] == l[k] { }
    forall k | k in r ensures k in l { }
  }

  /** Merging is associative: `c` over (`b` over `a`) is (`c` over `b`) over `a`. */
  lemma MergeAssociative<K, V>(a: map<K, Slot<V>>, b: map<K, Slot<V>>, c: map<K, Slot<V>>)
    ensures MergeMappings(Lift(MergeMappings(a, b)), c) == MergeMappings(a, b + c)
  {
    var l := MergeMappings(Lift(MergeMappings(a, b)), c);
    var r := MergeMappings(a, b + c);
    forall k | k in l ensures k in r && r[k] == l[k] { }
    forall k | k in r ensures k in l { }
  }

  /** Merging a merged mapping with itself changes nothing. */
  lemma MergeIdempotent<K, V>(m: map<K, V>)
    ensures MergeMappings(Lift(m), Lift(m)) == m
  {
  }
}
