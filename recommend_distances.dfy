/**
 * The common-key iterator of recommend/src/distances.rs. It walks the smaller
 * map exactly as `common_keys_iter` of the engine does, but yields only the
 * two values, not the key. The metrics of that file are the same text as
 * those of engine/src/distances.rs and are modelled in `LegacyDistances`.
 */
module RecommendDistances {
  import opened Wrappers
  import Keys = CommonKeys

  class CommonKeyIterator<K(==), V> {
    /** The map whose entries are walked: the smaller one, `a` on a tie. */
    const source: map<K, V>
    /** The map each key is looked up in. */
    const longest: map<K, V>
    /** Keys of `source` the inner map iterator has not produced yet. */
    var shortest: set<K>
    /** Keys whose values have been returned so far. */
    ghost var yielded: set<K>
    /** The key whose values were returned last. */
    ghost var current: Option<K>

    ghost predicate Valid()
      reads this
    {
      && shortest <= source.Keys
      && yielded == (source.Keys - shortest) * longest.Keys
    }

    /** `CommonKeyIterator::new`. */
    constructor (a: map<K, V>, b: map<K, V>)
      ensures Valid()
      ensures source == Keys.Shortest(a, b) && longest == Keys.Longest(a, b)
      ensures shortest == source.Keys && yielded == {}
    {
      var s := if |a| > |b| then b else a;
      source, longest := s, if |a| > |b| then a else b;
      shortest := s.Keys;
      yielded := {};
      current := None;
    }

    /**
     * `Iterator::next`: skip the keys the larger map lacks and return the values
     * of the next common key, or `None` once the smaller map is exhausted.
     */
    method Next() returns (r: Option<(V, V)>)
      requires Valid()
      modifies this
      ensures Valid()
      ensures r.None? ==> shortest == {} && yielded == old(yielded)
      ensures r.Some? ==> shortest < old(shortest) && |yielded| == |old(yielded)| + 1
      ensures r.Some? ==> current.Some? && var k := current.value;
        && k in old(shortest) && k in longest && k !in old(yielded)
        && yielded == old(yielded) + {k} && r.value == (source[k], longest[k])
    {
      if shortest == {} {
        return None;
      }
      var k :| k in shortest;
      shortest := shortest - {k};
      while k !in longest
        invariant shortest < old(shortest) && shortest <= source.Keys
        invariant k in old(shortest) && k !in shortest
        invariant forall j :: j in old(shortest) - shortest && j != k ==> j !in longest
        invariant yielded == old(yielded)
        decreases shortest
      {
        if shortest == {} {
          return None;
        }
        k :| k in shortest;
        shortest := shortest - {k};
      }
      yielded, current := yielded + {k}, Some(k);
      r := Some((source[k], longest[k]));
    }
  }

  /** Once the smaller map is exhausted, values have been returned for exactly the common keys. */
  lemma ExhaustedYieldsCoRated<K, V>(a: map<K, V>, b: map<K, V>, it: CommonKeyIterator<K, V>)
    requires it.Valid() && it.source == Keys.Shortest(a, b) && it.longest == Keys.Longest(a, b)
    requires it.shortest == {}
    ensures it.yielded == Keys.CoRated(a, b)
  {
  }

  /**
   * What a `for` loop over `CommonKeyIterator::new(a, b)` sees: one pair per
   * common key, no key twice, each oriented (smaller map, larger map).
   */
  method Pairs<K(==,!new), V>(a: map<K, V>, b: map<K, V>) returns (pairs: seq<(V, V)>, ghost keys: seq<K>)
    ensures |pairs| == |keys| == |Keys.CoRated(a, b)|
    ensures forall i, j :: 0 <= i < j < |keys| ==> keys[i] != keys[j]
    ensures forall k :: k in keys <==> k in Keys.CoRated(a, b)
    ensures forall i :: 0 <= i < |keys| ==> keys[i] in a && keys[i] in b
    ensures forall i :: 0 <= i < |pairs| ==> pairs[i] == (Keys.Shortest(a, b)[keys[i]], Keys.Longest(a, b)[keys[i]])
  {
    var it := new CommonKeyIterator(a, b);
    pairs, keys := [], [];
    while true
      invariant fresh(it) && it.Valid() && it.source == Keys.Shortest(a, b) && it.longest == Keys.Longest(a, b)
      invariant Listed(it.source, it.longest, keys, pairs, it.yielded)
      decreases it.shortest
    {
      ghost var before := it.yielded;
      var r := it.Next();
      if r.None? {
        break;
      }
      ListedStep(it.source, it.longest, keys, pairs, before, it.current.value, r.value);
      keys, pairs := keys + [it.current.value], pairs + [r.value];
    }
    ExhaustedYieldsCoRated(a, b, it);
    DistinctCount(keys, Keys.CoRated(a, b));
  }

  /** `keys` lists the keys of `yielded` once each, and `pairs` their values in the two maps. */
  ghost predicate Listed<K(!new), V>(source: map<K, V>, longest: map<K, V>, keys: seq<K>, pairs: seq<(V, V)>, yielded: set<K>) {
    && |pairs| == |keys|
    && (forall i, j :: 0 <= i < j < |keys| ==> keys[i] != keys[j])
    && (forall k :: k in keys <==> k in yielded)
    && (forall i :: 0 <= i < |keys| ==> keys[i] in source && keys[i] in longest)
    && (forall i :: 0 <= i < |pairs| ==> pairs[i] == (source[keys[i]], longest[keys[i]]))
  }

  /** Appending a new key and its values keeps the listing. */
  lemma ListedStep<K(!new), V>(source: map<K, V>, longest: map<K, V>, keys: seq<K>, pairs: seq<(V, V)>, yielded: set<K>,
                         k: K, v: (V, V))
    requires Listed(source, longest, keys, pairs, yielded)
    requires k !in yielded && k in source && k in longest && v == (source[k], longest[k])
    ensures Listed(source, longest, keys + [k], pairs + [v], yielded + {k})
  {
  }

  /** A sequence without repetitions that lists exactly the elements of `s` has `|s|` entries. */
  lemma {:induction false} DistinctCount<K>(keys: seq<K>, s: set<K>)
    requires forall i, j :: 0 <= i < j < |keys| ==> keys[i] != keys[j]
    requires forall k :: k in keys <==> k in s
    ensures |keys| == |s|
  {
    if keys != [] {
      var last := keys[|keys| - 1];
      var init := keys[..|keys| - 1];
      assert forall k :: k in init <==> k in s - {last} by {
        forall k
          ensures k in init <==> k in s - {last}
        {
          if k in init {
            var i :| 0 <= i < |init| && init[i] == k;
            assert keys[i] == k;
          }
          if k in s - {last} {
            assert k in keys;
            var i :| 0 <= i < |keys| && keys[i] == k;
            assert i != |keys| - 1;
            assert init[i] == k;
          }
        }
      }
      DistinctCount(init, s - {last});
    }
  }

  /**
   * The unit test: the maps have four keys each and share 0, 2 and 5, where
   * the first map holds 0 and the second 2; the iterator gives (0, 2) three
   * times and then ends.
   */
  method PairsExample() returns (pairs: seq<(real, real)>)
    ensures pairs == [(0.0, 2.0), (0.0, 2.0), (0.0, 2.0)]
  {
    var a := map[0 := 0.0, 2 := 0.0, 3 := 0.0, 5 := 0.0];
    var b := map[0 := 2.0, 1 := 1.0, 2 := 2.0, 5 := 2.0];
    assert a.Keys == {0, 2, 3, 5} && b.Keys == {0, 1, 2, 5};
    assert |a| == 4 && |b| == 4;
    assert Keys.CoRated(a, b) == {0, 2, 5};
    ghost var keys;
    pairs, keys := Pairs(a, b);
    forall i | 0 <= i < |pairs|
      ensures pairs[i] == (0.0, 2.0)
    {
      ValueOfCommon(a, b, keys[i]);
    }
  }

  /** Every key the example maps share holds 0 in the first and 2 in the second. */
  lemma ValueOfCommon(a: map<int, real>, b: map<int, real>, k: int)
    requires a == map[0 := 0.0, 2 := 0.0, 3 := 0.0, 5 := 0.0] && b == map[0 := 2.0, 1 := 1.0, 2 := 2.0, 5 := 2.0]
    requires k in a && k in b
    ensures (a[k], b[k]) == (0.0, 2.0)
  {
  }
}
