/**
 * `common_keys_iter` and `CommonKeyIterator` (engine/src/utils.rs): walk the
 * entries of the smaller of two rating maps and yield, for every key the other
 * map also holds, the pair (value in the smaller map, value in the larger map).
 *
 * The `HashMap` iterator's order is unspecified, so `Next` takes the next key
 * by an arbitrary choice; every property below holds for every order.
 */
module CommonKeys {
  import opened Wrappers

  /** The map that is walked: the one with fewer entries, `a` when both have as many. */
  function Shortest<K, V>(a: map<K, V>, b: map<K, V>): map<K, V> {
    if |a| > |b| then b else a
  }

  /** The map that is looked up. */
  function Longest<K, V>(a: map<K, V>, b: map<K, V>): map<K, V> {
    if |a| > |b| then a else b
  }

  /** The keys both maps hold. */
  function CoRated<K, V>(a: map<K, V>, b: map<K, V>): set<K> {
    a.Keys * b.Keys
  }

  class CommonKeyIterator<K(==), V> {
    /** The map whose entries the inner map iterator walks. */
    const source: map<K, V>
    /** The map each key is looked up in. */
    const longest: map<K, V>
    /** Keys of `source` the inner map iterator has not produced yet. */
    var shortest: set<K>
    /** Keys this iterator has returned so far. */
    ghost var yielded: set<K>

    ghost predicate Valid()
      reads this
    {
      && shortest <= source.Keys
      && yielded == (source.Keys - shortest) * longest.Keys
    }

    /** `common_keys_iter(a, b)`. */
    constructor (a: map<K, V>, b: map<K, V>)
      ensures Valid()
      ensures source == Shortest(a, b) && longest == Longest(a, b)
      ensures shortest == source.Keys && yielded == {}
    {
      var s := if |a| > |b| then b else a;
      source, longest := s, if |a| > |b| then a else b;
      shortest := s.Keys;
      yielded := {};
    }

    /**
     * `Iterator::next`: skip keys of the smaller map the larger one lacks; return
     * the first common key with its two values, or `None` once the smaller map is
     * exhausted.
     */
    method Next() returns (r: Option<(K, (V, V))>)
      requires Valid()
      modifies this
      ensures Valid()
      ensures r.None? ==> shortest == {} && yielded == old(yielded)
      ensures r.Some? ==>
        && shortest < old(shortest)
        && r.value.0 in old(shortest) && r.value.0 in longest && r.value.0 !in old(yielded)
        && r.value.1 == (source[r.value.0], longest[r.value.0])
        && yielded == old(yielded) + {r.value.0}
    {
      if shortest == {} {
        return None;
      }
      var k :| k in shortest;
      shortest := shortest - {k};
      while k !in longest
        invariant shortest < old(shortest) && shortest <= source.Keys
        invariant k in old(shortest) && k !in shortest
        invariant forall j :: j in old(shortest) - shortest && j != k ==> j !in longest
        invariant yielded == old(yielded)
        decreases shortest
      {
        if shortest == {} {
          return None;
        }
        k :| k in shortest;
        shortest := shortest - {k};
      }
      yielded := yielded + {k};
      r := Some((k, (source[k], longest[k])));
    }
  }

  /** Once the smaller map is exhausted, the iterator has returned exactly the common keys. */
  lemma ExhaustedYieldsCoRated<K, V>(a: map<K, V>, b: map<K, V>, it: CommonKeyIterator<K, V>)
    requires it.Valid() && it.source == Shortest(a, b) && it.longest == Longest(a, b)
    requires it.shortest == {}
    ensures it.yielded == CoRated(a, b)
  {
  }
}
