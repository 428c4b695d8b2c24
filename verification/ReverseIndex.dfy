/**
 Reverse indexes: for each resource, the set of owners that declare it. An index is
 right when a linear scan of the owners' declarations gives the same answer for every
 resource, and when no resource keeps an empty set.
 */
module ReverseIndex {
  /** `index` lists, for every resource, exactly the owners whose declaration names it. */
  ghost predicate IsReverse<K(!new), V(!new)>(index: map<K, set<V>>, declared: map<V, set<K>>) {
    && (forall k | k in index :: index[k] != {})
    && (forall k, v :: k in index && v in index[k] <==> v in declared && k in declared[v])
  }

  function Owners<K, V>(index: map<K, set<V>>, k: K): set<V> {
    if k in index then index[k] else {}
  }

  function WithOwner<K, V>(index: map<K, set<V>>, keys: set<K>, v: V): map<K, set<V>> {
    map k | k in index.Keys + keys :: if k in keys then Owners(index, k) + {v} else index[k]
  }

  function WithoutOwner<K, V>(index: map<K, set<V>>, keys: set<K>, v: V): map<K, set<V>> {
    map k | k in index.Keys && (k in keys ==> index[k] - {v} != {}) ::
      if k in keys then index[k] - {v} else index[k]
  }

  lemma OwnersAreDeclarers<K(!new), V(!new)>(index: map<K, set<V>>, declared: map<V, set<K>>, k: K)
    requires IsReverse(index, declared)
    ensures forall v :: v in Owners(index, k) <==> v in declared && k in declared[v]
  {
  }

  lemma InsertKeepsReverse<K(!new), V(!new)>(index: map<K, set<V>>, declared: map<V, set<K>>, v: V, keys: set<K>)
    requires IsReverse(index, declared) && v !in declared
    ensures IsReverse(WithOwner(index, keys, v), declared[v := keys])
  {
  }

  lemma RemoveKeepsReverse<K(!new), V(!new)>(index: map<K, set<V>>, declared: map<V, set<K>>, v: V)
    requires IsReverse(index, declared) && v in declared
    ensures IsReverse(WithoutOwner(index, declared[v], v), declared - {v})
  {
  }

  lemma ReplaceKeepsReverse<K(!new), V(!new)>(index: map<K, set<V>>, declared: map<V, set<K>>, v: V, keys: set<K>)
    requires IsReverse(index, declared) && v in declared
    ensures IsReverse(WithOwner(WithoutOwner(index, declared[v], v), keys, v), declared[v := keys])
  {
    RemoveKeepsReverse(index, declared, v);
    InsertKeepsReverse(WithoutOwner(index, declared[v], v), declared - {v}, v, keys);
    assert (declared - {v})[v := keys] == declared[v := keys];
  }

  /** A right index is determined by the declarations. */
  lemma ReverseIsUnique<K(!new), V(!new)>(a: map<K, set<V>>, b: map<K, set<V>>, declared: map<V, set<K>>)
    requires IsReverse(a, declared) && IsReverse(b, declared)
    ensures a == b
  {
    forall k ensures Owners(a, k) == Owners(b, k) {
      OwnersAreDeclarers(a, declared, k);
      OwnersAreDeclarers(b, declared, k);
      assert forall v :: v in Owners(a, k) <==> v in declared && k in declared[v];
    }
    assert forall k :: k in a <==> Owners(a, k) != {};
    assert forall k :: k in b <==> Owners(b, k) != {};
  }

  /** insert_owner for each key in turn. */
  method InsertOwner<K(==), V(==)>(index: map<K, set<V>>, keys: set<K>, v: V) returns (r: map<K, set<V>>)
    ensures r == WithOwner(index, keys, v)
  {
    r := index;
    var rest := keys;
    while rest != {}
      invariant rest <= keys
      invariant r == WithOwner(index, keys - rest, v)
    {
      var k :| k in rest;
      r := r[k := Owners(r, k) + {v}];
      rest := rest - {k};
    }
    assert keys - {} == keys;
  }

  /** remove_owner for each key in turn, dropping a key with its last owner. */
  method RemoveOwner<K(==), V(==)>(index: map<K, set<V>>, keys: set<K>, v: V) returns (r: map<K, set<V>>)
    ensures r == WithoutOwner(index, keys, v)
  {
    r := index;
    var rest := keys;
    while rest != {}
      invariant rest <= keys
      invariant r == WithoutOwner(index, keys - rest, v)
    {
      var k :| k in rest;
      if k in r {
        var owners := r[k] - {v};
        r := if owners == {} then r - {k} else r[k := owners];
      }
      rest := rest - {k};
    }
    assert keys - {} == keys;
  }
}
