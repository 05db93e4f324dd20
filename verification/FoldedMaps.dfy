/** Two-level maps whose keys are compared after folding, as namespaces and keys of defined tags are
    compared ignoring case. */
module FoldedMaps {
  import opened Wrappers
  import Sorting

  /** The folding of keys: to lower case. */
  type Fold<!K> = K -> K
  type Nested<K, V> = map<K, map<K, V>>

  ghost predicate Idempotent<K(!new)>(low: Fold<K>) {
    forall k: K :: low(low(k)) == low(k)
  }

  /** Keys that differ are still different when folded. */
  ghost predicate Unique<K(!new)>(low: Fold<K>, keys: set<K>) {
    forall a, b :: a in keys && b in keys && low(a) == low(b) ==> a == b
  }

  ghost predicate AllUnique<K(!new), V>(low: Fold<K>, m: Nested<K, V>) {
    Unique(low, m.Keys) && forall n :: n in m ==> Unique(low, m[n].Keys)
  }

  predicate NoEmpty<K, V(==)>(m: Nested<K, V>) {
    forall n :: n in m ==> m[n] != map[]
  }

  predicate Has<K, V>(m: Nested<K, V>, n: K, k: K) {
    n in m && k in m[n]
  }

  predicate Holds<K, V(==)>(m: Nested<K, V>, n: K, k: K, v: V) {
    Has(m, n, k) && m[n][k] == v
  }

  /** The value under a folded pair of keys. */
  ghost predicate At<K(!new), V(!new)>(low: Fold<K>, m: Nested<K, V>, a: K, b: K, v: V) {
    exists n, k :: Holds(m, n, k, v) && low(n) == a && low(k) == b
  }

  lemma AtIsFunctional<K(!new), V(!new)>(low: Fold<K>, m: Nested<K, V>, a: K, b: K, v: V, w: V)
    requires AllUnique(low, m) && At(low, m, a, b, v) && At(low, m, a, b, w)
    ensures v == w
  {
  }

  /** The value under a folded pair of keys, if there is one. */
  ghost function Lookup<K(!new), V(!new)>(low: Fold<K>, m: Nested<K, V>, a: K, b: K): Option<V> {
    if exists v :: At(low, m, a, b, v) then var v :| At(low, m, a, b, v); Some(v) else None
  }

  lemma LookupIs<K(!new), V(!new)>(low: Fold<K>, m: Nested<K, V>, a: K, b: K, v: V)
    requires AllUnique(low, m)
    ensures At(low, m, a, b, v) <==> Lookup(low, m, a, b) == Some(v)
  {
    if At(low, m, a, b, v) {
      AtIsFunctional(low, m, a, b, v, Lookup(low, m, a, b).value);
    }
  }

  /** A map whose keys are folded already. */
  ghost predicate IsFolded<K(!new), V>(low: Fold<K>, m: Nested<K, V>) {
    forall n, k :: Has(m, n, k) ==> low(n) == n && low(k) == k
  }

  lemma FoldedLookup<K(!new), V(!new)>(low: Fold<K>, m: Nested<K, V>, a: K, b: K)
    requires IsFolded(low, m)
    ensures Lookup(low, m, a, b) == if Has(m, a, b) then Some(m[a][b]) else None
  {
    if Has(m, a, b) {
      assert Holds(m, a, b, m[a][b]);
      assert At(low, m, a, b, m[a][b]);
    }
    forall v | At(low, m, a, b, v) ensures Holds(m, a, b, v) {
      var n, k :| Holds(m, n, k, v) && low(n) == a && low(k) == b;
    }
  }

  /** `r` is `m` with all keys folded. */
  ghost predicate Folded<K(!new), V(!new)>(low: Fold<K>, m: Nested<K, V>, r: Nested<K, V>) {
    r.Keys == (set n | n in m :: low(n)) && forall n :: n in m ==> FoldedKeys(low, m[n], r[low(n)])
  }

  ghost predicate FoldedKeys<K(!new), V(!new)>(low: Fold<K>, m: map<K, V>, r: map<K, V>) {
    r.Keys == (set k | k in m :: low(k)) && forall k :: k in m ==> r[low(k)] == m[k]
  }

  method FoldKeys<K(==, !new), V(!new)>(low: Fold<K>, m: map<K, V>) returns (r: map<K, V>)
    ensures Unique(low, m.Keys) ==> FoldedKeys(low, m, r)
  {
    r := map[];
    var keys := Sorting.List(m.Keys);
    for i := 0 to |keys|
      invariant Unique(low, m.Keys) ==> r.Keys == (set k | k in keys[..i] :: low(k))
      invariant Unique(low, m.Keys) ==> forall k :: k in keys[..i] ==> low(k) in r && r[low(k)] == m[k]
    {
      assert keys[..i + 1] == keys[..i] + [keys[i]];
      r := r[low(keys[i]) := m[keys[i]]];
    }
    assert keys[..|keys|] == keys;
  }

  /** Keys that collide when folded overwrite each other in an unspecified order. */
  method FoldNested<K(==, !new), V(!new)>(low: Fold<K>, m: Nested<K, V>) returns (r: Nested<K, V>)
    ensures AllUnique(low, m) ==> Folded(low, m, r)
  {
    r := map[];
    var names := Sorting.List(m.Keys);
    for i := 0 to |names|
      invariant AllUnique(low, m) ==> r.Keys == (set n | n in names[..i] :: low(n))
      invariant AllUnique(low, m) ==> forall n :: n in names[..i] ==> low(n) in r && FoldedKeys(low, m[n], r[low(n)])
    {
      assert names[..i + 1] == names[..i] + [names[i]];
      var keys := FoldKeys(low, m[names[i]]);
      r := r[low(names[i]) := keys];
    }
    assert names[..|names|] == names;
  }

  lemma FoldedFrom<K(!new), V(!new)>(low: Fold<K>, m: Nested<K, V>, r: Nested<K, V>, n: K, k: K) returns (a: K, b: K)
    requires Folded(low, m, r) && Has(r, n, k)
    ensures Has(m, a, b) && n == low(a) && k == low(b) && r[n][k] == m[a][b]
  {
    a :| a in m && n == low(a);
    b :| b in m[a] && k == low(b);
  }

  lemma FoldedTo<K(!new), V(!new)>(low: Fold<K>, m: Nested<K, V>, r: Nested<K, V>, a: K, b: K)
    requires Folded(low, m, r) && Has(m, a, b)
    ensures Has(r, low(a), low(b)) && r[low(a)][low(b)] == m[a][b]
  {
    assert FoldedKeys(low, m[a], r[low(a)]);
  }

  /** Folding does not change what is found under folded keys. */
  lemma FoldedAt<K(!new), V(!new)>(low: Fold<K>, m: Nested<K, V>, r: Nested<K, V>, a: K, b: K, v: V)
    requires Idempotent(low) && Folded(low, m, r)
    ensures At(low, m, a, b, v) <==> Holds(r, a, b, v)
    ensures At(low, r, a, b, v) <==> At(low, m, a, b, v)
  {
    if At(low, m, a, b, v) {
      var n, k :| Holds(m, n, k, v) && low(n) == a && low(k) == b;
      FoldedTo(low, m, r, n, k);
      assert low(a) == a && low(b) == b;
    }
    if Holds(r, a, b, v) {
      var n, k := FoldedFrom(low, m, r, a, b);
      assert Holds(m, n, k, v);
    }
    if At(low, r, a, b, v) {
      var n, k :| Holds(r, n, k, v) && low(n) == a && low(k) == b;
      var n', k' := FoldedFrom(low, m, r, n, k);
      assert Holds(m, n', k', v);
      assert low(n) == n && low(k) == k;
    }
  }

  lemma FoldedIsUnique<K(!new), V(!new)>(low: Fold<K>, m: Nested<K, V>, r: Nested<K, V>)
    requires Idempotent(low) && Folded(low, m, r)
    ensures AllUnique(low, r) && forall n, k :: Has(r, n, k) ==> low(n) == n && low(k) == k
  {
    forall n | n in r ensures low(n) == n && forall k :: k in r[n] ==> low(k) == k {
      var a :| a in m && n == low(a);
      assert FoldedKeys(low, m[a], r[n]);
      forall k | k in r[n] ensures low(k) == k {
        var b :| b in m[a] && k == low(b);
      }
    }
  }

  /** The same tags are found in both. */
  ghost predicate Same<K(!new), V(!new)>(low: Fold<K>, x: Nested<K, V>, y: Nested<K, V>) {
    forall a, b, v :: At(low, x, a, b, v) <==> At(low, y, a, b, v)
  }

  lemma FoldedSame<K(!new), V(!new)>(low: Fold<K>, m: Nested<K, V>, r: Nested<K, V>)
    requires Idempotent(low) && Folded(low, m, r)
    ensures Same(low, m, r)
  {
    forall a, b, v ensures At(low, m, a, b, v) <==> At(low, r, a, b, v) {
      FoldedAt(low, m, r, a, b, v);
    }
  }

  lemma FoldedEmpty<K(!new), V(!new)>(low: Fold<K>, m: Nested<K, V>, r: Nested<K, V>)
    requires Folded(low, m, r)
    ensures NoEmpty(r) <==> NoEmpty(m)
  {
    forall n | n in m ensures m[n] == map[] <==> r[low(n)] == map[] {
      assert FoldedKeys(low, m[n], r[low(n)]);
      if m[n] != map[] {
        var k :| k in m[n];
        assert low(k) in r[low(n)];
      }
      if r[low(n)] != map[] {
        var k :| k in r[low(n)];
      }
    }
    forall n | n in r ensures exists a :: a in m && n == low(a) {
      assert n in set a | a in m :: low(a);
    }
  }

  lemma SameContents<K(!new), V(!new)>(x: Nested<K, V>, y: Nested<K, V>)
    requires NoEmpty(x) && NoEmpty(y)
    requires forall n, k, v :: Holds(x, n, k, v) <==> Holds(y, n, k, v)
    ensures x == y
  {
    forall n, k ensures Has(x, n, k) ==> Has(y, n, k) && x[n][k] == y[n][k] {
      if Has(x, n, k) { assert Holds(x, n, k, x[n][k]); }
    }
    forall n, k ensures Has(y, n, k) ==> Has(x, n, k) {
      if Has(y, n, k) { assert Holds(y, n, k, y[n][k]); }
    }
    forall n ensures n in x <==> n in y {
      if n in x { var k :| k in x[n]; assert Has(x, n, k); }
      if n in y { var k :| k in y[n]; assert Has(y, n, k); }
    }
    forall n | n in x ensures x[n] == y[n] {
      forall k ensures k in x[n] <==> k in y[n] { assert Has(x, n, k) <==> Has(y, n, k); }
      forall k | k in x[n] ensures x[n][k] == y[n][k] { assert Has(x, n, k); }
    }
  }

  lemma SameFolded<K(!new), V(!new)>(low: Fold<K>, x: Nested<K, V>, fx: Nested<K, V>, y: Nested<K, V>, fy: Nested<K, V>)
    requires Idempotent(low) && Folded(low, x, fx) && Folded(low, y, fy)
    requires NoEmpty(x) && NoEmpty(y) && Same(low, x, y)
    ensures fx == fy
  {
    FoldedEmpty(low, x, fx);
    FoldedEmpty(low, y, fy);
    forall n, k, v ensures Holds(fx, n, k, v) <==> Holds(fy, n, k, v) {
      FoldedAt(low, x, fx, n, k, v);
      FoldedAt(low, y, fy, n, k, v);
      assert At(low, x, n, k, v) <==> At(low, y, n, k, v);
    }
    SameContents(fx, fy);
  }

  /** Equality of the folded maps: the comparison that decides whether an update is sent. */
  method FoldedEqual<K(==, !new), V(==, !new)>(low: Fold<K>, x: Nested<K, V>, y: Nested<K, V>) returns (equal: bool)
    ensures Idempotent(low) && AllUnique(low, x) && AllUnique(low, y) ==>
      (NoEmpty(x) && NoEmpty(y) && Same(low, x, y) ==> equal) && (equal ==> Same(low, x, y) && (NoEmpty(x) <==> NoEmpty(y)))
  {
    var fx := FoldNested(low, x);
    var fy := FoldNested(low, y);
    equal := fx == fy;
    if Idempotent(low) && AllUnique(low, x) && AllUnique(low, y) {
      FoldedSame(low, x, fx);
      FoldedSame(low, y, fy);
      FoldedEmpty(low, x, fx);
      FoldedEmpty(low, y, fy);
      if NoEmpty(x) && NoEmpty(y) && Same(low, x, y) {
        SameFolded(low, x, fx, y, fy);
      }
    }
  }

  // ---- Building such maps ------------------------------------------------------------------

  function Inserted<K, V>(m: Nested<K, V>, n: K, k: K, v: V): Nested<K, V> {
    m[n := (if n in m then m[n] else map[])[k := v]]
  }

  lemma InsertedHolds<K(!new), V(!new)>(m: Nested<K, V>, n: K, k: K, v: V)
    ensures forall a, b, w :: Holds(Inserted(m, n, k, v), a, b, w) <==> if a == n && b == k then w == v else Holds(m, a, b, w)
    ensures NoEmpty(m) ==> NoEmpty(Inserted(m, n, k, v))
  {
    assert k in Inserted(m, n, k, v)[n];
  }

  function Pairs<K, V>(m: Nested<K, V>): set<(K, K)> {
    set n, k | n in m && k in m[n] :: (n, k)
  }

  /** The entries that are wanted, inserted one by one. */
  method Filtered<K(==, !new), V(==, !new)>(m: Nested<K, V>, wanted: (K, K) -> bool) returns (r: Nested<K, V>)
    ensures forall n, k, v :: Holds(r, n, k, v) <==> Holds(m, n, k, v) && wanted(n, k)
    ensures NoEmpty(r)
  {
    r := map[];
    var pairs := Sorting.List(Pairs(m));
    for i := 0 to |pairs|
      invariant forall n, k, v :: Holds(r, n, k, v) <==> Holds(m, n, k, v) && wanted(n, k) && (n, k) in pairs[..i]
      invariant NoEmpty(r)
    {
      assert pairs[..i + 1] == pairs[..i] + [pairs[i]];
      assert pairs[i] in Pairs(m);
      var (n, k) := pairs[i];
      if wanted(n, k) {
        InsertedHolds(r, n, k, m[n][k]);
        r := Inserted(r, n, k, m[n][k]);
      }
    }
    assert pairs[..|pairs|] == pairs;
    forall n, k, v ensures Holds(m, n, k, v) ==> (n, k) in pairs {}
  }

  /** The entries of `added` over those of `base`; an entry that is to be kept keeps its value in
      `current`. */
  method Overlaid<K(==, !new), V(==, !new)>(base: Nested<K, V>, added: Nested<K, V>, current: Nested<K, V>, sticky: V -> bool)
    returns (r: Nested<K, V>)
    ensures forall n, k, v :: Holds(r, n, k, v) <==>
      if Has(added, n, k) then v == Chosen(added, current, sticky, n, k) else Holds(base, n, k, v)
    ensures NoEmpty(base) ==> NoEmpty(r)
  {
    r := base;
    var pairs := Sorting.List(Pairs(added));
    for i := 0 to |pairs|
      invariant forall n, k, v :: Holds(r, n, k, v) <==>
        if (n, k) in pairs[..i] && Has(added, n, k) then v == Chosen(added, current, sticky, n, k) else Holds(base, n, k, v)
      invariant NoEmpty(base) ==> NoEmpty(r)
    {
      assert pairs[..i + 1] == pairs[..i] + [pairs[i]];
      assert pairs[i] in Pairs(added);
      var (n, k) := pairs[i];
      InsertedHolds(r, n, k, Chosen(added, current, sticky, n, k));
      if sticky(added[n][k]) && Has(current, n, k) {
        r := Inserted(r, n, k, current[n][k]);
      } else {
        r := Inserted(r, n, k, added[n][k]);
      }
    }
    assert pairs[..|pairs|] == pairs;
    forall n, k ensures Has(added, n, k) ==> (n, k) in pairs {}
  }

  function Chosen<K, V>(added: Nested<K, V>, current: Nested<K, V>, sticky: V -> bool, n: K, k: K): V
    requires Has(added, n, k)
  {
    if sticky(added[n][k]) && Has(current, n, k) then current[n][k] else added[n][k]
  }
}
