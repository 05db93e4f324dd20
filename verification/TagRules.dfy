/** How a load balancer's tags follow from the supplied ones and the recorded defaults, for any way of
    folding keys and any notion of values that the server resolves itself. */
module TagRules {
  import opened Wrappers
  import opened FoldedMaps

  ghost predicate Good<K(!new), V>(low: Fold<K>, m: Nested<K, V>) {
    AllUnique(low, m) && NoEmpty(m)
  }

  /** A supplied tag has its supplied value, unless that is for the server to resolve and the tag is
      there already; any other tag stays exactly if it is there and recorded as a default. */
  ghost function NewTag<K(!new), V(!new)>(low: Fold<K>, sticky: V -> bool, actual: Nested<K, V>, supplied: Nested<K, V>,
                                          recorded: Nested<K, V>, a: K, b: K): Option<V> {
    match Lookup(low, supplied, a, b)
    case Some(w) => if sticky(w) && Lookup(low, actual, a, b).Some? then Lookup(low, actual, a, b) else Some(w)
    case None => if Lookup(low, recorded, a, b).Some? then Lookup(low, actual, a, b) else None
  }

  ghost function NewDefault<K(!new), V(!new)>(low: Fold<K>, actual: Nested<K, V>, supplied: Nested<K, V>,
                                              recorded: Nested<K, V>, a: K, b: K): Option<V> {
    if Lookup(low, supplied, a, b).None? && Lookup(low, recorded, a, b).Some? then Lookup(low, actual, a, b) else None
  }

  function OrEmpty<K, V>(m: Option<Nested<K, V>>): Nested<K, V> {
    match m case None => map[] case Some(t) => t
  }

  /** An absent annotation of either kind reads as empty; without both, everything on the load
      balancer becomes a default. */
  ghost predicate Computed<K(!new), V(!new)>(low: Fold<K>, sticky: V -> bool, actual: Nested<K, V>, supplied: Option<Nested<K, V>>,
                                             recorded: Option<Nested<K, V>>, tags: Nested<K, V>, defaults: Nested<K, V>) {
    if supplied.None? && recorded.None? then tags == actual && defaults == actual
    else ComputedFrom(low, sticky, actual, OrEmpty(supplied), OrEmpty(recorded), tags, defaults)
  }

  ghost predicate ComputedFrom<K(!new), V(!new)>(low: Fold<K>, sticky: V -> bool, actual: Nested<K, V>, supplied: Nested<K, V>,
                                                 recorded: Nested<K, V>, tags: Nested<K, V>, defaults: Nested<K, V>) {
    Good(low, tags) && Good(low, defaults)
    && (forall a, b :: Lookup(low, tags, a, b) == NewTag(low, sticky, actual, supplied, recorded, a, b))
    && forall a, b :: Lookup(low, defaults, a, b) == NewDefault(low, actual, supplied, recorded, a, b)
  }

  // ---- The computation ---------------------------------------------------------------------

  lemma FoldedTag<K(!new), V(!new)>(low: Fold<K>, m: Nested<K, V>, folded: Nested<K, V>, n: K, k: K)
    requires Idempotent(low) && AllUnique(low, m) && Folded(low, m, folded)
    ensures Lookup(low, m, n, k) == if Has(folded, n, k) then Some(folded[n][k]) else None
  {
    FoldedIsUnique(low, m, folded);
    FoldedLookup(low, folded, n, k);
    FoldedSame(low, m, folded);
    SameLookup(low, m, folded, n, k);
  }

  lemma SameLookup<K(!new), V(!new)>(low: Fold<K>, x: Nested<K, V>, y: Nested<K, V>, a: K, b: K)
    requires AllUnique(low, x) && AllUnique(low, y) && Same(low, x, y)
    ensures Lookup(low, x, a, b) == Lookup(low, y, a, b)
  {
    if Lookup(low, x, a, b).Some? {
      LookupIs(low, x, a, b, Lookup(low, x, a, b).value);
      LookupIs(low, y, a, b, Lookup(low, x, a, b).value);
    }
    if Lookup(low, y, a, b).Some? {
      LookupIs(low, x, a, b, Lookup(low, y, a, b).value);
      LookupIs(low, y, a, b, Lookup(low, y, a, b).value);
    }
  }

  /** Two maps hold the same tags exactly when every lookup gives the same. */
  lemma SameIff<K(!new), V(!new)>(low: Fold<K>, x: Nested<K, V>, y: Nested<K, V>)
    requires AllUnique(low, x) && AllUnique(low, y)
    ensures Same(low, x, y) <==> forall a, b :: Lookup(low, x, a, b) == Lookup(low, y, a, b)
  {
    if Same(low, x, y) {
      forall a, b ensures Lookup(low, x, a, b) == Lookup(low, y, a, b) {
        SameLookup(low, x, y, a, b);
      }
    }
    if forall a, b :: Lookup(low, x, a, b) == Lookup(low, y, a, b) {
      forall a, b, v ensures At(low, x, a, b, v) <==> At(low, y, a, b, v) {
        LookupIs(low, x, a, b, v);
        LookupIs(low, y, a, b, v);
        assert Lookup(low, x, a, b) == Lookup(low, y, a, b);
      }
    }
  }

  /** The entries of `actual` that are kept: recorded as defaults, and not supplied. */
  ghost predicate Kept<K(!new), V(!new)>(low: Fold<K>, actual: Nested<K, V>, supplied: Nested<K, V>, recorded: Nested<K, V>, kept: Nested<K, V>) {
    forall n, k, v :: Holds(kept, n, k, v) <==>
      Holds(actual, n, k, v) && Lookup(low, supplied, low(n), low(k)).None? && Lookup(low, recorded, low(n), low(k)).Some?
  }

  lemma KeptAt<K(!new), V(!new)>(low: Fold<K>, actual: Nested<K, V>, supplied: Nested<K, V>, recorded: Nested<K, V>,
                                 kept: Nested<K, V>, a: K, b: K, v: V)
    requires Kept(low, actual, supplied, recorded, kept)
    ensures At(low, kept, a, b, v) <==>
      At(low, actual, a, b, v) && Lookup(low, supplied, a, b).None? && Lookup(low, recorded, a, b).Some?
  {
    if At(low, kept, a, b, v) {
      var n, k :| Holds(kept, n, k, v) && low(n) == a && low(k) == b;
      assert Holds(actual, n, k, v);
    }
    if At(low, actual, a, b, v) && Lookup(low, supplied, a, b).None? && Lookup(low, recorded, a, b).Some? {
      var n, k :| Holds(actual, n, k, v) && low(n) == a && low(k) == b;
      assert Holds(kept, n, k, v);
    }
  }

  lemma KeptTags<K(!new), V(!new)>(low: Fold<K>, actual: Nested<K, V>, supplied: Nested<K, V>, recorded: Nested<K, V>, kept: Nested<K, V>)
    requires AllUnique(low, actual) && NoEmpty(kept) && Kept(low, actual, supplied, recorded, kept)
    ensures Good(low, kept)
    ensures forall a, b :: Lookup(low, kept, a, b) == NewDefault(low, actual, supplied, recorded, a, b)
  {
    PartIsUnique(low, actual, kept);
    forall a, b ensures Lookup(low, kept, a, b) == NewDefault(low, actual, supplied, recorded, a, b) {
      if v :| At(low, kept, a, b, v) {
        KeptAt(low, actual, supplied, recorded, kept, a, b, v);
        LookupIs(low, kept, a, b, v);
        LookupIs(low, actual, a, b, v);
      } else if v :| At(low, actual, a, b, v) {
        KeptAt(low, actual, supplied, recorded, kept, a, b, v);
        LookupIs(low, actual, a, b, v);
      }
    }
  }

  lemma PartIsUnique<K(!new), V(!new)>(low: Fold<K>, whole: Nested<K, V>, part: Nested<K, V>)
    requires AllUnique(low, whole) && NoEmpty(part)
    requires forall n, k, v :: Holds(part, n, k, v) ==> Holds(whole, n, k, v)
    ensures AllUnique(low, part)
  {
    forall n | n in part ensures n in whole && part[n].Keys <= whole[n].Keys {
      var k :| k in part[n];
      assert Holds(part, n, k, part[n][k]);
      forall j | j in part[n] ensures j in whole[n] {
        assert Holds(part, n, j, part[n][j]);
      }
    }
  }

  lemma FoldedUnique<K(!new), V(!new)>(low: Fold<K>, m: Nested<K, V>)
    requires IsFolded(low, m) && NoEmpty(m)
    ensures AllUnique(low, m)
  {
    forall n | n in m ensures low(n) == n {
      var k :| k in m[n];
      assert Has(m, n, k);
    }
    forall n | n in m ensures Unique(low, m[n].Keys) {
      forall k | k in m[n] ensures low(k) == k {
        assert Has(m, n, k);
      }
    }
  }

  /** What Overlaid gives. */
  ghost predicate Overlay<K(!new), V(!new)>(base: Nested<K, V>, added: Nested<K, V>, current: Nested<K, V>, sticky: V -> bool, r: Nested<K, V>) {
    forall n, k, v :: Holds(r, n, k, v) <==>
      if Has(added, n, k) then v == Chosen(added, current, sticky, n, k) else Holds(base, n, k, v)
  }

  lemma OverlayIsFolded<K(!new), V(!new)>(low: Fold<K>, sticky: V -> bool, base: Nested<K, V>, added: Nested<K, V>,
                                          current: Nested<K, V>, r: Nested<K, V>)
    requires IsFolded(low, base) && IsFolded(low, added) && Overlay(base, added, current, sticky, r)
    ensures IsFolded(low, r)
  {
    forall n, k | Has(r, n, k) ensures low(n) == n && low(k) == k {
      assert Holds(r, n, k, r[n][k]);
      assert Has(added, n, k) || Has(base, n, k);
    }
  }

  lemma OverlayLookup<K(!new), V(!new)>(low: Fold<K>, sticky: V -> bool, base: Nested<K, V>, added: Nested<K, V>,
                                        current: Nested<K, V>, r: Nested<K, V>, a: K, b: K)
    requires IsFolded(low, r) && Overlay(base, added, current, sticky, r)
    ensures Lookup(low, r, a, b) ==
      if Has(added, a, b) then Some(Chosen(added, current, sticky, a, b)) else if Has(base, a, b) then Some(base[a][b]) else None
  {
    FoldedLookup(low, r, a, b);
    if Has(r, a, b) {
      assert Holds(r, a, b, r[a][b]);
    }
    if Has(added, a, b) {
      assert Holds(r, a, b, Chosen(added, current, sticky, a, b));
    } else if Has(base, a, b) {
      assert Holds(base, a, b, base[a][b]) && Holds(r, a, b, base[a][b]);
    }
  }

  /** From the folded maps to what is found under a tag's name. */
  lemma OverlaidTags<K(!new), V(!new)>(low: Fold<K>, sticky: V -> bool, actual: Nested<K, V>, lcActual: Nested<K, V>,
                                       supplied: Nested<K, V>, lcSupplied: Nested<K, V>, recorded: Nested<K, V>,
                                       kept: Nested<K, V>, lcKept: Nested<K, V>, tags: Nested<K, V>)
    requires Idempotent(low) && AllUnique(low, actual) && AllUnique(low, supplied) && AllUnique(low, kept)
    requires Folded(low, actual, lcActual) && Folded(low, supplied, lcSupplied) && Folded(low, kept, lcKept)
    requires forall a, b :: Lookup(low, kept, a, b) == NewDefault(low, actual, supplied, recorded, a, b)
    requires Overlay(lcKept, lcSupplied, lcActual, sticky, tags) && NoEmpty(tags)
    ensures Good(low, tags)
    ensures forall a, b :: Lookup(low, tags, a, b) == NewTag(low, sticky, actual, supplied, recorded, a, b)
  {
    FoldedIsUnique(low, supplied, lcSupplied);
    FoldedIsUnique(low, kept, lcKept);
    OverlayIsFolded(low, sticky, lcKept, lcSupplied, lcActual, tags);
    FoldedUnique(low, tags);
    forall a, b ensures Lookup(low, tags, a, b) == NewTag(low, sticky, actual, supplied, recorded, a, b) {
      OverlayLookup(low, sticky, lcKept, lcSupplied, lcActual, tags, a, b);
      FoldedTag(low, actual, lcActual, a, b);
      FoldedTag(low, supplied, lcSupplied, a, b);
      FoldedTag(low, kept, lcKept, a, b);
    }
  }

  ghost predicate GoodInputs<K(!new), V(!new)>(low: Fold<K>, actual: Nested<K, V>, supplied: Option<Nested<K, V>>, recorded: Option<Nested<K, V>>) {
    Idempotent(low) && AllUnique(low, actual) && AllUnique(low, OrEmpty(supplied)) && AllUnique(low, OrEmpty(recorded))
  }

  predicate Contained<K, V>(low: Fold<K>, folded: Nested<K, V>, n: K, k: K) {
    Has(folded, low(n), low(k))
  }

  lemma KeptByFilter<K(!new), V(!new)>(low: Fold<K>, actual: Nested<K, V>, supplied: Nested<K, V>, lcSupplied: Nested<K, V>,
                                       recorded: Nested<K, V>, lcRecorded: Nested<K, V>, kept: Nested<K, V>)
    requires Idempotent(low) && AllUnique(low, supplied) && AllUnique(low, recorded)
    requires Folded(low, supplied, lcSupplied) && Folded(low, recorded, lcRecorded)
    requires forall n, k, v :: Holds(kept, n, k, v) <==>
      Holds(actual, n, k, v) && !Contained(low, lcSupplied, n, k) && Contained(low, lcRecorded, n, k)
    ensures Kept(low, actual, supplied, recorded, kept)
  {
    forall n, k
      ensures Contained(low, lcSupplied, n, k) <==> Lookup(low, supplied, low(n), low(k)).Some?
      ensures Contained(low, lcRecorded, n, k) <==> Lookup(low, recorded, low(n), low(k)).Some?
    {
      FoldedTag(low, supplied, lcSupplied, low(n), low(k));
      FoldedTag(low, recorded, lcRecorded, low(n), low(k));
    }
  }

  method GetUpdatedDefinedAndImplicitDefaultTags<K(==, !new), V(==, !new)>(
    low: Fold<K>, sticky: V -> bool, actual: Nested<K, V>, supplied: Option<Nested<K, V>>, recorded: Option<Nested<K, V>>)
    returns (tags: Nested<K, V>, defaults: Nested<K, V>)
    ensures GoodInputs(low, actual, supplied, recorded) ==> Computed(low, sticky, actual, supplied, recorded, tags, defaults)
  {
    if supplied.None? && recorded.None? {
      return actual, actual;
    }
    var lcSupplied := FoldNested(low, OrEmpty(supplied));
    var lcRecorded := FoldNested(low, OrEmpty(recorded));
    defaults := Filtered(actual, (n, k) => !Contained(low, lcSupplied, n, k) && Contained(low, lcRecorded, n, k));
    var lcActual := FoldNested(low, actual);
    var lcKept := FoldNested(low, defaults);
    tags := Overlaid(lcKept, lcSupplied, lcActual, sticky);
    if GoodInputs(low, actual, supplied, recorded) {
      KeptByFilter(low, actual, OrEmpty(supplied), lcSupplied, OrEmpty(recorded), lcRecorded, defaults);
      KeptTags(low, actual, OrEmpty(supplied), OrEmpty(recorded), defaults);
      FoldedEmpty(low, defaults, lcKept);
      OverlaidTags(low, sticky, actual, lcActual, OrEmpty(supplied), lcSupplied, OrEmpty(recorded), defaults, lcKept, tags);
    }
  }

  // ---- Conservation and fixpoint -----------------------------------------------------------

  /** With an annotation present, the new tags are exactly the supplied ones and those of the load
      balancer that are recorded as defaults; the new defaults are the latter without the former. */
  lemma TagsAreConserved<K(!new), V(!new)>(low: Fold<K>, sticky: V -> bool, actual: Nested<K, V>, supplied: Nested<K, V>,
                                           recorded: Nested<K, V>, tags: Nested<K, V>, defaults: Nested<K, V>, a: K, b: K)
    requires ComputedFrom(low, sticky, actual, supplied, recorded, tags, defaults)
    ensures Lookup(low, tags, a, b).Some? <==>
      Lookup(low, supplied, a, b).Some? || (Lookup(low, actual, a, b).Some? && Lookup(low, recorded, a, b).Some?)
    ensures Lookup(low, defaults, a, b).Some? ==>
      Lookup(low, defaults, a, b) == Lookup(low, actual, a, b) == Lookup(low, tags, a, b) && Lookup(low, supplied, a, b).None?
    ensures Lookup(low, tags, a, b).Some? <==> Lookup(low, supplied, a, b).Some? || Lookup(low, defaults, a, b).Some?
  {
    assert Lookup(low, tags, a, b) == NewTag(low, sticky, actual, supplied, recorded, a, b);
    assert Lookup(low, defaults, a, b) == NewDefault(low, actual, supplied, recorded, a, b);
  }

  /** The server stores what it is sent, except that it resolves some values in its own way. */
  ghost predicate Stores<K(!new), V(!new)>(low: Fold<K>, sticky: V -> bool, sent: Nested<K, V>, stored: Nested<K, V>) {
    Good(low, stored) && forall a, b :: StoresTag(sticky, Lookup(low, sent, a, b), Lookup(low, stored, a, b))
  }

  predicate StoresTag<V(==)>(sticky: V -> bool, sent: Option<V>, stored: Option<V>) {
    (sent.None? <==> stored.None?) && (sent.Some? && !sticky(sent.value) ==> stored == sent)
  }

  /** The defaults that were recorded are still there with the values they had. */
  ghost predicate DefaultsSurvive<K(!new), V(!new)>(low: Fold<K>, defaults: Nested<K, V>, stored: Nested<K, V>) {
    forall a, b :: Lookup(low, defaults, a, b).Some? ==> Lookup(low, stored, a, b) == Lookup(low, defaults, a, b)
  }

  /** After one application of the computed tags and annotation, the next computation asks for no
      change of the load balancer, however the server resolved variables; and for none of the
      annotation exactly when the values of the defaults survived. */
  lemma TagFixpoint<K(!new), V(!new)>(low: Fold<K>, sticky: V -> bool, actual: Nested<K, V>, supplied: Nested<K, V>, recorded: Nested<K, V>,
                                      tags: Nested<K, V>, defaults: Nested<K, V>, stored: Nested<K, V>,
                                      noted: Nested<K, V>, tags2: Nested<K, V>, defaults2: Nested<K, V>)
    requires ComputedFrom(low, sticky, actual, supplied, recorded, tags, defaults)
    requires Stores(low, sticky, tags, stored) && AllUnique(low, noted) && Same(low, noted, defaults)
    requires ComputedFrom(low, sticky, stored, supplied, noted, tags2, defaults2)
    ensures Same(low, stored, tags2)
    ensures Same(low, noted, defaults2) <==> DefaultsSurvive(low, defaults, stored)
  {
    forall a, b
      ensures Lookup(low, stored, a, b) == Lookup(low, tags2, a, b)
      ensures Lookup(low, noted, a, b) == Lookup(low, defaults, a, b)
      ensures Lookup(low, defaults2, a, b) == if Lookup(low, defaults, a, b).Some? then Lookup(low, stored, a, b) else None
    {
      TagsAreConserved(low, sticky, actual, supplied, recorded, tags, defaults, a, b);
      SameLookup(low, noted, defaults, a, b);
      assert StoresTag(sticky, Lookup(low, tags, a, b), Lookup(low, stored, a, b));
      assert Lookup(low, tags, a, b) == NewTag(low, sticky, actual, supplied, recorded, a, b);
      assert Lookup(low, tags2, a, b) == NewTag(low, sticky, stored, supplied, noted, a, b);
      assert Lookup(low, defaults2, a, b) == NewDefault(low, stored, supplied, noted, a, b);
    }
    SameIff(low, stored, tags2);
    SameIff(low, noted, defaults2);
    forall a, b ensures Lookup(low, defaults, a, b).Some? ==>
      (Lookup(low, stored, a, b) == Lookup(low, defaults, a, b) <==> Lookup(low, noted, a, b) == Lookup(low, defaults2, a, b))
    {
      assert Lookup(low, noted, a, b) == Lookup(low, defaults, a, b);
      assert Lookup(low, defaults2, a, b) == if Lookup(low, defaults, a, b).Some? then Lookup(low, stored, a, b) else None;
    }
  }

  /** No default that is kept has a value for the server to resolve. */
  ghost predicate PlainDefaults<K(!new), V(!new)>(low: Fold<K>, sticky: V -> bool, actual: Nested<K, V>, supplied: Nested<K, V>, recorded: Nested<K, V>) {
    forall a, b :: Lookup(low, actual, a, b).Some? && Lookup(low, recorded, a, b).Some? && Lookup(low, supplied, a, b).None? ==>
      !sticky(Lookup(low, actual, a, b).value)
  }

  /** Another value under one key. */
  lemma ChangedLookup<K(!new), V(!new)>(low: Fold<K>, m: Nested<K, V>, n: K, k: K, w: V)
    requires Good(low, m) && Has(m, n, k)
    ensures var m' := m[n := m[n][k := w]];
      Good(low, m')
      && forall a, b :: Lookup(low, m', a, b) == if a == low(n) && b == low(k) then Some(w) else Lookup(low, m, a, b)
  {
    var m' := m[n := m[n][k := w]];
    assert m'.Keys == m.Keys && forall x :: x in m ==> m'[x].Keys == m[x].Keys;
    forall a, b ensures Lookup(low, m', a, b) == if a == low(n) && b == low(k) then Some(w) else Lookup(low, m, a, b) {
      if a == low(n) && b == low(k) {
        assert Holds(m', n, k, w);
        LookupIs(low, m', a, b, w);
      } else {
        forall v ensures At(low, m', a, b, v) <==> At(low, m, a, b, v) {
          OtherEntry(low, m, n, k, w, a, b, v);
        }
        if v :| At(low, m, a, b, v) {
          LookupIs(low, m, a, b, v);
          LookupIs(low, m', a, b, v);
        }
      }
    }
  }

  lemma OtherEntry<K(!new), V(!new)>(low: Fold<K>, m: Nested<K, V>, n: K, k: K, w: V, a: K, b: K, v: V)
    requires Good(low, m) && Has(m, n, k) && !(a == low(n) && b == low(k))
    ensures At(low, m[n := m[n][k := w]], a, b, v) <==> At(low, m, a, b, v)
  {
    var m' := m[n := m[n][k := w]];
    if At(low, m', a, b, v) {
      var x, y :| Holds(m', x, y, v) && low(x) == a && low(y) == b;
      assert Holds(m, x, y, v);
    }
    if At(low, m, a, b, v) {
      var x, y :| Holds(m, x, y, v) && low(x) == a && low(y) == b;
      assert Holds(m', x, y, v);
    }
  }

  /** The defaults survive whatever the server makes of the tags exactly when none of the kept defaults
      has a value for the server to resolve. */
  lemma DefaultsSurviveIff<K(!new), V(!new)>(low: Fold<K>, sticky: V -> bool, other: V -> V, actual: Nested<K, V>, supplied: Nested<K, V>,
                                             recorded: Nested<K, V>, tags: Nested<K, V>, defaults: Nested<K, V>)
    requires ComputedFrom(low, sticky, actual, supplied, recorded, tags, defaults)
    requires forall v :: other(v) != v
    ensures (forall stored :: Stores(low, sticky, tags, stored) ==> DefaultsSurvive(low, defaults, stored))
      <==> PlainDefaults(low, sticky, actual, supplied, recorded)
  {
    if PlainDefaults(low, sticky, actual, supplied, recorded) {
      forall stored | Stores(low, sticky, tags, stored) ensures DefaultsSurvive(low, defaults, stored) {
        PlainDefaultsSurvive(low, sticky, actual, supplied, recorded, tags, defaults, stored);
      }
    } else {
      var a, b :| Lookup(low, actual, a, b).Some? && Lookup(low, recorded, a, b).Some? && Lookup(low, supplied, a, b).None?
        && sticky(Lookup(low, actual, a, b).value);
      var stored := StickyDefaultCanChange(low, sticky, other, actual, supplied, recorded, tags, defaults, a, b);
    }
  }

  lemma PlainDefaultsSurvive<K(!new), V(!new)>(low: Fold<K>, sticky: V -> bool, actual: Nested<K, V>, supplied: Nested<K, V>,
                                               recorded: Nested<K, V>, tags: Nested<K, V>, defaults: Nested<K, V>, stored: Nested<K, V>)
    requires ComputedFrom(low, sticky, actual, supplied, recorded, tags, defaults) && Stores(low, sticky, tags, stored)
    requires PlainDefaults(low, sticky, actual, supplied, recorded)
    ensures DefaultsSurvive(low, defaults, stored)
  {
    forall a, b | Lookup(low, defaults, a, b).Some? ensures Lookup(low, stored, a, b) == Lookup(low, defaults, a, b) {
      assert Lookup(low, defaults, a, b) == NewDefault(low, actual, supplied, recorded, a, b);
      assert Lookup(low, tags, a, b) == NewTag(low, sticky, actual, supplied, recorded, a, b);
      assert StoresTag(sticky, Lookup(low, tags, a, b), Lookup(low, stored, a, b));
    }
  }

  lemma StickyDefaultCanChange<K(!new), V(!new)>(low: Fold<K>, sticky: V -> bool, other: V -> V, actual: Nested<K, V>, supplied: Nested<K, V>,
                                                 recorded: Nested<K, V>, tags: Nested<K, V>, defaults: Nested<K, V>, a: K, b: K)
    returns (stored: Nested<K, V>)
    requires ComputedFrom(low, sticky, actual, supplied, recorded, tags, defaults)
    requires Lookup(low, actual, a, b).Some? && Lookup(low, recorded, a, b).Some? && Lookup(low, supplied, a, b).None?
    requires sticky(Lookup(low, actual, a, b).value) && other(Lookup(low, actual, a, b).value) != Lookup(low, actual, a, b).value
    ensures Stores(low, sticky, tags, stored) && !DefaultsSurvive(low, defaults, stored)
  {
    var v := Lookup(low, actual, a, b).value;
    assert Lookup(low, defaults, a, b) == NewDefault(low, actual, supplied, recorded, a, b);
    assert Lookup(low, tags, a, b) == NewTag(low, sticky, actual, supplied, recorded, a, b);
    LookupIs(low, tags, a, b, v);
    var n, k :| Holds(tags, n, k, v) && low(n) == a && low(k) == b;
    stored := tags[n := tags[n][k := other(v)]];
    ChangedLookup(low, tags, n, k, other(v));
    forall x, y ensures StoresTag(sticky, Lookup(low, tags, x, y), Lookup(low, stored, x, y)) {}
    assert Lookup(low, stored, a, b) == Some(other(v));
  }

  ghost predicate Keeps<K(!new), V(!new)>(low: Fold<K>, supplied: Nested<K, V>, recorded: Nested<K, V>, n: K, k: K) {
    Lookup(low, supplied, low(n), low(k)).None? && Lookup(low, recorded, low(n), low(k)).Some?
  }

  lemma KeptExists<K(!new), V(!new)>(low: Fold<K>, actual: Nested<K, V>, supplied: Nested<K, V>, recorded: Nested<K, V>)
    returns (kept: Nested<K, V>)
    ensures NoEmpty(kept) && Kept(low, actual, supplied, recorded, kept)
  {
    kept := map n | n in actual && exists k :: k in actual[n] && Keeps(low, supplied, recorded, n, k) ::
      map k | k in actual[n] && Keeps(low, supplied, recorded, n, k) :: actual[n][k];
    forall n | n in kept ensures kept[n] != map[] {
      var k :| k in actual[n] && Keeps(low, supplied, recorded, n, k);
      assert k in kept[n];
    }
    forall n, k, v ensures Holds(kept, n, k, v) <==> Holds(actual, n, k, v) && Keeps(low, supplied, recorded, n, k) {}
  }

  lemma StoredIsNewTag<K(!new), V(!new)>(low: Fold<K>, sticky: V -> bool, actual: Nested<K, V>, supplied: Nested<K, V>, recorded: Nested<K, V>,
                                         tags: Nested<K, V>, defaults: Nested<K, V>, stored: Nested<K, V>, noted: Nested<K, V>, a: K, b: K)
    requires ComputedFrom(low, sticky, actual, supplied, recorded, tags, defaults)
    requires Stores(low, sticky, tags, stored) && AllUnique(low, noted) && Same(low, noted, defaults)
    ensures Lookup(low, stored, a, b) == NewTag(low, sticky, stored, supplied, noted, a, b)
  {
    TagsAreConserved(low, sticky, actual, supplied, recorded, tags, defaults, a, b);
    SameLookup(low, noted, defaults, a, b);
    assert StoresTag(sticky, Lookup(low, tags, a, b), Lookup(low, stored, a, b));
    assert Lookup(low, tags, a, b) == NewTag(low, sticky, actual, supplied, recorded, a, b);
  }

  /** What the next computation makes of a load balancer that stores the tags of the last one: the same
      tags, and as defaults what is kept of them. */
  lemma NextComputation<K(!new), V(!new)>(low: Fold<K>, sticky: V -> bool, actual: Nested<K, V>, supplied: Nested<K, V>, recorded: Nested<K, V>,
                                          tags: Nested<K, V>, defaults: Nested<K, V>, stored: Nested<K, V>, noted: Nested<K, V>)
    returns (defaults2: Nested<K, V>)
    requires ComputedFrom(low, sticky, actual, supplied, recorded, tags, defaults)
    requires Stores(low, sticky, tags, stored) && AllUnique(low, noted) && Same(low, noted, defaults)
    ensures ComputedFrom(low, sticky, stored, supplied, noted, stored, defaults2)
  {
    defaults2 := KeptExists(low, stored, supplied, noted);
    KeptTags(low, stored, supplied, noted, defaults2);
    forall a, b ensures Lookup(low, stored, a, b) == NewTag(low, sticky, stored, supplied, noted, a, b) {
      StoredIsNewTag(low, sticky, actual, supplied, recorded, tags, defaults, stored, noted, a, b);
    }
  }

  /** The next computation asks for no change of the annotation either, whatever the server makes of the
      tags, exactly when none of the kept defaults has a value for the server to resolve. */
  lemma AnnotationStaysIff<K(!new), V(!new)>(low: Fold<K>, sticky: V -> bool, other: V -> V, actual: Nested<K, V>, supplied: Nested<K, V>,
                                             recorded: Nested<K, V>, tags: Nested<K, V>, defaults: Nested<K, V>, noted: Nested<K, V>)
    requires ComputedFrom(low, sticky, actual, supplied, recorded, tags, defaults)
    requires AllUnique(low, noted) && Same(low, noted, defaults)
    requires forall v :: other(v) != v
    ensures (forall stored, tags2, defaults2 ::
               Stores(low, sticky, tags, stored) && ComputedFrom(low, sticky, stored, supplied, noted, tags2, defaults2) ==>
                 Same(low, noted, defaults2))
      <==> PlainDefaults(low, sticky, actual, supplied, recorded)
  {
    DefaultsSurviveIff(low, sticky, other, actual, supplied, recorded, tags, defaults);
    forall stored, tags2, defaults2
      | Stores(low, sticky, tags, stored) && ComputedFrom(low, sticky, stored, supplied, noted, tags2, defaults2)
      ensures Same(low, noted, defaults2) <==> DefaultsSurvive(low, defaults, stored)
    {
      TagFixpoint(low, sticky, actual, supplied, recorded, tags, defaults, stored, noted, tags2, defaults2);
    }
    if stored :| Stores(low, sticky, tags, stored) && !DefaultsSurvive(low, defaults, stored) {
      var defaults2 := NextComputation(low, sticky, actual, supplied, recorded, tags, defaults, stored, noted);
      assert ComputedFrom(low, sticky, stored, supplied, noted, stored, defaults2);
    }
  }

  /** A load balancer that is taken over without annotations: all its tags are recorded, and then
      nothing changes any more. */
  lemma MigrationFixpoint<K(!new), V(!new)>(low: Fold<K>, sticky: V -> bool, actual: Nested<K, V>, tags2: Nested<K, V>, defaults2: Nested<K, V>)
    requires AllUnique(low, actual) && ComputedFrom(low, sticky, actual, map[], actual, tags2, defaults2)
    ensures Same(low, actual, tags2) && Same(low, actual, defaults2)
  {
    forall a, b ensures Lookup(low, actual, a, b) == Lookup(low, tags2, a, b) == Lookup(low, defaults2, a, b) {
      assert Lookup<K, V>(low, map[], a, b) == None;
      assert Lookup(low, tags2, a, b) == NewTag(low, sticky, actual, map[], actual, a, b);
      assert Lookup(low, defaults2, a, b) == NewDefault(low, actual, map[], actual, a, b);
    }
    SameIff(low, actual, tags2);
    SameIff(low, actual, defaults2);
  }

  // ---- A new load balancer -----------------------------------------------------------------

  /** The tags a new load balancer came with beyond those supplied. */
  ghost predicate Implicit<K(!new), V(!new)>(low: Fold<K>, actual: Nested<K, V>, supplied: Nested<K, V>, defaults: Nested<K, V>) {
    Good(low, defaults)
    && forall a, b :: Lookup(low, defaults, a, b) == if Lookup(low, supplied, a, b).None? then Lookup(low, actual, a, b) else None
  }

  method GetImplicitDefaultTagsForNewLoadBalancer<K(==, !new), V(==, !new)>(low: Fold<K>, actual: Nested<K, V>, supplied: Nested<K, V>)
    returns (defaults: Nested<K, V>)
    ensures Idempotent(low) && AllUnique(low, actual) && AllUnique(low, supplied) ==> Implicit(low, actual, supplied, defaults)
  {
    var lcSupplied := FoldNested(low, supplied);
    defaults := Filtered(actual, (n, k) => !Contained(low, lcSupplied, n, k));
    if Idempotent(low) && AllUnique(low, actual) && AllUnique(low, supplied) {
      // everything on the load balancer counts as recorded
      forall n, k ensures Contained(low, lcSupplied, n, k) <==> Lookup(low, supplied, low(n), low(k)).Some? {
        FoldedTag(low, supplied, lcSupplied, low(n), low(k));
      }
      forall n, k, v | Holds(actual, n, k, v) ensures Lookup(low, actual, low(n), low(k)).Some? {
        assert At(low, actual, low(n), low(k), v);
      }
      KeptTags(low, actual, supplied, actual, defaults);
    }
  }

  /** The first reconciliation after creation: the annotation stays, and the tags stay exactly when
      every supplied tag is there, with its value unless that is for the server to resolve. */
  lemma FirstReconcileIff<K(!new), V(!new)>(low: Fold<K>, sticky: V -> bool, actual: Nested<K, V>, supplied: Nested<K, V>,
                                            defaults: Nested<K, V>, tags2: Nested<K, V>, defaults2: Nested<K, V>)
    requires AllUnique(low, actual) && Implicit(low, actual, supplied, defaults)
    requires ComputedFrom(low, sticky, actual, supplied, defaults, tags2, defaults2)
    ensures Same(low, defaults, defaults2)
    ensures Same(low, actual, tags2) <==>
      forall a, b :: Lookup(low, supplied, a, b).Some? ==> StoresTag(sticky, Lookup(low, supplied, a, b), Lookup(low, actual, a, b))
  {
    forall a, b
      ensures Lookup(low, defaults, a, b) == Lookup(low, defaults2, a, b)
      ensures Lookup(low, actual, a, b) == Lookup(low, tags2, a, b) <==>
        (Lookup(low, supplied, a, b).Some? ==> StoresTag(sticky, Lookup(low, supplied, a, b), Lookup(low, actual, a, b)))
    {
      assert Lookup(low, defaults, a, b) == if Lookup(low, supplied, a, b).None? then Lookup(low, actual, a, b) else None;
      assert Lookup(low, tags2, a, b) == NewTag(low, sticky, actual, supplied, defaults, a, b);
      assert Lookup(low, defaults2, a, b) == NewDefault(low, actual, supplied, defaults, a, b);
    }
    SameIff(low, defaults, defaults2);
    SameIff(low, actual, tags2);
  }
}
