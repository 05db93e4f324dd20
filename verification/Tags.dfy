/** The tag steps of the ingress class controller. */
module Tags {
  import opened Wrappers
  import opened Text
  import opened FoldedMaps
  import opened TagRules

  datatype Value = Str(text: string) | Other(id: int)
  type TagMap = Nested<string, Value>

  const TAG_VARIABLES := ["${iam.principal.name}", "${iam.principal.type}", "${oci.datetime}"]

  predicate Contains(s: string, part: string) {
    part <= s || (s != [] && Contains(s[1..], part))
  }

  /** A value with a tag variable is resolved by the server when the tag is set. */
  predicate HasVariable(v: Value) {
    v.Str? && exists i :: 0 <= i < |TAG_VARIABLES| && Contains(v.text, TAG_VARIABLES[i])
  }

  lemma LowerIsIdempotent()
    ensures Idempotent(ToLower)
  {
    forall s: string ensures ToLower(ToLower(s)) == ToLower(s) {
      ToLowerIdempotent(s);
    }
  }

  /** No two namespaces, and no two keys of a namespace, differ in case only; no namespace is empty. */
  ghost predicate GoodTags(tags: TagMap) {
    Good(ToLower, tags)
  }

  ghost predicate SameTags(x: TagMap, y: TagMap) {
    Same(ToLower, x, y)
  }

  /** What a server may do with the tags it is sent. */
  ghost predicate Server(resolve: TagMap -> TagMap) {
    forall t :: GoodTags(t) ==> Stores(ToLower, HasVariable, t, resolve(t))
  }

  lemma GoodInputsHold(actual: TagMap, supplied: Option<TagMap>, recorded: Option<TagMap>)
    requires GoodTags(actual) && AllUnique(ToLower, OrEmpty(supplied)) && AllUnique(ToLower, OrEmpty(recorded))
    ensures GoodInputs(ToLower, actual, supplied, recorded)
  {
    LowerIsIdempotent();
  }

  /** The ingress class and its load balancer, as far as tags go. */
  class TagState {
    var lbTags: TagMap
    var recorded: Option<TagMap>

    /** The tags of a new load balancer are what the server made of the supplied ones, plus what the
        tenancy adds; the latter are recorded on the ingress class. */
    constructor (created: TagMap, supplied: TagMap)
      ensures lbTags == created && recorded.Some?
      ensures GoodTags(created) && AllUnique(ToLower, supplied) ==> Implicit(ToLower, created, supplied, recorded.value)
    {
      LowerIsIdempotent();
      var defaults := GetImplicitDefaultTagsForNewLoadBalancer(ToLower, created, supplied);
      lbTags := created;
      recorded := Some(defaults);
    }

    ghost predicate Valid(supplied: Option<TagMap>)
      reads this
    {
      GoodTags(lbTags) && AllUnique(ToLower, OrEmpty(supplied)) && (recorded.Some? ==> GoodTags(recorded.value))
    }

    /** One reconciliation: update the load balancer if its tags are to change, then the annotation. */
    method CheckTags(supplied: Option<TagMap>, resolve: TagMap -> TagMap)
      returns (updated: bool, patched: bool, ghost tags: TagMap, ghost defaults: TagMap)
      requires Valid(supplied) && Server(resolve)
      modifies this
      ensures Valid(supplied)
      ensures Computed(ToLower, HasVariable, old(lbTags), supplied, old(recorded), tags, defaults)
      ensures updated <==> !SameTags(old(lbTags), tags)
      ensures lbTags == if updated then resolve(tags) else old(lbTags)
      ensures patched <==> old(recorded).None? || !SameTags(old(recorded).value, defaults)
      ensures recorded == if patched then Some(defaults) else old(recorded)
    {
      GoodInputsHold(lbTags, supplied, recorded);
      var newTags, newDefaults := GetUpdatedDefinedAndImplicitDefaultTags(ToLower, HasVariable, lbTags, supplied, recorded);
      tags, defaults := newTags, newDefaults;
      var same := FoldedEqual(ToLower, lbTags, newTags);
      updated := !same;
      if updated {
        lbTags := resolve(newTags);
      }
      patched := true;
      if recorded.Some? {
        var equal := FoldedEqual(ToLower, recorded.value, newDefaults);
        patched := !equal;
      }
      if patched {
        recorded := Some(newDefaults);
      }
    }
  }

  /** What one reconciliation leaves is stored by the server, whether it had to be sent or not. */
  lemma LeftIsStored(tags: TagMap, before: TagMap, after: TagMap)
    requires GoodTags(tags) && GoodTags(before)
    requires Stores(ToLower, HasVariable, tags, after) || (after == before && SameTags(before, tags))
    ensures Stores(ToLower, HasVariable, tags, after)
  {
    if after == before && SameTags(before, tags) {
      forall a, b ensures StoresTag(HasVariable, Lookup(ToLower, tags, a, b), Lookup(ToLower, after, a, b)) {
        SameLookup(ToLower, before, tags, a, b);
      }
    }
  }

  /** No default that is kept has a value with a tag variable. With neither annotation present, nothing
      is sent in the first place. */
  ghost predicate NoVariableKept(actual: TagMap, supplied: Option<TagMap>, recorded: Option<TagMap>) {
    (supplied.None? && recorded.None?) || PlainDefaults(ToLower, HasVariable, actual, OrEmpty(supplied), OrEmpty(recorded))
  }

  /** Two reconciliations in a row: the second never updates the load balancer. It leaves the annotation
      alone if the first had nothing to update, or if no kept default has a value with a variable. */
  method CheckTwice(state: TagState, supplied: Option<TagMap>, resolve: TagMap -> TagMap)
    returns (first: bool, updated: bool, patched: bool, ghost tags: TagMap, ghost defaults: TagMap)
    requires state.Valid(supplied) && Server(resolve)
    modifies state
    ensures Computed(ToLower, HasVariable, old(state.lbTags), supplied, old(state.recorded), tags, defaults)
    ensures first <==> !SameTags(old(state.lbTags), tags)
    ensures state.lbTags == if first then resolve(tags) else old(state.lbTags)
    ensures !updated
    ensures !first || NoVariableKept(old(state.lbTags), supplied, old(state.recorded)) ==> !patched
    ensures patched <==> !DefaultsSurvive(ToLower, defaults, state.lbTags)
  {
    ghost var before, noted := state.lbTags, state.recorded;
    var patched1;
    first, patched1, tags, defaults := state.CheckTags(supplied, resolve);
    ghost var stored := state.lbTags;
    ghost var tags2, defaults2;
    updated, patched, tags2, defaults2 := state.CheckTags(supplied, resolve);
    SecondCheck(before, supplied, noted, tags, defaults, stored, if patched1 then defaults else noted.value, tags2, defaults2);
    if !first || NoVariableKept(before, supplied, noted) {
      DefaultsAreSafe(before, supplied, noted, tags, defaults, stored);
    }
  }

  lemma DefaultsAreSafe(before: TagMap, supplied: Option<TagMap>, noted: Option<TagMap>, tags: TagMap, defaults: TagMap, stored: TagMap)
    requires GoodTags(before) && Computed(ToLower, HasVariable, before, supplied, noted, tags, defaults)
    requires (stored == before && SameTags(before, tags))
      || (Stores(ToLower, HasVariable, tags, stored) && NoVariableKept(before, supplied, noted))
    requires supplied.None? && noted.None? ==> stored == before
    ensures DefaultsSurvive(ToLower, defaults, stored)
  {
    if supplied.None? && noted.None? {
    } else if stored == before {
      forall a, b | Lookup(ToLower, defaults, a, b).Some? ensures Lookup(ToLower, stored, a, b) == Lookup(ToLower, defaults, a, b) {
        TagsAreConserved(ToLower, HasVariable, before, OrEmpty(supplied), OrEmpty(noted), tags, defaults, a, b);
      }
    } else {
      PlainDefaultsSurvive(ToLower, HasVariable, before, OrEmpty(supplied), OrEmpty(noted), tags, defaults, stored);
    }
  }

  function Another(v: Value): Value {
    match v case Str(_) => Other(0) case Other(_) => Str("")
  }

  /** The load balancer's tags after a reconciliation. */
  ghost function Left(before: TagMap, tags: TagMap, resolve: TagMap -> TagMap): TagMap {
    if SameTags(before, tags) then before else resolve(tags)
  }

  /** Exactly when the second reconciliation leaves the annotation alone, whatever the server does: when
      the first has nothing to update, or no kept default has a value with a variable. */
  lemma AnnotationStaysForEveryServerIff(before: TagMap, supplied: TagMap, recorded: TagMap, tags: TagMap, defaults: TagMap)
    requires GoodTags(before) && ComputedFrom(ToLower, HasVariable, before, supplied, recorded, tags, defaults)
    ensures (forall resolve: TagMap -> TagMap :: Server(resolve) ==> DefaultsSurvive(ToLower, defaults, Left(before, tags, resolve)))
      <==> SameTags(before, tags) || PlainDefaults(ToLower, HasVariable, before, supplied, recorded)
  {
    DefaultsSurviveIff(ToLower, HasVariable, Another, before, supplied, recorded, tags, defaults);
    if SameTags(before, tags) || PlainDefaults(ToLower, HasVariable, before, supplied, recorded) {
      forall resolve: TagMap -> TagMap | Server(resolve) ensures DefaultsSurvive(ToLower, defaults, Left(before, tags, resolve)) {
        DefaultsAreSafe(before, Some(supplied), Some(recorded), tags, defaults, Left(before, tags, resolve));
      }
    } else {
      var stored :| Stores(ToLower, HasVariable, tags, stored) && !DefaultsSurvive(ToLower, defaults, stored);
      var resolve := ServerThatStores(tags, stored);
      assert Left(before, tags, resolve) == stored;
    }
  }

  lemma ServerThatStores(tags: TagMap, stored: TagMap) returns (resolve: TagMap -> TagMap)
    requires GoodTags(tags) && Stores(ToLower, HasVariable, tags, stored)
    ensures Server(resolve) && resolve(tags) == stored
  {
    resolve := (t: TagMap) => if t == tags then stored else t;
    forall t | GoodTags(t) ensures Stores(ToLower, HasVariable, t, resolve(t)) {}
  }

  // ---- A default with a variable ------------------------------------------------------------

  /** A server that resolves every variable. */
  function ResolveAll(t: TagMap): TagMap {
    map n | n in t :: map k | k in t[n] :: if HasVariable(t[n][k]) then Other(0) else t[n][k]
  }

  lemma ResolveAllIsServer()
    ensures Server(ResolveAll)
  {
    forall t | GoodTags(t) ensures Stores(ToLower, HasVariable, t, ResolveAll(t)) {
      var r := ResolveAll(t);
      assert r.Keys == t.Keys && forall n :: n in t ==> r[n].Keys == t[n].Keys;
      forall n | n in r ensures r[n] != map[] {
        var k :| k in t[n];
        assert k in r[n];
      }
      forall a, b ensures StoresTag(HasVariable, Lookup(ToLower, t, a, b), Lookup(ToLower, r, a, b)) {
        ResolvedLookup(t, a, b);
      }
    }
  }

  lemma ResolvedLookup(t: TagMap, a: string, b: string)
    requires GoodTags(t) && GoodTags(ResolveAll(t))
    ensures Lookup(ToLower, ResolveAll(t), a, b) ==
      match Lookup(ToLower, t, a, b) case None => None case Some(v) => Some(if HasVariable(v) then Other(0) else v)
  {
    var r := ResolveAll(t);
    if v :| At(ToLower, t, a, b, v) {
      var n, k :| Holds(t, n, k, v) && ToLower(n) == a && ToLower(k) == b;
      var w := if HasVariable(v) then Other(0) else v;
      assert Holds(r, n, k, w);
      LookupIs(ToLower, t, a, b, v);
      LookupIs(ToLower, r, a, b, w);
    } else if w :| At(ToLower, r, a, b, w) {
      var n, k :| Holds(r, n, k, w) && ToLower(n) == a && ToLower(k) == b;
      assert Holds(t, n, k, t[n][k]);
      assert At(ToLower, t, a, b, t[n][k]);
    }
  }

  const VARIABLE := Str("${iam.principal.name}")
  const WITH_VARIABLE: TagMap := map["a" := map["b" := VARIABLE]]
  const ADDED: TagMap := map["c" := map["d" := Other(1)]]

  lemma SingleTag(m: TagMap, n: string, k: string, v: Value)
    requires m == map[n := map[k := v]] && ToLower(n) == n && ToLower(k) == k
    ensures GoodTags(m) && forall a, b :: Lookup(ToLower, m, a, b) == if a == n && b == k then Some(v) else None
  {
    assert k in m[n];
    forall a, b ensures Lookup(ToLower, m, a, b) == if a == n && b == k then Some(v) else None {
      FoldedLookup(ToLower, m, a, b);
    }
  }

  lemma VariableScene(tags: TagMap, defaults: TagMap)
    requires ComputedFrom(ToLower, HasVariable, WITH_VARIABLE, ADDED, WITH_VARIABLE, tags, defaults)
    ensures !SameTags(WITH_VARIABLE, tags) && !DefaultsSurvive(ToLower, defaults, ResolveAll(tags))
  {
    VariableTags(tags, defaults);
    SingleTag(WITH_VARIABLE, "a", "b", VARIABLE);
    SameIff(ToLower, WITH_VARIABLE, tags);
    VariableIsResolved(tags);
  }

  lemma VariableIsResolved(tags: TagMap)
    requires GoodTags(tags) && HasVariable(VARIABLE) && Lookup(ToLower, tags, "a", "b") == Some(VARIABLE)
    ensures Lookup(ToLower, ResolveAll(tags), "a", "b") == Some(Other(0))
  {
    ResolveAllIsServer();
    ResolvedLookup(tags, "a", "b");
  }

  lemma VariableTags(tags: TagMap, defaults: TagMap)
    requires ComputedFrom(ToLower, HasVariable, WITH_VARIABLE, ADDED, WITH_VARIABLE, tags, defaults)
    ensures HasVariable(VARIABLE)
    ensures Lookup(ToLower, tags, "c", "d").Some? && Lookup(ToLower, tags, "a", "b") == Lookup(ToLower, defaults, "a", "b") == Some(VARIABLE)
  {
    SingleTag(WITH_VARIABLE, "a", "b", VARIABLE);
    SingleTag(ADDED, "c", "d", Other(1));
    assert VARIABLE.text <= TAG_VARIABLES[0] && HasVariable(VARIABLE);
    assert Lookup(ToLower, tags, "c", "d") == NewTag(ToLower, HasVariable, WITH_VARIABLE, ADDED, WITH_VARIABLE, "c", "d");
    assert Lookup(ToLower, tags, "a", "b") == NewTag(ToLower, HasVariable, WITH_VARIABLE, ADDED, WITH_VARIABLE, "a", "b");
    assert Lookup(ToLower, defaults, "a", "b") == NewDefault(ToLower, WITH_VARIABLE, ADDED, WITH_VARIABLE, "a", "b");
  }

  /** A default with a variable in its value: adding another tag makes the server resolve the variable,
      and the second reconciliation has to patch the annotation again. */
  method VariableIsPatchedAgain() returns (patched: bool)
    ensures patched
  {
    SingleTag(WITH_VARIABLE, "a", "b", VARIABLE);
    SingleTag(ADDED, "c", "d", Other(1));
    ResolveAllIsServer();
    var state := new TagState(WITH_VARIABLE, map[]);
    state.recorded := Some(WITH_VARIABLE);
    ghost var tags, defaults;
    var first, updated;
    first, updated, patched, tags, defaults := CheckTwice(state, Some(ADDED), ResolveAll);
    VariableScene(tags, defaults);
  }

  lemma SecondCheck(before: TagMap, supplied: Option<TagMap>, noted: Option<TagMap>, tags: TagMap, defaults: TagMap,
                    stored: TagMap, noted2: TagMap, tags2: TagMap, defaults2: TagMap)
    requires GoodTags(before) && Computed(ToLower, HasVariable, before, supplied, noted, tags, defaults)
    requires Stores(ToLower, HasVariable, tags, stored) || (stored == before && SameTags(before, tags))
    requires supplied.None? && noted.None? ==> stored == before
    requires GoodTags(noted2) && SameTags(noted2, defaults) && (supplied.None? && noted.None? ==> noted2 == defaults)
    requires Computed(ToLower, HasVariable, stored, supplied, Some(noted2), tags2, defaults2)
    ensures SameTags(stored, tags2)
    ensures SameTags(noted2, defaults2) <==> DefaultsSurvive(ToLower, defaults, stored)
  {
    if supplied.None? && noted.None? {
      MigrationFixpoint(ToLower, HasVariable, before, tags2, defaults2);
    } else {
      LeftIsStored(tags, before, stored);
      TagFixpoint(ToLower, HasVariable, before, OrEmpty(supplied), OrEmpty(noted), tags, defaults, stored, noted2, tags2, defaults2);
    }
  }

  /** A new load balancer whose supplied tags are all there: the first reconciliation changes nothing. */
  method CheckAfterCreation(created: TagMap, supplied: TagMap, resolve: TagMap -> TagMap)
    returns (updated: bool, patched: bool)
    requires GoodTags(created) && AllUnique(ToLower, supplied) && Server(resolve)
    ensures !patched
    ensures !updated <==> forall a, b :: Lookup(ToLower, supplied, a, b).Some? ==>
      StoresTag(HasVariable, Lookup(ToLower, supplied, a, b), Lookup(ToLower, created, a, b))
  {
    var state := new TagState(created, supplied);
    ghost var defaults := state.recorded.value;
    ghost var tags2, defaults2;
    updated, patched, tags2, defaults2 := state.CheckTags(Some(supplied), resolve);
    FirstReconcileIff(ToLower, HasVariable, created, supplied, defaults, tags2, defaults2);
  }
}
