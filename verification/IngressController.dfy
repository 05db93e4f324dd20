/** One reconciliation of one ingress, against a server that may refuse any request, or only those that
    break a reference. */
module IngressController {
  import opened Wrappers
  import opened Text
  import opened Ingresses
  import opened LoadBalancers
  import opened Reconcile
  import opened StateBuilder
  import opened DesiredState
  import opened LoadBalancerClient
  import opened Obstacles
  import RoutingAgreement
  import Sorting
  import StateStore
  import StateTheorems
  import TlsPolicy

  // ---- What is staged before listeners are touched ----------------------------------------

  /** The listener has, or is to have, several certificates. */
  predicate MultiCertificate(d: Desired, lb: LoadBalancer, p: int)
    requires p in d.listeners
  {
    var goal, name := d.listeners[p], ListenerName(p);
    (goal.protocol != TCP && goal.ssl.Some? && |goal.ssl.value.ids| > 1)
    || (name in lb.listeners && lb.listeners[name].ssl.Some? && |lb.listeners[name].ssl.value.ids| > 1)
  }

  /** The backend sets behind a listener: those its paths reach, and its default. */
  function Behind(d: Desired, p: int): set<string>
    requires p in d.listeners
  {
    Lookup(d.reach, p, {}) + (if d.listeners[p].defaultBs != "" then {d.listeners[p].defaultBs} else {})
  }

  /** The backend sets behind the multi-certificate listeners of the class. */
  function Managed(d: Desired, lb: LoadBalancer): set<string> {
    set p, n | p in d.listeners && MultiCertificate(d, lb, p) && n in Behind(d, p) :: n
  }

  method BuildManagedMultiCertBackendSets(d: Desired, lb: LoadBalancer) returns (managed: set<string>)
    ensures managed == Managed(d, lb)
  {
    managed := {};
    var ports := Sorting.List(d.listeners.Keys);
    for i := 0 to |ports|
      invariant managed == set p, n | p in d.listeners && p in ports[..i] && MultiCertificate(d, lb, p) && n in Behind(d, p) :: n
    {
      assert ports[..i + 1] == ports[..i] + [ports[i]];
      if !MultiCertificate(d, lb, ports[i]) {
        continue;
      }
      managed := managed + Behind(d, ports[i]);
    }
    assert ports[..|ports|] == ports;
  }

  /** Every explicit policy of the class resolves. */
  ghost predicate PoliciesResolve(d: Desired) {
    (forall n :: n in d.sets && d.sets[n].explicit.Some? ==>
       TlsPolicy.Overlay(TlsPolicy.BackendSetResource, d.sets[n].explicit.value).Ok?)
    && forall p :: p in d.listeners && d.listeners[p].explicit.Some? ==>
       TlsPolicy.Overlay(TlsPolicy.ListenerResource(Http2Family(d.listeners[p].protocol)), d.listeners[p].explicit.value).Ok?
  }

  /** Validation comes before any request. */
  method ValidateActiveTlsPolicies(d: Desired) returns (r: Result<(), UpdateError>)
    ensures r.Ok? <==> PoliciesResolve(d)
  {
    var names := Sorting.List(d.sets.Keys);
    for i := 0 to |names|
      invariant forall k :: 0 <= k < i && d.sets[names[k]].explicit.Some? ==>
        TlsPolicy.Overlay(TlsPolicy.BackendSetResource, d.sets[names[k]].explicit.value).Ok?
    {
      var goal := d.sets[names[i]];
      if goal.explicit.Some? {
        var policy := TlsPolicy.Overlay(TlsPolicy.BackendSetResource, goal.explicit.value);
        if policy.Err? {
          return Err(UpdateError.Resolve(policy.error));
        }
      }
    }
    var ports := Sorting.List(d.listeners.Keys);
    for i := 0 to |ports|
      invariant forall k {:trigger ports[k]} :: 0 <= k < i && d.listeners[ports[k]].explicit.Some? ==>
        TlsPolicy.Overlay(TlsPolicy.ListenerResource(Http2Family(d.listeners[ports[k]].protocol)), d.listeners[ports[k]].explicit.value).Ok?
    {
      var goal := d.listeners[ports[i]];
      var p := ports[i];
      assert p in d.listeners;
      if goal.explicit.Some? {
        assert d.listeners[p].explicit.Some?;
        var policy := TlsPolicy.Overlay(TlsPolicy.ListenerResource(Http2Family(d.listeners[p].protocol)), d.listeners[p].explicit.value);
        if policy.Err? {
          return Err(UpdateError.Resolve(policy.error));
        }
      }
    }
    return Ok(());
  }

  /** It never fails for a state that the builder has produced. */
  lemma WellFormedPoliciesResolve(d: Desired)
    requires WellFormed(d)
    ensures PoliciesResolve(d)
  {
    forall n | n in d.sets && d.sets[n].explicit.Some?
      ensures TlsPolicy.Overlay(TlsPolicy.BackendSetResource, d.sets[n].explicit.value).Ok?
    {
      TlsPolicy.RequestableResolves(TlsPolicy.BackendSetResource, d.sets[n].explicit.value);
    }
    forall p | p in d.listeners && d.listeners[p].explicit.Some?
      ensures TlsPolicy.Overlay(TlsPolicy.ListenerResource(Http2Family(d.listeners[p].protocol)), d.listeners[p].explicit.value).Ok?
    {
      TlsPolicy.RequestableResolves(TlsPolicy.ListenerResource(Http2Family(d.listeners[p].protocol)), d.listeners[p].explicit.value);
    }
  }

  // ---- What a reconciliation does, object by object ---------------------------------------

  /** Backend sets in `stage` are synced if they exist and created if they do not. */
  ghost predicate SetsEnsured(d: Desired, stage: set<string>, initial: map<string, seq<Backend>>,
                              before: map<string, BackendSet>, after: map<string, BackendSet>)
    requires stage <= d.sets.Keys
  {
    after.Keys == before.Keys + stage
    && (forall n :: n in before && n !in stage ==> after[n] == before[n])
    && (forall n :: n in before && n in stage ==>
          BackendSetSync(d.sets[n], before[n]).Ok? && after[n] == SetAfterSync(d.sets[n], before[n]))
    && forall n :: n in stage && n !in before ==> Ok(after[n]) == BackendSetCreate(d.sets[n], Lookup(initial, n, []))
  }

  /** Listeners on `ports` are synced if they exist and created if they do not. */
  ghost predicate ListenersEnsured(d: Desired, ports: set<int>, before: map<string, Listener>, after: map<string, Listener>)
    requires ports <= d.listeners.Keys
  {
    after.Keys == before.Keys + (set p | p in ports :: ListenerName(p))
    && (forall n :: n in before && before[n].port !in ports ==> after[n] == before[n])
    && (forall n :: n in before && before[n].port in ports ==>
          ListenerSync(d.listeners[before[n].port], before[n]).Ok?
          && after[n] == ListenerAfterSync(d.listeners[before[n].port], before[n]))
    && forall p :: p in ports && ListenerName(p) !in before ==> Ok(after[ListenerName(p)]) == ListenerCreate(d.listeners[p])
  }

  function NamesOf(ports: set<int>): set<string> {
    set p | p in ports :: ListenerName(p)
  }

  /** Every listener is named after its port. */
  predicate Canonical(lb: LoadBalancer) {
    forall n :: n in lb.listeners ==> n == ListenerName(lb.listeners[n].port)
  }

  ghost predicate Ensured(d: Desired, own: IngressState, initial: map<string, seq<Backend>>, before: LoadBalancer, after: LoadBalancer)
    requires own.ports <= d.listeners.Keys && own.backendSets + Managed(d, before) <= d.sets.Keys
  {
    SetsEnsured(d, own.backendSets + Managed(d, before), initial, before.backendSets, after.backendSets)
    && ListenersEnsured(d, own.ports, before.listeners, after.listeners)
    && after.policies == before.policies
  }

  /** `after` is `before` without some of the objects the class does not want. */
  ghost predicate Trimmed(d: Desired, before: LoadBalancer, after: LoadBalancer) {
    after.policies == before.policies
    && after.backendSets.Keys <= before.backendSets.Keys && after.listeners.Keys <= before.listeners.Keys
    && (forall n :: n in after.backendSets ==> after.backendSets[n] == before.backendSets[n])
    && (forall n :: n in after.listeners ==> after.listeners[n] == before.listeners[n])
    && (forall n :: n in before.backendSets && n in d.sets ==> n in after.backendSets)
    && forall n :: n in before.listeners && before.listeners[n].port in d.listeners ==> n in after.listeners
  }

  /** None is left. */
  ghost predicate NothingStale(d: Desired, lb: LoadBalancer) {
    lb.backendSets.Keys <= d.sets.Keys && forall n :: n in lb.listeners ==> lb.listeners[n].port in d.listeners
  }

  // ---- Single changes --------------------------------------------------------------------

  /** What one accepted request of a reconciliation does. */
  datatype Write =
    | SyncSet(name: string)
    | CreateSet(name: string, backends: seq<Backend>)
    | SyncOf(name: string)
    | CreateOn(port: int)
    | DropListener(port: int)
    | DropSet(name: string)

  ghost predicate Writes(d: Desired, w: Write, a: LoadBalancer, b: LoadBalancer) {
    match w
    case SyncSet(n) => n in d.sets && n in a.backendSets && SetSynced(d.sets[n], n, a, b)
    case CreateSet(n, backends) =>
      n in d.sets && n !in a.backendSets && BackendSetCreate(d.sets[n], backends).Ok?
      && PutSet(n, BackendSetCreate(d.sets[n], backends).value, a, b)
    case SyncOf(n) => ListenerSyncedAt(d, n, a, b)
    case CreateOn(p) =>
      p in d.listeners && ListenerName(p) !in a.listeners && ListenerCreate(d.listeners[p]).Ok?
      && PutOneListener(ListenerName(p), ListenerCreate(d.listeners[p]).value, a, b)
    case DropListener(p) => p !in d.listeners && b == a.(listeners := a.listeners - {ListenerName(p)})
    case DropSet(n) => n !in d.sets && b == a.(backendSets := a.backendSets - {n})
  }

  /** Every single change keeps the property. Reconciliations then keep it, however they end. */
  ghost predicate Lasting(d: Desired, keeps: LoadBalancer -> bool) {
    forall w, a, b :: keeps(a) && Writes(d, w, a, b) ==> keeps(b)
  }

  // ---- Safety of the order of requests ----------------------------------------------------

  ghost predicate Suffix(before: seq<Event>, after: seq<Event>, p: Event -> bool) {
    before <= after && forall i :: |before| <= i < |after| ==> p(after[i])
  }

  /** All of these backend sets exist with their desired TLS settings. */
  ghost predicate Staged(d: Desired, stage: set<string>, lb: LoadBalancer) {
    forall n :: n in stage ==> n in d.sets && n in lb.backendSets && TlsInPlace(d.sets[n], lb.backendSets[n].ssl)
  }

  ghost predicate FreshReadBetween(log: seq<Event>, j: int, i: int) {
    exists k :: 0 <= j < k < i < |log| && log[k].Refreshed?
  }

  /** No listener write is sent before everything is staged, and a fresh read separates the staging
      writes from the listener writes. */
  ghost predicate StagingIsSafe(d: Desired, stage: set<string>, managed: set<string>, before: seq<Event>, log: seq<Event>) {
    before <= log
    && (forall i :: |before| <= i < |log| && ListenerWrite(log[i]) ==> Staged(d, stage, log[i].before))
    && forall i, j :: |before| <= j < i < |log| && ListenerWrite(log[i]) && StagingWrite(log[j], managed) ==>
         FreshReadBetween(log, j, i)
  }

  /** Listener updates and creations only name backend sets that exist. */
  ghost predicate NoDanglingDefaults(before: seq<Event>, log: seq<Event>) {
    forall i :: |before| <= i < |log| && log[i].ListenerSent? ==> log[i].listener.defaultBs in log[i].before.backendSets
  }

  /** Listeners are sent with the routing policies they have. */
  ghost predicate PoliciesAreCarried(before: seq<Event>, log: seq<Event>) {
    forall i :: |before| <= i < |log| && log[i].ListenerSent? ==> CarriesPolicy(log[i])
  }

  // ---- The phases ------------------------------------------------------------------------

  /** No sync of a backend set to stage fails. */
  ghost predicate SetsCanSync(d: Desired, stage: set<string>, lb: LoadBalancer)
    requires stage <= d.sets.Keys
  {
    forall n :: n in stage && n in lb.backendSets ==> BackendSetSync(d.sets[n], lb.backendSets[n]).Ok?
  }

  function EventIsUpdate(managed: set<string>, staged: bool): Event -> bool {
    (e: Event) => e.SetUpdated? && (StagingWrite(e, managed) ==> staged)
  }

  lemma OneSetSynced(d: Desired, stage: set<string>, name: string,
                     before: map<string, BackendSet>, now: map<string, BackendSet>, next: map<string, BackendSet>)
    requires stage + {name} <= d.sets.Keys && name !in stage && name in before && stage <= before.Keys
    requires SetsEnsured(d, stage, map[], before, now)
    requires BackendSetSync(d.sets[name], now[name]).Ok? && next == now[name := SetAfterSync(d.sets[name], now[name])]
    ensures SetsEnsured(d, stage + {name}, map[], before, next)
  {
  }

  lemma SuffixGrows(before: seq<Event>, now: seq<Event>, next: seq<Event>, p: Event -> bool, q: Event -> bool, r: Event -> bool)
    requires Suffix(before, now, p) && OneMore(now, next, q)
    requires forall e :: (p(e) || q(e)) ==> r(e)
    ensures Suffix(before, next, r)
  {
    forall i | |before| <= i < |next| ensures r(next[i]) {
      if i < |now| { assert next[i] == now[i]; }
    }
  }

  /** Where staging has got to: the backend sets in `done` have been synced. */
  ghost predicate Staging(c: Client, d: Desired, done: set<string>, managed: set<string>, staged: bool, lb: LoadBalancer, log: seq<Event>)
    requires done <= d.sets.Keys
    reads c
  {
    c.Valid() && c.touchedSets <= done
    && c.server == lb.(backendSets := c.server.backendSets)
    && SetsEnsured(d, done, map[], lb.backendSets, c.server.backendSets)
    && Suffix(log, c.log, EventIsUpdate(managed, staged))
  }

  method StageOne(c: Client, d: Desired, ghost done: set<string>, name: string, managed: set<string>, staged: bool,
                  ghost lb: LoadBalancer, ghost log: seq<Event>, ghost keeps: LoadBalancer -> bool)
    returns (r: Result<bool, UpdateError>)
    requires Lasting(d, keeps) && keeps(c.server)
    requires WellFormed(d) && done + {name} <= d.sets.Keys && done <= lb.backendSets.Keys
    requires name in lb.backendSets && name !in done
    requires Staging(c, d, done, managed, staged, lb, log)
    modifies c
    ensures c.Valid() && keeps(c.server) && c.touchedListeners == old(c.touchedListeners)
    ensures r.Ok? ==> Staging(c, d, done + {name}, managed, r.value, lb, log)
    ensures r.Err? ==> Suffix(log, c.log, EventIsUpdate(managed, true))
    ensures c.dependable && BackendSetSync(d.sets[name], lb.backendSets[name]).Ok? ==> r.Ok?
    ensures SetIsSynced(d, name, lb) ==> c.log == old(c.log) && c.server == old(c.server) && (r.Ok? ==> r.value == staged)
  {
    ghost var now, sent := c.server, c.log;
    var synced := c.SyncBackendSet(d, name, managed);
    var next := staged || synced.Err? || synced.value;
    SuffixGrows(log, sent, c.log, EventIsUpdate(managed, staged),
                (e: Event) => e.SetUpdated? && (synced.Ok? && StagingWrite(e, managed) ==> synced.value), EventIsUpdate(managed, next));
    if synced.Err? {
      return Err(synced.error);
    }
    assert Writes(d, SyncSet(name), now, c.server);
    OneSetSynced(d, done, name, lb.backendSets, now.backendSets, c.server.backendSets);
    return Ok(next);
  }

  ghost predicate SetsAreSynced(d: Desired, names: set<string>, lb: LoadBalancer)
    requires names <= d.sets.Keys
  {
    forall n :: n in names ==> SetIsSynced(d, n, lb)
  }

  /** The existing backend sets among those to stage. */
  method StageExisting(c: Client, d: Desired, stage: set<string>, managed: set<string>, lb: LoadBalancer, ghost keeps: LoadBalancer -> bool)
    returns (r: Result<bool, UpdateError>)
    requires Lasting(d, keeps) && keeps(c.server)
    requires c.Valid() && c.touchedSets == {} && c.server == lb
    requires WellFormed(d) && stage <= d.sets.Keys
    modifies c
    ensures c.Valid() && keeps(c.server) && c.touchedListeners == old(c.touchedListeners)
    ensures r.Ok? ==> Staging(c, d, stage * lb.backendSets.Keys, managed, r.value, lb, old(c.log))
    ensures r.Err? ==> Suffix(old(c.log), c.log, EventIsUpdate(managed, true))
    ensures c.dependable && SetsCanSync(d, stage, lb) ==> r.Ok?
    ensures SetsAreSynced(d, stage * lb.backendSets.Keys, lb) ==> c.log == old(c.log) && c.server == lb && (r.Ok? ==> !r.value)
  {
    var staged := false;
    var names := Sorting.List(stage * lb.backendSets.Keys);
    ghost var log := c.log;
    for i := 0 to |names|
      invariant Sorting.Elements(names[..i]) <= Sorting.Elements(names)
      invariant c.touchedListeners == old(c.touchedListeners) && keeps(c.server)
      invariant Staging(c, d, Sorting.Elements(names[..i]), managed, staged, lb, log)
      invariant SetsAreSynced(d, stage * lb.backendSets.Keys, lb) ==> c.log == log && c.server == lb && !staged
    {
      Sorting.NextElement(names, i);
      staged :- StageOne(c, d, Sorting.Elements(names[..i]), names[i], managed, staged, lb, log, keeps);
    }
    assert names[..|names|] == names;
    return Ok(staged);
  }

  /** Where creation has got to, from the backend sets `mid` that staging has left. */
  ghost predicate Creating(c: Client, d: Desired, initial: map<string, seq<Backend>>, held: set<string>, done: set<string>,
                          mid: LoadBalancer, log: seq<Event>)
    requires done <= d.sets.Keys
    reads c
  {
    c.Valid() && c.touchedSets <= held + done && held <= mid.backendSets.Keys
    && c.server == mid.(backendSets := c.server.backendSets)
    && c.server.backendSets.Keys == mid.backendSets.Keys + done
    && (forall n :: n in mid.backendSets ==> c.server.backendSets[n] == mid.backendSets[n])
    && (forall n :: n in done ==> Ok(c.server.backendSets[n]) == BackendSetCreate(d.sets[n], Lookup(initial, n, [])))
    && Suffix(log, c.log, (e: Event) => e.SetCreated?)
  }

  method CreateOne(c: Client, d: Desired, initial: map<string, seq<Backend>>, ghost held: set<string>, ghost done: set<string>, name: string,
                   ghost mid: LoadBalancer, ghost log: seq<Event>, ghost keeps: LoadBalancer -> bool)
    returns (r: Result<(), UpdateError>)
    requires Lasting(d, keeps) && keeps(c.server)
    requires WellFormed(d) && done + {name} <= d.sets.Keys && name !in mid.backendSets && name !in done
    requires Creating(c, d, initial, held, done, mid, log)
    modifies c
    ensures c.Valid() && keeps(c.server) && c.touchedListeners == old(c.touchedListeners)
    ensures r.Ok? ==> Creating(c, d, initial, held, done + {name}, mid, log)
    ensures r.Err? ==> Suffix(log, c.log, (e: Event) => e.SetCreated?)
    ensures c.dependable ==> r.Ok?
  {
    if c.dependable {
      CreationBringsTlsInPlace(d.sets[name], Lookup(initial, name, []));
    }
    var created :- BackendSetCreate(d.sets[name], Lookup(initial, name, []));
    ghost var sent, now := c.log, c.server;
    r := c.CreateBackendSet(name, created);
    if c.server != now {
      assert Writes(d, CreateSet(name, Lookup(initial, name, [])), now, c.server);
    }
    SuffixGrows(log, sent, c.log, (e: Event) => e.SetCreated?, (e: Event) => e.SetCreated?, (e: Event) => e.SetCreated?);
  }

  method CreateMissing(c: Client, d: Desired, initial: map<string, seq<Backend>>, missing: set<string>, ghost keeps: LoadBalancer -> bool)
    returns (r: Result<(), UpdateError>)
    requires Lasting(d, keeps) && keeps(c.server)
    requires WellFormed(d) && c.Valid() && c.touchedSets <= c.server.backendSets.Keys
    requires missing <= d.sets.Keys && missing !! c.server.backendSets.Keys
    modifies c
    ensures c.Valid() && keeps(c.server) && c.touchedListeners == old(c.touchedListeners)
    ensures r.Ok? ==> Creating(c, d, initial, old(c.touchedSets), missing, old(c.server), old(c.log))
    ensures r.Err? ==> Suffix(old(c.log), c.log, (e: Event) => e.SetCreated?)
    ensures c.dependable ==> r.Ok?
    ensures missing == {} ==> c.log == old(c.log) && c.server == old(c.server)
  {
    var names := Sorting.List(missing);
    ghost var log, mid, held := c.log, c.server, c.touchedSets;
    assert forall n :: n in missing ==> n !in mid.backendSets;
    for i := 0 to |names|
      invariant Sorting.Elements(names[..i]) <= missing
      invariant c.touchedListeners == old(c.touchedListeners) && keeps(c.server)
      invariant Creating(c, d, initial, held, Sorting.Elements(names[..i]), mid, log)
      invariant i == 0 ==> c.log == log && c.server == mid
    {
      Sorting.NextElement(names, i);
      var _ :- CreateOne(c, d, initial, held, Sorting.Elements(names[..i]), names[i], mid, log, keeps);
    }
    assert names[..|names|] == names;
    assert names != [] ==> names[0] in missing;
    return Ok(());
  }

  /** Staging and creation together bring every backend set of `stage` into being. */
  lemma AllEnsured(d: Desired, stage: set<string>, initial: map<string, seq<Backend>>,
                   before: map<string, BackendSet>, mid: map<string, BackendSet>, after: map<string, BackendSet>)
    requires stage <= d.sets.Keys
    requires SetsEnsured(d, stage * before.Keys, map[], before, mid)
    requires after.Keys == mid.Keys + (stage - before.Keys)
    requires forall n :: n in mid ==> after[n] == mid[n]
    requires forall n :: n in stage - before.Keys ==> Ok(after[n]) == BackendSetCreate(d.sets[n], Lookup(initial, n, []))
    ensures SetsEnsured(d, stage, initial, before, after)
  {
  }

  lemma EnsuredIsStaged(d: Desired, stage: set<string>, initial: map<string, seq<Backend>>, before: map<string, BackendSet>, lb: LoadBalancer)
    requires WellFormed(d) && stage <= d.sets.Keys && SetsEnsured(d, stage, initial, before, lb.backendSets)
    ensures Staged(d, stage, lb)
  {
    forall n | n in stage ensures n in lb.backendSets && TlsInPlace(d.sets[n], lb.backendSets[n].ssl) {
      if n in before {
        SyncBringsTlsInPlace(d.sets[n], before[n]);
      } else {
        CreationBringsTlsInPlace(d.sets[n], Lookup(initial, n, []));
      }
    }
  }

  /** Create what does not exist, after the rest has been staged. */
  method CreateRest(c: Client, d: Desired, stage: set<string>, managed: set<string>, initial: map<string, seq<Backend>>, lb: LoadBalancer,
                    staged: bool, ghost log0: seq<Event>, ghost keeps: LoadBalancer -> bool)
    returns (r: Result<bool, UpdateError>)
    requires Lasting(d, keeps) && keeps(c.server)
    requires WellFormed(d) && stage <= d.sets.Keys && Staging(c, d, stage * lb.backendSets.Keys, managed, staged, lb, log0)
    modifies c
    ensures c.Valid() && keeps(c.server) && c.touchedListeners == old(c.touchedListeners)
    ensures r.Ok? ==> c.server == lb.(backendSets := c.server.backendSets) && c.touchedSets <= stage
    ensures r.Ok? ==> SetsEnsured(d, stage, initial, lb.backendSets, c.server.backendSets)
    ensures Suffix(log0, c.log, BeforeListeners(managed, r.Err? || r.value))
    ensures c.dependable ==> r.Ok?
    ensures stage <= lb.backendSets.Keys ==> c.log == old(c.log) && c.server == old(c.server) && (r.Ok? ==> r.value == staged)
  {
    ghost var mid, log1 := c.server, c.log;
    var missing := stage - lb.backendSets.Keys;
    var again := missing != {} || staged;
    var created := CreateMissing(c, d, initial, missing, keeps);
    if missing == {} {
      JoinSuffixes(log0, log1, c.log, EventIsUpdate(managed, staged), (e: Event) => false, BeforeListeners(managed, again));
    } else {
      JoinSuffixes(log0, log1, c.log, EventIsUpdate(managed, staged), (e: Event) => e.SetCreated?, BeforeListeners(managed, again));
    }
    if created.Err? {
      return Err(created.error);
    }
    AllEnsured(d, stage, initial, lb.backendSets, mid.backendSets, c.server.backendSets);
    return Ok(again);
  }

  /** Stage what exists, create what does not; tells whether the load balancer must be read again. */
  method StageAndCreate(c: Client, d: Desired, stage: set<string>, managed: set<string>, initial: map<string, seq<Backend>>, lb: LoadBalancer,
                        ghost keeps: LoadBalancer -> bool)
    returns (r: Result<bool, UpdateError>)
    requires Lasting(d, keeps) && keeps(c.server)
    requires c.Valid() && c.touchedSets == {} && c.server == lb
    requires WellFormed(d) && stage <= d.sets.Keys
    modifies c
    ensures c.Valid() && keeps(c.server) && c.touchedListeners == old(c.touchedListeners)
    ensures r.Ok? ==> c.server == lb.(backendSets := c.server.backendSets) && c.touchedSets <= stage
    ensures r.Ok? ==> SetsEnsured(d, stage, initial, lb.backendSets, c.server.backendSets)
    ensures Suffix(old(c.log), c.log, BeforeListeners(managed, r.Err? || r.value))
    ensures c.dependable && SetsCanSync(d, stage, lb) ==> r.Ok?
    ensures SetsAreSynced(d, stage, lb) ==> c.log == old(c.log) && c.server == lb && (r.Ok? ==> !r.value)
  {
    ghost var log0 := c.log;
    var staged := StageExisting(c, d, stage, managed, lb, keeps);
    if staged.Err? {
      JoinSuffixes(log0, log0, c.log, (e: Event) => false, EventIsUpdate(managed, true), BeforeListeners(managed, true));
      return Err(staged.error);
    }
    r := CreateRest(c, d, stage, managed, initial, lb, staged.value, log0, keeps);
  }

  function BeforeListeners(managed: set<string>, again: bool): Event -> bool {
    (e: Event) => !ListenerWrite(e) && (StagingWrite(e, managed) ==> again)
  }

  /** No listener write yet, and if there was a staging write, the last event is a fresh read. */
  ghost predicate StagedAndRead(before: seq<Event>, log: seq<Event>, managed: set<string>) {
    before <= log
    && (forall i :: |before| <= i < |log| ==> !ListenerWrite(log[i]))
    && forall i :: |before| <= i < |log| && StagingWrite(log[i], managed) ==> log[|log| - 1].Refreshed?
  }

  /** Everything up to the first listener write. */
  method StageBackendSets(c: Client, d: Desired, stage: set<string>, managed: set<string>, initial: map<string, seq<Backend>>, lb: LoadBalancer,
                          ghost keeps: LoadBalancer -> bool)
    returns (r: Result<LoadBalancer, UpdateError>)
    requires Lasting(d, keeps) && keeps(c.server)
    requires c.Valid() && c.touchedSets == {} && c.server == lb
    requires WellFormed(d) && stage <= d.sets.Keys
    modifies c
    ensures c.Valid() && keeps(c.server) && c.touchedListeners == old(c.touchedListeners)
    ensures r.Ok? ==> c.server == lb.(backendSets := c.server.backendSets) && c.touchedSets <= stage
    ensures r.Ok? ==> r.value.listeners == lb.listeners
    ensures r.Ok? ==> SetsEnsured(d, stage, initial, lb.backendSets, c.server.backendSets)
    ensures r.Ok? ==> StagedAndRead(old(c.log), c.log, managed)
    ensures Suffix(old(c.log), c.log, (e: Event) => !ListenerWrite(e))
    ensures c.dependable && SetsCanSync(d, stage, lb) ==> r.Ok?
    ensures SetsAreSynced(d, stage, lb) ==> c.log == old(c.log) && c.server == lb
  {
    var again :- StageAndCreate(c, d, stage, managed, initial, lb, keeps);
    if again {
      var latest :- c.RefreshLoadBalancer();
      return Ok(latest.lb);
    }
    return Ok(lb);
  }

  lemma JoinSuffixes(a: seq<Event>, b: seq<Event>, c: seq<Event>, p: Event -> bool, q: Event -> bool, r: Event -> bool)
    requires Suffix(a, b, p) && Suffix(b, c, q)
    requires forall e :: (p(e) || q(e)) ==> r(e)
    ensures Suffix(a, c, r)
  {
    forall i | |a| <= i < |c| ensures r(c[i]) {
      if i < |b| { assert c[i] == b[i]; }
    }
  }

  // ---- Listeners -------------------------------------------------------------------------

  /** A listener write that finds the backend sets as they were left by the staging. */
  predicate SafeWrite(e: Event, staged: LoadBalancer, canonical: bool) {
    e.Refreshed?
    || (e.ListenerSent? && CarriesPolicy(e) && e.before.backendSets == staged.backendSets
        && (canonical ==> e.listener.defaultBs in staged.backendSets))
  }

  function IsSafeWrite(staged: LoadBalancer, canonical: bool): Event -> bool {
    (e: Event) => SafeWrite(e, staged, canonical)
  }

  ghost predicate SyncedFrom(d: Desired, before: Listener, after: Listener) {
    ListenerSync(GoalFor(d, before.port), before).Ok? && after == ListenerAfterSync(GoalFor(d, before.port), before)
  }

  /** Where the sync of existing listeners has got to. */
  ghost predicate Syncing(c: Client, d: Desired, done: set<string>, base: LoadBalancer, log: seq<Event>) reads c {
    c.Valid() && c.touchedListeners <= done && done <= base.listeners.Keys
    && c.server == base.(listeners := c.server.listeners)
    && c.server.listeners.Keys == base.listeners.Keys
    && (forall n :: n in base.listeners && n !in done ==> c.server.listeners[n] == base.listeners[n])
    && (forall n :: n in done ==> SyncedFrom(d, base.listeners[n], c.server.listeners[n]))
    && Suffix(log, c.log, IsSafeWrite(base, true))
  }

  /** The listeners on `ports` can be pointed at their default backend sets. */
  ghost predicate DefaultsExist(d: Desired, ports: set<int>, lb: LoadBalancer) {
    forall p :: p in ports ==> p in d.listeners && d.listeners[p].defaultBs != "" && d.listeners[p].defaultBs in lb.backendSets
  }

  method SyncOne(c: Client, d: Desired, ghost ports: set<int>, ghost done: set<string>, name: string,
                 ghost base: LoadBalancer, ghost log: seq<Event>, ghost keeps: LoadBalancer -> bool)
    returns (r: Result<(), UpdateError>)
    requires Lasting(d, keeps) && keeps(c.server)
    requires DefaultsExist(d, ports, base)
    requires name in base.listeners && base.listeners[name].port in ports && name !in done
    requires Syncing(c, d, done, base, log)
    modifies c
    ensures c.Valid() && keeps(c.server) && c.touchedSets == old(c.touchedSets)
    ensures r.Ok? ==> Syncing(c, d, done + {name}, base, log)
    ensures Suffix(log, c.log, IsSafeWrite(base, true))
    ensures c.dependable && CanSync(d, name, base) ==> r.Ok?
    ensures ListenerIsSynced(d, name, base) ==> c.log == old(c.log) && c.server == old(c.server)
  {
    ghost var sent, server := c.log, c.server;
    assert CanSync(d, name, base) ==> CanSync(d, name, server);
    r := c.SyncListener(d, name);
    if c.server != server {
      assert Writes(d, SyncOf(name), server, c.server);
    }
    SuffixGrows(log, sent, c.log, IsSafeWrite(base, true),
                (e: Event) => e.ListenerSent? && e.before == server && e.name == name && NamesGoalSet(d, name, e) && CarriesPolicy(e),
                IsSafeWrite(base, true));
  }

  /** No sync of a listener on these ports fails. */
  ghost predicate ListenersCanSync(d: Desired, ports: set<int>, lb: LoadBalancer) {
    forall n :: n in lb.listeners && lb.listeners[n].port in ports ==> CanSync(d, n, lb)
  }

  ghost predicate ListenersAreSynced(d: Desired, ports: set<int>, lb: LoadBalancer) {
    forall n :: n in lb.listeners && lb.listeners[n].port in ports ==> ListenerIsSynced(d, n, lb)
  }

  method SyncExisting(c: Client, d: Desired, ports: set<int>, listeners: map<string, Listener>, ghost keeps: LoadBalancer -> bool)
    returns (r: Result<(), UpdateError>)
    requires Lasting(d, keeps) && keeps(c.server)
    requires c.Valid() && c.touchedListeners == {} && c.server.listeners == listeners && DefaultsExist(d, ports, c.server)
    modifies c
    ensures c.Valid() && keeps(c.server) && c.touchedSets == old(c.touchedSets)
    ensures r.Ok? ==> Syncing(c, d, set n | n in listeners && listeners[n].port in ports, old(c.server), old(c.log))
    ensures Suffix(old(c.log), c.log, IsSafeWrite(old(c.server), true))
    ensures c.dependable && ListenersCanSync(d, ports, old(c.server)) ==> r.Ok?
    ensures ListenersAreSynced(d, ports, old(c.server)) ==> c.log == old(c.log) && c.server == old(c.server)
  {
    var names := Sorting.List(set n | n in listeners && listeners[n].port in ports);
    ghost var log, base := c.log, c.server;
    for i := 0 to |names|
      invariant Sorting.Elements(names[..i]) <= Sorting.Elements(names)
      invariant c.touchedSets == old(c.touchedSets) && keeps(c.server)
      invariant Syncing(c, d, Sorting.Elements(names[..i]), base, log)
      invariant ListenersAreSynced(d, ports, base) ==> c.log == log && c.server == base
    {
      Sorting.NextElement(names, i);
      var _ :- SyncOne(c, d, ports, Sorting.Elements(names[..i]), names[i], base, log, keeps);
    }
    assert names[..|names|] == names;
    return Ok(());
  }

  /** Where the creation of listeners has got to, from the listeners of `mid`. */
  ghost predicate Adding(c: Client, d: Desired, held: set<string>, done: set<int>, mid: LoadBalancer, canonical: bool, log: seq<Event>) reads c {
    c.Valid()
    && c.server == mid.(listeners := c.server.listeners)
    && Suffix(log, c.log, IsSafeWrite(mid, canonical))
    && (canonical ==>
          c.touchedListeners <= held + NamesOf(done) && held <= mid.listeners.Keys
          && c.server.listeners.Keys == mid.listeners.Keys + NamesOf(done)
          && (forall n :: n in mid.listeners ==> c.server.listeners[n] == mid.listeners[n])
          && (forall p :: p in done ==> p in d.listeners && Ok(c.server.listeners[ListenerName(p)]) == ListenerCreate(d.listeners[p])))
  }

  /** No listener has the name of a port that is still to be created. */
  ghost predicate NamesFree(ports: set<int>, lb: LoadBalancer) {
    forall p :: p in ports ==> ListenerName(p) !in lb.listeners
  }

  lemma NewNameIsFree(done: set<int>, p: int)
    requires p !in done
    ensures ListenerName(p) !in NamesOf(done)
  {
    forall q | q in done && ListenerName(q) == ListenerName(p) ensures false {
      ListenerNameInjective(p, q);
    }
  }

  /** Create the listener, unless it is there after all. */
  method AddNow(c: Client, d: Desired, port: int, ghost mid: LoadBalancer, ghost canonical: bool, ghost log: seq<Event>,
                found: bool, ghost keeps: LoadBalancer -> bool)
    returns (r: Result<(), UpdateError>)
    requires Lasting(d, keeps) && keeps(c.server)
    requires port in d.listeners && d.listeners[port].port == port && DefaultsExist(d, {port}, mid)
    requires c.Valid() && c.Current() && found == (ListenerName(port) in c.server.listeners) && (canonical ==> !found)
    requires c.server.backendSets == mid.backendSets && Suffix(log, c.log, IsSafeWrite(mid, canonical))
    modifies c
    ensures c.Valid() && keeps(c.server) && c.touchedSets == old(c.touchedSets)
    ensures c.touchedListeners <= old(c.touchedListeners) + {ListenerName(port)}
    ensures c.server == old(c.server).(listeners := c.server.listeners)
    ensures Suffix(log, c.log, IsSafeWrite(mid, canonical))
    ensures r.Ok? && canonical && ListenerName(port) !in old(c.touchedListeners) ==>
      ListenerCreate(d.listeners[port]).Ok? && PutOneListener(ListenerName(port), ListenerCreate(d.listeners[port]).value, old(c.server), c.server)
    ensures c.dependable && canonical && ListenerCreate(d.listeners[port]).Ok? ==> r.Ok?
  {
    var name, goal := ListenerName(port), d.listeners[port];
    ghost var log2, server := c.log, c.server;
    if found {
      r := c.SyncListener(d, name);
      SuffixGrows(log, log2, c.log, IsSafeWrite(mid, canonical),
                  (e: Event) => e.ListenerSent? && e.before == server && e.name == name && NamesGoalSet(d, name, e) && CarriesPolicy(e),
                  IsSafeWrite(mid, canonical));
      if c.server != server {
        assert Writes(d, SyncOf(name), server, c.server);
      }
      return;
    }
    var resolved :- Resolved(TlsPolicy.ListenerResource(Http2Family(goal.protocol)), goal.ssl, goal.explicit, true, None);
    r := c.CreateListener(name, goal, resolved.ssl);
    SuffixGrows(log, log2, c.log, IsSafeWrite(mid, canonical),
                (e: Event) => e == ListenerSent(name, NewListener(goal, resolved.ssl), server) && name !in e.before.listeners,
                IsSafeWrite(mid, canonical));
    if c.server != server {
      assert Writes(d, CreateOn(port), server, c.server);
    }
  }

  method AddOne(c: Client, d: Desired, ghost held: set<string>, ghost done: set<int>, port: int,
                ghost mid: LoadBalancer, ghost canonical: bool, ghost log: seq<Event>, ghost keeps: LoadBalancer -> bool)
    returns (r: Result<(), UpdateError>)
    requires Lasting(d, keeps) && keeps(c.server)
    requires port in d.listeners && port !in done && d.listeners[port].port == port
    requires DefaultsExist(d, {port}, mid)
    requires canonical ==> ListenerName(port) !in mid.listeners
    requires Adding(c, d, held, done, mid, canonical, log)
    modifies c
    ensures c.Valid() && keeps(c.server) && c.touchedSets == old(c.touchedSets)
    ensures r.Ok? ==> Adding(c, d, held, done + {port}, mid, canonical, log)
    ensures Suffix(log, c.log, IsSafeWrite(mid, canonical))
    ensures c.dependable && canonical && ListenerCreate(d.listeners[port]).Ok? ==> r.Ok?
  {
    NewNameIsFree(done, port);
    var name := ListenerName(port);
    ghost var log1 := c.log;
    var latest := c.RefreshLoadBalancer();
    SuffixGrows(log, log1, c.log, IsSafeWrite(mid, canonical), (e: Event) => e.Refreshed?, IsSafeWrite(mid, canonical));
    if latest.Err? {
      return Err(latest.error);
    }
    r := AddNow(c, d, port, mid, canonical, log, name in latest.value.lb.listeners, keeps);
    if r.Ok? && canonical {
      assert NamesOf(done + {port}) == NamesOf(done) + {name};
    }
  }

  /** All these listeners can be created. */
  ghost predicate CanCreate(d: Desired, ports: set<int>) {
    forall p :: p in ports ==> p in d.listeners && ListenerCreate(d.listeners[p]).Ok?
  }

  method CreateMissingListeners(c: Client, d: Desired, ports: set<int>, ghost canonical: bool, ghost keeps: LoadBalancer -> bool)
    returns (r: Result<(), UpdateError>)
    requires Lasting(d, keeps) && keeps(c.server)
    requires c.Valid() && ports <= d.listeners.Keys && DefaultsExist(d, ports, c.server)
    requires forall p :: p in ports ==> d.listeners[p].port == p
    requires canonical ==> c.touchedListeners <= c.server.listeners.Keys && NamesFree(ports, c.server)
    modifies c
    ensures c.Valid() && keeps(c.server) && c.touchedSets == old(c.touchedSets)
    ensures r.Ok? ==> Adding(c, d, old(c.touchedListeners), ports, old(c.server), canonical, old(c.log))
    ensures Suffix(old(c.log), c.log, IsSafeWrite(old(c.server), canonical))
    ensures c.dependable && canonical && CanCreate(d, ports) ==> r.Ok?
    ensures ports == {} ==> c.log == old(c.log) && c.server == old(c.server)
  {
    var todo := Sorting.List(ports);
    ghost var log, mid, held := c.log, c.server, c.touchedListeners;
    for i := 0 to |todo|
      invariant Sorting.Elements(todo[..i]) <= Sorting.Elements(todo)
      invariant c.touchedSets == old(c.touchedSets) && keeps(c.server)
      invariant Adding(c, d, held, Sorting.Elements(todo[..i]), mid, canonical, log)
      invariant i == 0 ==> c.log == log && c.server == mid
    {
      Sorting.NextElement(todo, i);
      var _ :- AddOne(c, d, held, Sorting.Elements(todo[..i]), todo[i], mid, canonical, log, keeps);
    }
    assert todo[..|todo|] == todo;
    assert todo != [] ==> todo[0] in ports;
    return Ok(());
  }

  // ---- Deletions -------------------------------------------------------------------------

  /** `after` is `before` without some of the listed listeners. */
  ghost predicate LessListeners(names: set<string>, before: LoadBalancer, after: LoadBalancer) {
    after == before.(listeners := after.listeners)
    && after.listeners.Keys <= before.listeners.Keys && before.listeners.Keys - names <= after.listeners.Keys
    && forall n :: n in after.listeners ==> after.listeners[n] == before.listeners[n]
  }

  ghost predicate LessSets(names: set<string>, before: LoadBalancer, after: LoadBalancer) {
    after == before.(backendSets := after.backendSets)
    && after.backendSets.Keys <= before.backendSets.Keys && before.backendSets.Keys - names <= after.backendSets.Keys
    && forall n :: n in after.backendSets ==> after.backendSets[n] == before.backendSets[n]
  }

  function IsListenerDeletion(mid: LoadBalancer): Event -> bool {
    (e: Event) => e.ListenerDeleted? && e.before.backendSets == mid.backendSets
  }

  /** Stops at the first deletion that is refused. */
  method DeleteListeners(c: Client, d: Desired, ports: set<int>, ghost keeps: LoadBalancer -> bool) returns (r: Result<(), UpdateError>)
    requires Lasting(d, keeps) && keeps(c.server)
    requires c.Valid() && ports !! d.listeners.Keys
    modifies c
    ensures c.Valid() && keeps(c.server) && c.touchedSets == old(c.touchedSets)
    ensures LessListeners(NamesOf(ports), old(c.server), c.server)
    ensures r.Ok? && NamesOf(ports) !! old(c.touchedListeners) ==> NamesOf(ports) !! c.server.listeners.Keys
    ensures Suffix(old(c.log), c.log, IsListenerDeletion(old(c.server)))
    ensures c.dependable ==> r.Ok?
    ensures ports == {} ==> c.log == old(c.log) && c.server == old(c.server)
  {
    var todo := Sorting.List(ports);
    ghost var log, mid := c.log, c.server;
    for i := 0 to |todo|
      invariant Sorting.Elements(todo[..i]) <= ports
      invariant c.Valid() && keeps(c.server) && c.touchedSets == old(c.touchedSets)
      invariant c.touchedListeners <= old(c.touchedListeners) + NamesOf(Sorting.Elements(todo[..i]))
      invariant LessListeners(NamesOf(ports), mid, c.server)
      invariant NamesOf(ports) !! old(c.touchedListeners) ==> NamesOf(Sorting.Elements(todo[..i])) !! c.server.listeners.Keys
      invariant Suffix(log, c.log, IsListenerDeletion(mid))
      invariant i == 0 ==> c.log == log && c.server == mid
    {
      Sorting.NextElement(todo, i);
      NewNameIsFree(Sorting.Elements(todo[..i]), todo[i]);
      ghost var sent, server, name := c.log, c.server, ListenerName(todo[i]);
      assert NamesOf(Sorting.Elements(todo[..i + 1])) == NamesOf(Sorting.Elements(todo[..i])) + {name};
      r := c.DeleteListener(ListenerName(todo[i]));
      SuffixGrows(log, sent, c.log, IsListenerDeletion(mid), (e: Event) => e == ListenerDeleted(name, server), IsListenerDeletion(mid));
      if c.server != server {
        assert Writes(d, DropListener(todo[i]), server, c.server);
      }
      if r.Err? {
        return;
      }
    }
    assert todo[..|todo|] == todo;
    assert todo != [] ==> todo[0] in ports;
    return Ok(());
  }

  method DeleteBackendSets(c: Client, d: Desired, names: set<string>, ghost keeps: LoadBalancer -> bool) returns (r: Result<(), UpdateError>)
    requires Lasting(d, keeps) && keeps(c.server)
    requires c.Valid() && names !! d.sets.Keys
    modifies c
    ensures c.Valid() && keeps(c.server)
    ensures LessSets(names, old(c.server), c.server)
    ensures r.Ok? && names !! old(c.touchedSets) ==> names !! c.server.backendSets.Keys
    ensures Suffix(old(c.log), c.log, (e: Event) => e.SetDeleted?)
    ensures c.dependable && (forall n :: n in names ==> !Referenced(old(c.server), n)) ==> r.Ok?
    ensures names == {} ==> c.log == old(c.log) && c.server == old(c.server)
  {
    var todo := Sorting.List(names);
    ghost var log, mid := c.log, c.server;
    for i := 0 to |todo|
      invariant Sorting.Elements(todo[..i]) <= names
      invariant c.Valid() && keeps(c.server)
      invariant c.touchedSets <= old(c.touchedSets) + Sorting.Elements(todo[..i])
      invariant LessSets(names, mid, c.server)
      invariant names !! old(c.touchedSets) ==> Sorting.Elements(todo[..i]) !! c.server.backendSets.Keys
      invariant Suffix(log, c.log, (e: Event) => e.SetDeleted?)
      invariant i == 0 ==> c.log == log && c.server == mid
    {
      Sorting.NextElement(todo, i);
      ghost var sent, server := c.log, c.server;
      assert Referenced(server, todo[i]) ==> Referenced(mid, todo[i]);
      r := c.DeleteBackendSet(todo[i]);
      SuffixGrows(log, sent, c.log, (e: Event) => e.SetDeleted?, (e: Event) => e == SetDeleted(todo[i], server), (e: Event) => e.SetDeleted?);
      if c.server != server {
        assert Writes(d, DropSet(todo[i]), server, c.server);
      }
      if r.Err? {
        return;
      }
    }
    assert todo[..|todo|] == todo;
    assert todo != [] ==> todo[0] in names;
    return Ok(());
  }

  // ---- One reconciliation ----------------------------------------------------------------

  function PortsOf(lb: LoadBalancer): set<int> {
    set n | n in lb.listeners :: lb.listeners[n].port
  }

  lemma StaleNamesAreFree(d: Desired, ports: set<int>, names: set<int>)
    requires ports <= d.listeners.Keys && names !! d.listeners.Keys
    ensures NamesOf(names) !! NamesOf(ports)
  {
    forall p, q | p in names && q in ports && ListenerName(p) == ListenerName(q) ensures false {
      ListenerNameInjective(p, q);
    }
  }

  lemma MissingNamesAreFree(ports: set<int>, lb: LoadBalancer)
    requires Canonical(lb)
    ensures NamesFree(ports - PortsOf(lb), lb)
  {
    forall p | p in ports - PortsOf(lb) ensures ListenerName(p) !in lb.listeners {
      if ListenerName(p) in lb.listeners {
        ListenerNameInjective(lb.listeners[ListenerName(p)].port, p);
      }
    }
  }

  lemma OwnNames(ports: set<int>, lb: LoadBalancer)
    requires Canonical(lb)
    ensures (set n | n in lb.listeners && lb.listeners[n].port in ports) <= NamesOf(ports)
    ensures NamesOf(ports - PortsOf(lb)) <= NamesOf(ports)
  {
  }

  /** The listener half: sync the ingress's listeners, then create the missing ones. */
  method EnsureListeners(c: Client, d: Desired, ports: set<int>, listeners: map<string, Listener>, ghost keeps: LoadBalancer -> bool)
    returns (r: Result<(), UpdateError>)
    requires Lasting(d, keeps) && keeps(c.server)
    requires WellFormed(d) && ports <= d.listeners.Keys && DefaultsExist(d, ports, c.server)
    requires c.Valid() && c.touchedListeners == {} && c.server.listeners == listeners
    modifies c
    ensures c.Valid() && keeps(c.server) && c.touchedSets == old(c.touchedSets)
    ensures Suffix(old(c.log), c.log, IsSafeWrite(old(c.server), Canonical(old(c.server))))
    ensures r.Ok? ==> c.server == old(c.server).(listeners := c.server.listeners)
    ensures r.Ok? && Canonical(old(c.server)) ==>
      c.touchedListeners <= NamesOf(ports) && ListenersEnsured(d, ports, listeners, c.server.listeners)
    ensures c.dependable && Canonical(old(c.server)) && ListenersCanSync(d, ports, old(c.server)) && CanCreate(d, ports - PortsOf(old(c.server))) ==>
      r.Ok?
    ensures ListenersAreSynced(d, ports, old(c.server)) && ports <= PortsOf(old(c.server)) ==> c.log == old(c.log) && c.server == old(c.server)
  {
    ghost var before, canonical, log := c.server, Canonical(c.server), c.log;
    var actual := set n | n in listeners :: listeners[n].port;
    assert actual == PortsOf(before);
    var _ :- SyncExisting(c, d, ports, listeners, keeps);
    r := AddMissing(c, d, ports, actual, before, log, keeps);
  }

  /** Create the missing listeners, after the others have been synced. */
  method AddMissing(c: Client, d: Desired, ports: set<int>, actual: set<int>, ghost before: LoadBalancer, ghost log: seq<Event>,
                    ghost keeps: LoadBalancer -> bool)
    returns (r: Result<(), UpdateError>)
    requires Lasting(d, keeps) && keeps(c.server)
    requires WellFormed(d) && ports <= d.listeners.Keys && DefaultsExist(d, ports, before) && actual == PortsOf(before)
    requires Syncing(c, d, (set n | n in before.listeners && before.listeners[n].port in ports), before, log)
    modifies c
    ensures c.Valid() && keeps(c.server) && c.touchedSets == old(c.touchedSets)
    ensures Suffix(log, c.log, IsSafeWrite(before, Canonical(before)))
    ensures r.Ok? ==> c.server == before.(listeners := c.server.listeners)
    ensures r.Ok? && Canonical(before) ==>
      c.touchedListeners <= NamesOf(ports) && ListenersEnsured(d, ports, before.listeners, c.server.listeners)
    ensures c.dependable && Canonical(before) && CanCreate(d, ports - actual) ==> r.Ok?
    ensures ports <= actual ==> c.log == old(c.log) && c.server == old(c.server)
  {
    ghost var mid, sent, canonical := c.server, c.log, Canonical(before);
    if canonical {
      MissingNamesAreFree(ports, before);
      OwnNames(ports, before);
    }
    r := CreateMissingListeners(c, d, ports - actual, canonical, keeps);
    JoinSuffixes(log, sent, c.log, IsSafeWrite(before, true), IsSafeWrite(mid, canonical), IsSafeWrite(before, canonical));
    if r.Ok? && canonical {
      ListenersComeTogether(d, ports, before, mid, c.server);
    }
  }

  lemma PortHasItsName(lb: LoadBalancer, p: int)
    requires Canonical(lb) && p in PortsOf(lb)
    ensures ListenerName(p) in lb.listeners
  {
  }

  lemma ListenersComeTogether(d: Desired, ports: set<int>, before: LoadBalancer, mid: LoadBalancer, after: LoadBalancer)
    requires ports <= d.listeners.Keys && Canonical(before)
    requires mid.listeners.Keys == before.listeners.Keys
    requires forall n :: n in before.listeners && before.listeners[n].port !in ports ==> mid.listeners[n] == before.listeners[n]
    requires forall n :: n in before.listeners && before.listeners[n].port in ports ==> SyncedFrom(d, before.listeners[n], mid.listeners[n])
    requires after.listeners.Keys == mid.listeners.Keys + NamesOf(ports - PortsOf(before))
    requires forall n :: n in mid.listeners ==> after.listeners[n] == mid.listeners[n]
    requires forall p :: p in ports - PortsOf(before) ==> Ok(after.listeners[ListenerName(p)]) == ListenerCreate(d.listeners[p])
    ensures ListenersEnsured(d, ports, before.listeners, after.listeners)
  {
    forall p | p in ports ensures p in PortsOf(before) ==> ListenerName(p) in before.listeners {
      if p in PortsOf(before) { PortHasItsName(before, p); }
    }
    assert after.listeners.Keys == before.listeners.Keys + (set p | p in ports :: ListenerName(p));
  }

  /** The backend set is the default of a listener that stays, or the target of a routing rule. */
  predicate HeldWithout(gone: set<string>, lb: LoadBalancer, n: string) {
    (exists k :: k in lb.listeners && k !in gone && lb.listeners[k].defaultBs == n)
    || exists k, i :: k in lb.policies && 0 <= i < |lb.policies[k]| && lb.policies[k][i].backendSet == n
  }

  /** Deletes what the class does not want: listeners first, then backend sets. A dependable server lets
      the listeners go, and the backend sets unless something still refers to one of them. */
  method DeleteStale(c: Client, d: Desired, ports: set<int>, sets: set<string>, ghost keeps: LoadBalancer -> bool)
    returns (r: Result<(), UpdateError>)
    requires Lasting(d, keeps) && keeps(c.server)
    requires c.Valid()
    requires ports !! d.listeners.Keys && sets !! d.sets.Keys
    modifies c
    ensures c.Valid() && keeps(c.server)
    ensures Canonical(old(c.server)) ==> Trimmed(d, old(c.server), c.server)
    ensures (r.Ok? || c.dependable) && NamesOf(ports) !! old(c.touchedListeners) ==> NamesOf(ports) !! c.server.listeners.Keys
    ensures r.Ok? && sets !! old(c.touchedSets) ==> sets !! c.server.backendSets.Keys
    ensures c.dependable && NamesOf(ports) !! old(c.touchedListeners) && (forall n :: n in sets ==> !HeldWithout(NamesOf(ports), old(c.server), n)) ==> r.Ok?
    ensures Suffix(old(c.log), c.log, IsDeletion(old(c.server)))
    ensures ports == {} && sets == {} ==> c.log == old(c.log) && c.server == old(c.server)
  {
    ghost var before, log := c.server, c.log;
    var deleted := DeleteListeners(c, d, ports, keeps);
    ghost var mid, sent := c.server, c.log;
    if Canonical(before) {
      LessIsTrimmed(d, ports, sets, before, mid, mid);
    }
    if deleted.Err? {
      JoinSuffixes(log, sent, c.log, IsListenerDeletion(before), (e: Event) => false, IsDeletion(before));
      return Err(deleted.error);
    }
    forall n | Referenced(mid, n) && NamesOf(ports) !! mid.listeners.Keys ensures HeldWithout(NamesOf(ports), before, n) {
      StillHeld(NamesOf(ports), before, mid, n);
    }
    r := DeleteBackendSets(c, d, sets, keeps);
    JoinSuffixes(log, sent, c.log, IsListenerDeletion(before), (e: Event) => e.SetDeleted?, IsDeletion(before));
    if Canonical(before) {
      LessIsTrimmed(d, ports, sets, before, mid, c.server);
    }
  }

  lemma StillHeld(gone: set<string>, before: LoadBalancer, mid: LoadBalancer, n: string)
    requires LessListeners(gone, before, mid) && gone !! mid.listeners.Keys && Referenced(mid, n)
    ensures HeldWithout(gone, before, n)
  {
  }

  function IsDeletion(mid: LoadBalancer): Event -> bool {
    (e: Event) => e.SetDeleted? || (e.ListenerDeleted? && e.before.backendSets == mid.backendSets)
  }

  lemma LessIsTrimmed(d: Desired, ports: set<int>, sets: set<string>, before: LoadBalancer, mid: LoadBalancer, after: LoadBalancer)
    requires Canonical(before) && ports !! d.listeners.Keys && sets !! d.sets.Keys
    requires LessListeners(NamesOf(ports), before, mid) && LessSets(sets, mid, after)
    ensures Trimmed(d, before, after)
  {
    forall n | n in before.listeners && before.listeners[n].port in d.listeners ensures n in after.listeners {
      if n in NamesOf(ports) {
        var p :| p in ports && ListenerName(p) == n;
        ListenerNameInjective(p, before.listeners[n].port);
      }
    }
  }

  /** The backend sets to stage exist and meet their TLS goals when listener requests are made. */
  lemma SafetyOfRun(d: Desired, stage: set<string>, managed: set<string>, a: seq<Event>, b: seq<Event>, c: seq<Event>, mid: LoadBalancer)
    requires StagedAndRead(a, b, managed) && Staged(d, stage, mid)
    requires Suffix(b, c, (e: Event) => AfterStaging(e, mid))
    ensures StagingIsSafe(d, stage, managed, a, c)
  {
    assert forall i :: |a| <= i < |b| ==> c[i] == b[i];
    forall i, j | |a| <= j < i < |c| && ListenerWrite(c[i]) && StagingWrite(c[j], managed) ensures FreshReadBetween(c, j, i) {
      if j < |b| {
        assert c[j] == b[j];
        var k := |b| - 1;
        assert c[k] == b[k] && b[k].Refreshed?;
        assert j != k;
      }
    }
  }

  predicate AfterStaging(e: Event, mid: LoadBalancer) {
    e.Refreshed? || e.SetDeleted? || (ListenerWrite(e) && e.before.backendSets == mid.backendSets)
  }

  lemma NoListenerWritesIsSafe(d: Desired, stage: set<string>, managed: set<string>, a: seq<Event>, c: seq<Event>)
    requires Suffix(a, c, (e: Event) => !ListenerWrite(e))
    ensures StagingIsSafe(d, stage, managed, a, c) && NoDanglingDefaults(a, c) && PoliciesAreCarried(a, c)
  {
  }

  /** What belongs to one ingress: its own part of the class, closed under default backend sets. */
  ghost predicate Owned(d: Desired, own: IngressState) {
    own.backendSets <= d.sets.Keys && own.ports <= d.listeners.Keys
    && forall p :: p in own.ports ==> d.listeners[p].defaultBs in own.backendSets
  }

  lemma ManagedIsKnown(d: Desired, lb: LoadBalancer)
    requires WellFormed(d)
    ensures Managed(d, lb) <= d.sets.Keys
  {
    forall n | n in Managed(d, lb) ensures n in d.sets {
      var p :| p in d.listeners && MultiCertificate(d, lb, p) && n in Behind(d, p);
      assert GoodListenerGoal(d, p, d.listeners[p]);
    }
  }

  /** Safety up to the listener writes, and up to the deletions. */
  lemma AfterListeners(d: Desired, stage: set<string>, managed: set<string>,
                       a: seq<Event>, b: seq<Event>, c: seq<Event>, based: LoadBalancer, canonical: bool)
    requires StagedAndRead(a, b, managed) && Staged(d, stage, based)
    requires Suffix(b, c, IsSafeWrite(based, canonical))
    ensures StagingIsSafe(d, stage, managed, a, c) && PoliciesAreCarried(a, c)
    ensures canonical ==> NoDanglingDefaults(a, c)
  {
    forall i | |b| <= i < |c| ensures AfterStaging(c[i], based) {
      assert IsSafeWrite(based, canonical)(c[i]);
    }
    SafetyOfRun(d, stage, managed, a, b, c, based);
    assert forall i :: |a| <= i < |b| ==> c[i] == b[i];
    forall i | |a| <= i < |c| && c[i].ListenerSent?
      ensures CarriesPolicy(c[i]) && (canonical ==> c[i].listener.defaultBs in c[i].before.backendSets)
    {
      assert IsSafeWrite(based, canonical)(c[i]);
    }
  }

  lemma AfterDeletions(d: Desired, stage: set<string>, managed: set<string>,
                       a: seq<Event>, b: seq<Event>, c: seq<Event>, e: seq<Event>, based: LoadBalancer, mid: LoadBalancer, canonical: bool)
    requires StagedAndRead(a, b, managed) && Staged(d, stage, based) && mid.backendSets == based.backendSets
    requires Suffix(b, c, IsSafeWrite(based, canonical)) && Suffix(c, e, IsDeletion(mid))
    ensures StagingIsSafe(d, stage, managed, a, e) && PoliciesAreCarried(a, e)
    ensures canonical ==> NoDanglingDefaults(a, e)
  {
    forall i | |b| <= i < |e| ensures AfterStaging(e[i], based) {
      if i < |c| { assert e[i] == c[i] && IsSafeWrite(based, canonical)(c[i]); } else { assert IsDeletion(mid)(e[i]); }
    }
    SafetyOfRun(d, stage, managed, a, b, e, based);
    AfterListeners(d, stage, managed, a, b, c, based, canonical);
    assert forall i :: |a| <= i < |c| ==> e[i] == c[i];
    forall i | |c| <= i < |e| ensures !e[i].ListenerSent? {
      assert IsDeletion(mid)(e[i]);
    }
  }

  lemma NothingIsLeft(d: Desired, own: IngressState, initial: map<string, seq<Backend>>, before: LoadBalancer, mid: LoadBalancer, after: LoadBalancer)
    requires WellFormed(d) && Owned(d, own) && Canonical(before) && own.backendSets + Managed(d, before) <= d.sets.Keys
    requires Ensured(d, own, initial, before, mid) && Trimmed(d, mid, after)
    requires NamesOf(PortsOf(before) - d.listeners.Keys) !! after.listeners.Keys
    requires (before.backendSets.Keys - d.sets.Keys) !! after.backendSets.Keys
    ensures NothingStale(d, after)
  {
    forall n | n in after.listeners ensures after.listeners[n].port in d.listeners {
      EnsuredPort(d, own.ports, before.listeners, mid.listeners, n);
      StaleListenersAreNamed(d, before, n);
    }
  }

  lemma StaleListenersAreNamed(d: Desired, lb: LoadBalancer, n: string)
    requires Canonical(lb)
    ensures n in lb.listeners && lb.listeners[n].port !in d.listeners ==> n in NamesOf(PortsOf(lb) - d.listeners.Keys)
  {
    if n in lb.listeners && lb.listeners[n].port !in d.listeners {
      assert lb.listeners[n].port in PortsOf(lb) - d.listeners.Keys;
    }
  }

  /** A reconciliation keeps the ports of listeners, and only adds ports of its own. */
  lemma EnsuredPort(d: Desired, ports: set<int>, before: map<string, Listener>, after: map<string, Listener>, n: string)
    requires WellFormed(d) && ports <= d.listeners.Keys && ListenersEnsured(d, ports, before, after) && n in after
    ensures if n in before then after[n].port == before[n].port else after[n].port in ports && n == ListenerName(after[n].port)
  {
    if n in before {
      var l := before[n];
      if l.port in ports && ListenerSync(d.listeners[l.port], l).value.Some? {
        ListenerSyncFrame(d.listeners[l.port], l);
      }
    } else {
      var p :| p in ports && ListenerName(p) == n;
      assert GoodListenerGoal(d, p, d.listeners[p]);
    }
  }

  /** Nothing is left to do for the ingress: every backend set to stage is synced, every listener of
      its ports exists and is synced, and nothing is stale. */
  ghost predicate Settled(d: Desired, own: IngressState, managed: set<string>, lb: LoadBalancer)
    requires own.backendSets + managed <= d.sets.Keys
  {
    SetsAreSynced(d, own.backendSets + managed, lb)
    && ListenersAreSynced(d, own.ports, lb) && own.ports <= PortsOf(lb)
    && PortsOf(lb) <= d.listeners.Keys && lb.backendSets.Keys <= d.sets.Keys
  }

  /** No request of the part before the deletions need fail: nothing blocks a sync or a creation. */
  ghost predicate CanRun(d: Desired, own: IngressState, managed: set<string>, lb: LoadBalancer)
    requires own.backendSets + managed <= d.sets.Keys && own.ports <= d.listeners.Keys
  {
    Canonical(lb) && OwnPolicies(lb) && SetsCanSync(d, own.backendSets + managed, lb)
    && (forall n :: n in lb.listeners && lb.listeners[n].port in own.ports ==>
          ListenerSync(d.listeners[lb.listeners[n].port], lb.listeners[n]).Ok?)
    && CanCreate(d, own.ports - PortsOf(lb))
  }

  lemma StagedListenersCanSync(d: Desired, own: IngressState, managed: set<string>, lb: LoadBalancer, staged: LoadBalancer)
    requires WellFormed(d) && Owned(d, own) && managed <= d.sets.Keys && CanRun(d, own, managed, lb)
    requires staged == lb.(backendSets := staged.backendSets) && own.backendSets <= staged.backendSets.Keys
    ensures ListenersCanSync(d, own.ports, staged)
  {
    forall n | n in staged.listeners && staged.listeners[n].port in own.ports ensures CanSync(d, n, staged) {
      var l := lb.listeners[n];
      assert GoodListenerGoal(d, l.port, d.listeners[l.port]);
      if ListenerSync(d.listeners[l.port], l).value.Some? {
        ListenerSyncFrame(d.listeners[l.port], l);
      } else {
        ListenerSyncedIff(d.listeners[l.port], l);
      }
    }
  }

  /** The listeners of the ingress, after its backend sets have been staged. */
  method EnsureOwnListeners(c: Client, d: Desired, own: IngressState, ghost managed: set<string>, listeners: map<string, Listener>,
                            ghost lb: LoadBalancer, ghost log0: seq<Event>, ghost keeps: LoadBalancer -> bool)
    returns (r: Result<(), UpdateError>)
    requires Lasting(d, keeps) && keeps(c.server)
    requires c.Valid() && c.touchedListeners == {} && c.server == lb.(backendSets := c.server.backendSets) && lb.listeners == listeners
    requires WellFormed(d) && Owned(d, own) && managed <= d.sets.Keys
    requires Staged(d, own.backendSets + managed, c.server) && StagedAndRead(log0, c.log, managed)
    modifies c
    ensures c.Valid() && keeps(c.server) && c.touchedSets == old(c.touchedSets)
    ensures StagingIsSafe(d, own.backendSets + managed, managed, log0, c.log) && PoliciesAreCarried(log0, c.log)
    ensures Canonical(lb) ==> NoDanglingDefaults(log0, c.log)
    ensures Suffix(old(c.log), c.log, IsSafeWrite(old(c.server), Canonical(lb)))
    ensures r.Ok? ==> c.server == old(c.server).(listeners := c.server.listeners)
    ensures r.Ok? && Canonical(lb) ==>
      c.touchedListeners <= NamesOf(own.ports) && ListenersEnsured(d, own.ports, lb.listeners, c.server.listeners)
    ensures c.dependable && CanRun(d, own, managed, lb) ==> r.Ok?
    ensures Settled(d, own, managed, lb) ==> c.log == old(c.log) && c.server == old(c.server)
  {
    ghost var read, based := c.log, c.server;
    if CanRun(d, own, managed, lb) {
      StagedListenersCanSync(d, own, managed, lb, based);
    }
    r := EnsureListeners(c, d, own.ports, listeners, keeps);
    AfterListeners(d, own.backendSets + managed, managed, log0, read, c.log, based, Canonical(lb));
  }

  /** Everything but the deletions. The log splits at `read`, where the first listener write may
      come. */
  method EnsureObjects(c: Client, d: Desired, own: IngressState, managed: set<string>, initial: map<string, seq<Backend>>, lb: LoadBalancer,
                       ghost keeps: LoadBalancer -> bool)
    returns (r: Result<(), UpdateError>, ghost read: seq<Event>, ghost based: LoadBalancer)
    requires Lasting(d, keeps) && keeps(c.server)
    requires c.Valid() && c.touchedSets == {} && c.touchedListeners == {} && c.server == lb
    requires WellFormed(d) && Owned(d, own) && managed <= d.sets.Keys
    modifies c
    ensures c.Valid() && keeps(c.server)
    ensures StagingIsSafe(d, own.backendSets + managed, managed, old(c.log), c.log) && PoliciesAreCarried(old(c.log), c.log)
    ensures Canonical(lb) ==> NoDanglingDefaults(old(c.log), c.log)
    ensures r.Ok? ==> c.touchedSets <= own.backendSets + managed && c.server.policies == lb.policies
    ensures r.Ok? ==> SetsEnsured(d, own.backendSets + managed, initial, lb.backendSets, c.server.backendSets)
    ensures r.Ok? && Canonical(lb) ==>
      c.touchedListeners <= NamesOf(own.ports) && ListenersEnsured(d, own.ports, lb.listeners, c.server.listeners)
    ensures r.Ok? ==> StagedAndRead(old(c.log), read, managed) && Suffix(read, c.log, IsSafeWrite(based, Canonical(lb)))
    ensures r.Ok? ==> Staged(d, own.backendSets + managed, based) && based.backendSets == c.server.backendSets
    ensures c.dependable && CanRun(d, own, managed, lb) ==> r.Ok?
    ensures Settled(d, own, managed, lb) ==> c.log == old(c.log) && c.server == lb
  {
    ghost var stage := own.backendSets + managed;
    ghost var log0 := c.log;
    var staged := StageBackendSets(c, d, own.backendSets + managed, managed, initial, lb, keeps);
    read, based := c.log, c.server;
    NoListenerWritesIsSafe(d, stage, managed, log0, read);
    if staged.Err? {
      return Err(staged.error), read, based;
    }
    EnsuredIsStaged(d, stage, initial, lb.backendSets, based);
    r := EnsureOwnListeners(c, d, own, managed, staged.value.listeners, lb, log0, keeps);
  }

  lemma EnsuredIsCanonical(d: Desired, ports: set<int>, before: LoadBalancer, after: LoadBalancer)
    requires WellFormed(d) && ports <= d.listeners.Keys && ListenersEnsured(d, ports, before.listeners, after.listeners)
    requires Canonical(before)
    ensures Canonical(after)
  {
    forall n | n in after.listeners ensures n == ListenerName(after.listeners[n].port) {
      EnsuredPort(d, ports, before.listeners, after.listeners, n);
    }
  }

  /** A backend set that may not be deleted: it is the default of a listener the class wants, or the
      target of a routing rule. */
  ghost predicate Held(d: Desired, lb: LoadBalancer, n: string) {
    (exists k :: k in lb.listeners && lb.listeners[k].port in d.listeners && lb.listeners[k].defaultBs == n)
    || exists k, i :: k in lb.policies && 0 <= i < |lb.policies[k]| && lb.policies[k][i].backendSet == n
  }

  /** Deletions are refused for referential integrity only: listeners go, and unless some unwanted
      backend set is held, so do they. */
  ghost predicate OnlyIntegrity(d: Desired, mid: LoadBalancer, after: LoadBalancer) {
    (forall n :: n in after.listeners ==> after.listeners[n].port in d.listeners)
    && ((forall n :: n in mid.backendSets && n !in d.sets ==> !Held(d, mid, n)) ==> after.backendSets.Keys <= d.sets.Keys)
  }

  lemma ListenersGo(d: Desired, own: IngressState, initial: map<string, seq<Backend>>, before: LoadBalancer, mid: LoadBalancer, after: LoadBalancer)
    requires WellFormed(d) && Owned(d, own) && Canonical(before) && own.backendSets + Managed(d, before) <= d.sets.Keys
    requires Ensured(d, own, initial, before, mid) && Trimmed(d, mid, after)
    requires NamesOf(PortsOf(before) - d.listeners.Keys) !! after.listeners.Keys
    ensures forall n :: n in after.listeners ==> after.listeners[n].port in d.listeners
  {
    forall n | n in after.listeners ensures after.listeners[n].port in d.listeners {
      EnsuredPort(d, own.ports, before.listeners, mid.listeners, n);
      StaleListenersAreNamed(d, before, n);
    }
  }

  /** What keeps an unwanted backend set are wanted listeners and routing rules. */
  lemma HolderIsWanted(d: Desired, own: IngressState, initial: map<string, seq<Backend>>, before: LoadBalancer, mid: LoadBalancer, n: string)
    requires WellFormed(d) && Owned(d, own) && Canonical(before) && own.backendSets + Managed(d, before) <= d.sets.Keys
    requires Ensured(d, own, initial, before, mid)
    requires HeldWithout(NamesOf(PortsOf(before) - d.listeners.Keys), mid, n)
    ensures Held(d, mid, n)
  {
    if k :| k in mid.listeners && k !in NamesOf(PortsOf(before) - d.listeners.Keys) && mid.listeners[k].defaultBs == n {
      EnsuredPort(d, own.ports, before.listeners, mid.listeners, k);
      StaleListenersAreNamed(d, before, k);
    }
  }

  /** The whole reconciliation, from the load balancer as first read. */
  method ReconcileFrom(c: Client, d: Desired, own: IngressState, managed: set<string>, initial: map<string, seq<Backend>>, lb: LoadBalancer,
                       ghost keeps: LoadBalancer -> bool)
    returns (r: Result<(), UpdateError>, ghost ensured: bool, ghost mid: LoadBalancer)
    requires Lasting(d, keeps) && keeps(c.server)
    requires c.Valid() && c.touchedSets == {} && c.touchedListeners == {} && c.server == lb
    requires WellFormed(d) && Owned(d, own) && managed == Managed(d, lb) && managed <= d.sets.Keys
    modifies c
    ensures c.Valid() && keeps(c.server)
    ensures StagingIsSafe(d, own.backendSets + managed, managed, old(c.log), c.log) && PoliciesAreCarried(old(c.log), c.log)
    ensures Canonical(lb) ==> NoDanglingDefaults(old(c.log), c.log)
    ensures ensured && Canonical(lb) ==> Ensured(d, own, initial, lb, mid) && Trimmed(d, mid, c.server)
    ensures r.Ok? ==> ensured
    ensures r.Ok? && Canonical(lb) ==> NothingStale(d, c.server)
    ensures c.dependable && CanRun(d, own, managed, lb) ==> ensured
    ensures c.dependable && ensured && Canonical(lb) ==> OnlyIntegrity(d, mid, c.server)
    ensures Settled(d, own, managed, lb) ==>
      c.log == old(c.log) && c.server == lb && (c.dependable && CanRun(d, own, managed, lb) ==> r.Ok?)
  {
    ghost var log0 := c.log;
    ensured, mid := false, lb;
    var done, read, based := EnsureObjects(c, d, own, managed, initial, lb, keeps);
    if done.Err? {
      return Err(done.error), ensured, mid;
    }
    ghost var log2 := c.log;
    ensured, mid := true, c.server;
    if Canonical(lb) {
      EnsuredIsCanonical(d, own.ports, lb, mid);
    }
    r := DeleteRest(c, d, own, managed, initial, lb, keeps);
    AfterDeletions(d, own.backendSets + managed, managed, log0, read, log2, c.log, based, mid, Canonical(lb));
  }

  /** The deletions, after everything else has been ensured. */
  method DeleteRest(c: Client, d: Desired, own: IngressState, ghost managed: set<string>, ghost initial: map<string, seq<Backend>>, lb: LoadBalancer,
                    ghost keeps: LoadBalancer -> bool)
    returns (r: Result<(), UpdateError>)
    requires Lasting(d, keeps) && keeps(c.server)
    requires c.Valid() && c.touchedSets <= own.backendSets + managed
    requires WellFormed(d) && Owned(d, own) && managed == Managed(d, lb) && managed <= d.sets.Keys
    requires Canonical(lb) ==> Ensured(d, own, initial, lb, c.server) && Canonical(c.server) && c.touchedListeners <= NamesOf(own.ports)
    modifies c
    ensures c.Valid() && keeps(c.server)
    ensures Canonical(lb) ==> Trimmed(d, old(c.server), c.server)
    ensures r.Ok? && Canonical(lb) ==> NothingStale(d, c.server)
    ensures c.dependable && Canonical(lb) ==> OnlyIntegrity(d, old(c.server), c.server)
    ensures Suffix(old(c.log), c.log, IsDeletion(old(c.server)))
    ensures PortsOf(lb) <= d.listeners.Keys && lb.backendSets.Keys <= d.sets.Keys ==>
      c.log == old(c.log) && c.server == old(c.server) && (c.dependable && Canonical(lb) ==> r.Ok?)
  {
    ghost var mid := c.server;
    var ports, sets := PortsOf(lb) - d.listeners.Keys, lb.backendSets.Keys - d.sets.Keys;
    StaleNamesAreFree(d, own.ports, ports);
    r := DeleteStale(c, d, ports, sets, keeps);
    if Canonical(lb) {
      if c.dependable {
        ListenersGo(d, own, initial, lb, mid, c.server);
        UnheldSetsGo(d, own, initial, lb, mid, c.server, r.Ok?);
      }
      if r.Ok? {
        NothingIsLeft(d, own, initial, lb, mid, c.server);
      }
    }
  }

  lemma UnheldSetsGo(d: Desired, own: IngressState, initial: map<string, seq<Backend>>, before: LoadBalancer, mid: LoadBalancer, after: LoadBalancer, ok: bool)
    requires WellFormed(d) && Owned(d, own) && Canonical(before) && own.backendSets + Managed(d, before) <= d.sets.Keys
    requires Ensured(d, own, initial, before, mid) && Trimmed(d, mid, after)
    requires ok ==> (before.backendSets.Keys - d.sets.Keys) !! after.backendSets.Keys
    requires (forall n :: n in before.backendSets.Keys - d.sets.Keys ==> !HeldWithout(NamesOf(PortsOf(before) - d.listeners.Keys), mid, n)) ==> ok
    ensures (forall n :: n in mid.backendSets && n !in d.sets ==> !Held(d, mid, n)) ==> after.backendSets.Keys <= d.sets.Keys
  {
    if forall n :: n in mid.backendSets && n !in d.sets ==> !Held(d, mid, n) {
      forall n | n in before.backendSets.Keys - d.sets.Keys ensures !HeldWithout(NamesOf(PortsOf(before) - d.listeners.Keys), mid, n) {
        if HeldWithout(NamesOf(PortsOf(before) - d.listeners.Keys), mid, n) {
          HolderIsWanted(d, own, initial, before, mid, n);
        }
      }
    }
  }

  // ---- Whatever happens ------------------------------------------------------------------

  /** What is left of a listener: port and routing policy as they were, no new obstacle and none less. */
  ghost predicate Descends(d: Desired, before: Listener, after: Listener) {
    after.port == before.port && after.policy == before.policy && (Bare(after) ==> Bare(before))
    && (ListenerBlocked(GoalFor(d, after.port), Some(after)) <==> ListenerBlocked(GoalFor(d, before.port), Some(before)))
  }

  ghost predicate Newcomer(d: Desired, n: string, l: Listener) {
    l.port in d.listeners && n == ListenerName(l.port) && l.policy.None? && !Bare(l)
    && !ListenerBlocked(d.listeners[l.port], Some(l)) && !ListenerBlocked(d.listeners[l.port], None)
  }

  ghost predicate ListenersEvolved(d: Desired, before: map<string, Listener>, after: map<string, Listener>) {
    (forall n :: n in after ==> if n in before then Descends(d, before[n], after[n]) else Newcomer(d, n, after[n]))
    && forall n :: n in before && n in NamesOf(d.listeners.Keys) ==> n in after
  }

  ghost predicate SetsEvolved(d: Desired, before: map<string, BackendSet>, after: map<string, BackendSet>) {
    (forall n :: n in after && n in d.sets ==>
       (SetBlocked(d.sets[n], after[n]) <==> n in before && SetBlocked(d.sets[n], before[n])))
    && forall n :: n in before && n in d.sets ==> n in after
  }

  /** How a load balancer may differ after a reconciliation, however it ended. */
  ghost predicate Evolved(d: Desired, before: LoadBalancer, after: LoadBalancer) {
    after.policies == before.policies
    && ListenersEvolved(d, before.listeners, after.listeners)
    && SetsEvolved(d, before.backendSets, after.backendSets)
  }

  ghost function EvolvedFrom(d: Desired, before: LoadBalancer): LoadBalancer -> bool {
    (lb: LoadBalancer) => Evolved(d, before, lb)
  }

  lemma SyncDescends(d: Desired, l: Listener)
    requires WellFormed(d) && ListenerSync(GoalFor(d, l.port), l).Ok?
    ensures Descends(d, l, ListenerAfterSync(GoalFor(d, l.port), l))
  {
    var goal := GoalFor(d, l.port);
    if ListenerSync(goal, l).value.Some? {
      ListenerSyncFrame(goal, l);
    }
    if l.port in d.listeners {
      assert GoodListenerGoal(d, l.port, goal);
      ListenerSyncFailsIff(goal, l);
    }
  }

  lemma ListenerWriteEvolves(d: Desired, before: map<string, Listener>, w: Write, a: LoadBalancer, b: LoadBalancer)
    requires WellFormed(d) && ListenersEvolved(d, before, a.listeners) && Writes(d, w, a, b)
    ensures ListenersEvolved(d, before, b.listeners)
  {
    match w
    case SyncOf(n) => SyncDescends(d, a.listeners[n]);
    case CreateOn(p) =>
      assert GoodListenerGoal(d, p, d.listeners[p]);
      ListenerCreateFailsIff(d.listeners[p]);
      assert Newcomer(d, ListenerName(p), ListenerCreate(d.listeners[p]).value);
      assert ListenerName(p) in NamesOf(d.listeners.Keys);
    case DropListener(p) =>
      forall q | q in d.listeners && ListenerName(q) == ListenerName(p) ensures false {
        ListenerNameInjective(p, q);
      }
    case _ =>
  }

  lemma SetWriteEvolves(d: Desired, before: map<string, BackendSet>, w: Write, a: LoadBalancer, b: LoadBalancer)
    requires WellFormed(d) && SetsEvolved(d, before, a.backendSets) && Writes(d, w, a, b)
    ensures SetsEvolved(d, before, b.backendSets)
  {
    match w
    case SyncSet(n) => SetSyncFailsIff(d.sets[n], a.backendSets[n]);
    case CreateSet(n, backends) => SetCreateSucceeds(d.sets[n], backends);
    case _ =>
  }

  lemma EvolutionLasts(d: Desired, before: LoadBalancer)
    requires WellFormed(d)
    ensures Lasting(d, EvolvedFrom(d, before)) && EvolvedFrom(d, before)(before)
  {
    forall w, a, b | EvolvedFrom(d, before)(a) && Writes(d, w, a, b) ensures EvolvedFrom(d, before)(b) {
      ListenerWriteEvolves(d, before.listeners, w, a, b);
      SetWriteEvolves(d, before.backendSets, w, a, b);
    }
  }

  /** Reference safety, however a reconciliation ends. */
  lemma EvolutionKeepsOwnPolicies(d: Desired, before: LoadBalancer, after: LoadBalancer)
    requires Evolved(d, before, after) && OwnPolicies(before)
    ensures OwnPolicies(after)
  {
  }

  /** Listeners have their own names and policies, and no customized suite without certificates. */
  ghost predicate Ready(lb: LoadBalancer) {
    Canonical(lb) && OwnPolicies(lb) && forall n :: n in lb.listeners ==> !Bare(lb.listeners[n])
  }

  lemma EvolutionKeepsReady(d: Desired, before: LoadBalancer, after: LoadBalancer)
    requires Evolved(d, before, after) && Ready(before)
    ensures Ready(after)
  {
  }

  predicate SetIsBlocked(d: Desired, n: string, lb: LoadBalancer)
    requires n in d.sets
  {
    n in lb.backendSets && SetBlocked(d.sets[n], lb.backendSets[n])
  }

  predicate PortIsBlocked(d: Desired, p: int, lb: LoadBalancer)
    requires p in d.listeners
  {
    ListenerBlocked(d.listeners[p], LookupOption(lb.listeners, ListenerName(p)))
  }

  /** What is blocked stays blocked, and what is not blocked stays so. */
  lemma ObstaclesStay(d: Desired, before: LoadBalancer, after: LoadBalancer)
    requires WellFormed(d) && Evolved(d, before, after) && Canonical(before)
    ensures forall n :: n in d.sets ==> (SetIsBlocked(d, n, before) <==> SetIsBlocked(d, n, after))
    ensures forall p :: p in d.listeners ==> (PortIsBlocked(d, p, before) <==> PortIsBlocked(d, p, after))
  {
    forall p | p in d.listeners ensures PortIsBlocked(d, p, before) <==> PortIsBlocked(d, p, after) {
      var n := ListenerName(p);
      assert n in NamesOf(d.listeners.Keys);
      if n in before.listeners {
        ListenerNameInjective(before.listeners[n].port, p);
      } else if n in after.listeners {
        ListenerNameInjective(after.listeners[n].port, p);
      }
    }
  }

  /** Nothing stands in the way of these backend sets and ports. */
  ghost predicate Unblocked(d: Desired, sets: set<string>, ports: set<int>, lb: LoadBalancer) {
    (forall n :: n in sets && n in d.sets ==> !SetIsBlocked(d, n, lb))
    && forall p :: p in ports && p in d.listeners ==> !PortIsBlocked(d, p, lb)
  }

  lemma UnblockedCanRun(d: Desired, own: IngressState, managed: set<string>, lb: LoadBalancer)
    requires WellFormed(d) && Owned(d, own) && managed <= d.sets.Keys && Ready(lb)
    requires Unblocked(d, own.backendSets + managed, own.ports, lb)
    ensures CanRun(d, own, managed, lb)
  {
    forall n | n in own.backendSets + managed && n in lb.backendSets ensures BackendSetSync(d.sets[n], lb.backendSets[n]).Ok? {
      SetSyncFailsIff(d.sets[n], lb.backendSets[n]);
      assert !SetIsBlocked(d, n, lb);
    }
    forall n | n in lb.listeners && lb.listeners[n].port in own.ports
      ensures ListenerSync(d.listeners[lb.listeners[n].port], lb.listeners[n]).Ok?
    {
      var p := lb.listeners[n].port;
      assert !PortIsBlocked(d, p, lb) && GoodListenerGoal(d, p, d.listeners[p]);
      ListenerSyncFailsIff(d.listeners[p], lb.listeners[n]);
    }
    forall p | p in own.ports - PortsOf(lb) ensures ListenerCreate(d.listeners[p]).Ok? {
      assert !PortIsBlocked(d, p, lb) && GoodListenerGoal(d, p, d.listeners[p]);
      MissingNamesAreFree(own.ports, lb);
      ListenerCreateFailsIff(d.listeners[p]);
    }
  }

  lemma EnsuredIsUnblocked(d: Desired, own: IngressState, initial: map<string, seq<Backend>>, before: LoadBalancer, mid: LoadBalancer)
    requires WellFormed(d) && Owned(d, own) && Ready(before) && own.backendSets + Managed(d, before) <= d.sets.Keys
    requires Ensured(d, own, initial, before, mid)
    ensures Unblocked(d, own.backendSets + Managed(d, before), own.ports, before)
  {
    forall n | n in own.backendSets + Managed(d, before) && n in d.sets ensures !SetIsBlocked(d, n, before) {
      if n in before.backendSets {
        SetSyncFailsIff(d.sets[n], before.backendSets[n]);
      }
    }
    forall p | p in own.ports && p in d.listeners ensures !PortIsBlocked(d, p, before) {
      var n := ListenerName(p);
      assert GoodListenerGoal(d, p, d.listeners[p]);
      if n in before.listeners {
        ListenerNameInjective(before.listeners[n].port, p);
        ListenerSyncFailsIff(d.listeners[p], before.listeners[n]);
      } else {
        ListenerCreateFailsIff(d.listeners[p]);
      }
    }
  }

  /** What a run guarantees, however it ends: the order of its requests is safe and the load balancer has
      only evolved. `ensured` tells whether only deletions were left to do; with a dependable server that
      is so exactly when nothing was blocked, and deletions are refused for integrity only. Nothing is
      sent if there is nothing to do. */
  ghost predicate RunOutcome(d: Desired, own: IngressState, initial: map<string, seq<Backend>>, dependable: bool,
                             before: LoadBalancer, log0: seq<Event>, ok: bool, ensured: bool, mid: LoadBalancer, after: LoadBalancer, log: seq<Event>) {
    own.ports <= d.listeners.Keys && own.backendSets + Managed(d, before) <= d.sets.Keys
    && Evolved(d, before, after) && RunIsSafe(d, own, before, log0, log)
    && (ok ==> ensured)
    && (ensured && Canonical(before) ==> RunEnsures(d, own, initial, before, mid, after))
    && (ok && Canonical(before) ==> NothingStale(d, after))
    && (dependable && Ready(before) ==> (ensured <==> Unblocked(d, own.backendSets + Managed(d, before), own.ports, before)))
    && (dependable && ensured && Canonical(before) ==> OnlyIntegrity(d, mid, after))
    && (Settled(d, own, Managed(d, before), before) ==>
          log == log0 && after == before && (dependable && ensured && Ready(before) ==> ok))
  }

  /** Bring one ingress's part of the class to its desired state, and delete what the class does not
      want. Any request may fail. */
  method EnsureDesired(c: Client, d: Desired, own: IngressState, initial: map<string, seq<Backend>>)
    returns (r: Result<(), UpdateError>, ghost ensured: bool, ghost mid: LoadBalancer)
    requires c.cache.Some? ==> c.Current()
    requires WellFormed(d) && Owned(d, own)
    modifies c
    ensures c.Valid()
    ensures RunOutcome(d, own, initial, c.dependable, old(c.server), old(c.log), r.Ok?, ensured, mid, c.server, c.log)
  {
    ensured, mid := false, c.server;
    c.touchedSets, c.touchedListeners, c.touchedPolicies := {}, {}, {};
    ManagedIsKnown(d, c.server);
    EvolutionLasts(d, c.server);
    var seen := c.GetLoadBalancer();
    if seen.Err? {
      return Err(seen.error), ensured, mid;
    }
    var lb := seen.value.lb;
    if c.dependable {
      WellFormedPoliciesResolve(d);
    }
    var valid := ValidateActiveTlsPolicies(d);
    if valid.Err? {
      return Err(valid.error), ensured, mid;
    }
    var managed := BuildManagedMultiCertBackendSets(d, lb);
    r, ensured, mid := ReconcileFrom(c, d, own, managed, initial, lb, EvolvedFrom(d, lb));
    if Ready(lb) {
      if ensured {
        EnsuredIsUnblocked(d, own, initial, lb, mid);
      }
      if Unblocked(d, own.backendSets + managed, own.ports, lb) {
        UnblockedCanRun(d, own, managed, lb);
      }
    }
  }

  /** The safety properties of a run, however it ends. */
  ghost predicate RunIsSafe(d: Desired, own: IngressState, before: LoadBalancer, log0: seq<Event>, log: seq<Event>) {
    StagingIsSafe(d, own.backendSets + Managed(d, before), Managed(d, before), log0, log)
    && (Canonical(before) ==> NoDanglingDefaults(log0, log))
    && PoliciesAreCarried(log0, log)
  }

  // ---- From ingress objects to requests ---------------------------------------------------

  datatype IngressError = BadConfiguration(build: BuildError) | Failed(update: UpdateError)

  /** What the store has recorded for an ingress; nothing for one that does not count. */
  function RecordedFor(ingresses: map<string, IngressState>, ing: Ingress): IngressState {
    Lookup(ingresses, ing.Key(), IngressState({}, {}))
  }

  /** What the state builder records for an ingress is closed under default backend sets. */
  lemma RecordedIsOwned(cluster: Cluster, ic: IngressClass, ings: seq<Ingress>, ing: Ingress,
                        certificate: CertificateOf, authority: AuthorityOf)
    requires Build(cluster, ic, ings).Ok? && StateTheorems.UniqueKeys(SortedGroup(ic, ings))
    ensures var built := Build(cluster, ic, ings).value;
      ing in SortedGroup(ic, ings) ==>
        Owned(DesiredOf(built.group, certificate, authority), RecordedFor(built.ingresses, ing))
  {
    var built := Build(cluster, ic, ings).value;
    var d := DesiredOf(built.group, certificate, authority);
    if ing in SortedGroup(ic, ings) {
      StateTheorems.BuildRefinesSpecification(cluster, ic, ings);
      var own := StateTheorems.OwnState(cluster, ing);
      assert RecordedFor(built.ingresses, ing) == own;
      OwnPorts(cluster, ic, ings, ing, d, own, certificate, authority);
      OwnSets(cluster, ic, ings, ing);
    }
  }

  lemma OwnPorts(cluster: Cluster, ic: IngressClass, ings: seq<Ingress>, ing: Ingress, d: Desired, own: IngressState,
                 certificate: CertificateOf, authority: AuthorityOf)
    requires Build(cluster, ic, ings).Ok? && ing in SortedGroup(ic, ings)
    requires own == StateTheorems.OwnState(cluster, ing)
    requires d == DesiredOf(Build(cluster, ic, ings).value.group, certificate, authority)
    ensures forall p :: p in own.ports ==> p in d.listeners && d.listeners[p].defaultBs in own.backendSets
  {
    forall p | p in own.ports ensures p in d.listeners && d.listeners[p].defaultBs in own.backendSets {
      RoutingAgreement.DefaultsAreOwn(cluster, ic, ings, ing, p);
    }
  }

  lemma OwnSets(cluster: Cluster, ic: IngressClass, ings: seq<Ingress>, ing: Ingress)
    requires Build(cluster, ic, ings).Ok? && ing in SortedGroup(ic, ings)
    ensures StateTheorems.OwnState(cluster, ing).backendSets <= Build(cluster, ic, ings).value.group.backendSets
  {
    RoutingAgreement.OwnSetsAreKnown(cluster, ic, ings, ing);
  }

  /** Build the desired state of the class, then bring this ingress's part of it about. A class whose
      state cannot be built causes no request at all. */
  method EnsureIngress(c: Client, cluster: Cluster, ic: IngressClass, ings: seq<Ingress>, ing: Ingress,
                       certificate: CertificateOf, authority: AuthorityOf, initial: map<string, seq<Backend>>)
    returns (r: Result<(), IngressError>, ghost ensured: bool, ghost mid: LoadBalancer)
    requires c.cache.Some? ==> c.Current()
    requires StateTheorems.UniqueKeys(SortedGroup(ic, ings)) && GoodAnnotations(SortedGroup(ic, ings))
    requires ing in SortedGroup(ic, ings)
    modifies c
    ensures c.cache.Some? && c.dependable ==> c.Current()
    ensures match Build(cluster, ic, ings)
      case Err(e) => r == Err(BadConfiguration(e)) && c.server == old(c.server) && c.log == old(c.log)
      case Ok(built) =>
        RunOutcome(DesiredOf(built.group, certificate, authority), RecordedFor(built.ingresses, ing), initial, c.dependable,
                   old(c.server), old(c.log), r.Ok?, ensured, mid, c.server, c.log)
  {
    ensured, mid := false, c.server;
    var store := new StateStore.StateStore();
    var built := store.BuildState(cluster, ic, ings);
    if built.Err? {
      return Err(BadConfiguration(built.error)), ensured, mid;
    }
    var d := DesiredOf(store.group, certificate, authority);
    var own := RecordedFor(store.ingresses, ing);
    BuiltIsWellFormed(cluster, ic, ings, certificate, authority);
    RecordedIsOwned(cluster, ic, ings, ing, certificate, authority);
    var done;
    done, ensured, mid := EnsureDesired(c, d, own, initial);
    r := match done case Ok(_) => Ok(()) case Err(e) => Err(Failed(e));
  }

  /** What a run has done once only deletions are left. */
  ghost predicate RunEnsures(d: Desired, own: IngressState, initial: map<string, seq<Backend>>,
                             before: LoadBalancer, mid: LoadBalancer, after: LoadBalancer) {
    own.ports <= d.listeners.Keys && own.backendSets + Managed(d, before) <= d.sets.Keys
    && Ensured(d, own, initial, before, mid) && Trimmed(d, mid, after)
  }
}
