/** Several controllers updating one load balancer through a shared cache of (load balancer, etag)
    pairs, in any interleaving. */
module Interleaving {
  import opened Wrappers
  import opened Ingresses
  import opened LoadBalancers
  import opened Reconcile
  import RoutingRules
  import TlsPolicy

  // ---- Updates ---------------------------------------------------------------------------

  /** What a controller sets out to do. Goals and rules may themselves be out of date. */
  datatype Intent =
    | AttachPolicy(name: string)
    | DetachPolicy(name: string)
    | SyncListener(name: string, listenerGoal: ListenerGoal)
    | SyncBackendSet(name: string, setGoal: BackendSetGoal)
    | SetBackends(name: string, backends: seq<Backend>)
    | SetRules(name: string, rules: seq<RoutingRules.RoutingRule>)

  /** The request that is sent: a whole object, to replace the one of that name. */
  datatype Change =
    | PutListener(name: string, listener: Listener)
    | PutBackendSet(name: string, backendSet: BackendSet)
    | PutRules(name: string, rules: seq<RoutingRules.RoutingRule>)

  function PutListenerIf(name: string, r: Result<Option<Listener>, UpdateError>): Result<Option<Change>, UpdateError> {
    var l :- r;
    Ok(if l.None? then None else Some(PutListener(name, l.value)))
  }

  function PutBackendSetIf(name: string, r: Result<Option<BackendSet>, UpdateError>): Result<Option<Change>, UpdateError> {
    var bs :- r;
    Ok(if bs.None? then None else Some(PutBackendSet(name, bs.value)))
  }

  function WithPolicy(l: Listener, policy: Option<string>): Result<Option<Listener>, UpdateError> {
    var sent :- ListenerDetails(l, policy, None, None, l.protocol, "", true);
    Ok(Some(sent))
  }

  function SentDetails(r: Result<Option<(BackendSet, bool)>, UpdateError>): Result<Option<BackendSet>, UpdateError> {
    var sent :- r;
    Ok(if sent.None? then None else Some(sent.value.0))
  }

  /** The request for an intent, made from a load balancer as it was read. */
  function Request(intent: Intent, lb: LoadBalancer): Result<Option<Change>, UpdateError> {
    var n := intent.name;
    match intent
    case AttachPolicy(_) =>
      if n !in lb.listeners then Err(NotFound(n))
      else if lb.listeners[n].policy == Some(n) then Ok(None)
      else PutListenerIf(n, WithPolicy(lb.listeners[n], Some(n)))
    case DetachPolicy(_) =>
      if n !in lb.listeners then Ok(None) else PutListenerIf(n, WithPolicy(lb.listeners[n], None))
    case SyncListener(_, goal) =>
      if n !in lb.listeners then Err(NotFound(n)) else PutListenerIf(n, ListenerSync(goal, lb.listeners[n]))
    case SyncBackendSet(_, goal) =>
      if n !in lb.backendSets then Err(NotFound(n)) else PutBackendSetIf(n, SentDetails(BackendSetSync(goal, lb.backendSets[n])))
    case SetBackends(_, backends) =>
      if n !in lb.backendSets then Err(NotFound(n)) else PutBackendSetIf(n, WithBackends(lb.backendSets[n], backends))
    case SetRules(_, rules) =>
      if (if n in lb.policies then lb.policies[n] else []) == rules then Ok(None) else Ok(Some(PutRules(n, rules)))
  }

  predicate Exists(change: Change, lb: LoadBalancer) {
    match change
    case PutListener(n, _) => n in lb.listeners
    case PutBackendSet(n, _) => n in lb.backendSets
    case PutRules(n, _) => n in lb.policies
  }

  function Put(change: Change, lb: LoadBalancer): LoadBalancer {
    match change
    case PutListener(n, l) => lb.(listeners := lb.listeners[n := l])
    case PutBackendSet(n, bs) => lb.(backendSets := lb.backendSets[n := bs])
    case PutRules(n, rules) => lb.(policies := lb.policies[n := rules])
  }

  // ---- Runs ------------------------------------------------------------------------------

  /** A load balancer and the etag it was read with. */
  datatype Snapshot = Snapshot(lb: LoadBalancer, etag: nat)
  datatype Pending = Pending(intent: Intent, seen: Snapshot, change: Change)

  /** The server, the answers on their way to readers, the cache, and the requests on their way to
      the server. */
  datatype World = World(
    server: LoadBalancer, etag: nat, answers: map<nat, Snapshot>, cache: Option<Snapshot>, pending: map<nat, Pending>)

  datatype Step =
    | Read(who: nat)
    | Store(who: nat)
    | Prepare(who: nat, intent: Intent, cached: bool)
    | Send(who: nat, accepted: bool)
    | Outside(lb: LoadBalancer)

  predicate Initial(w: World) {
    w.answers == map[] && w.cache == None && w.pending == map[]
  }

  /** The pair a controller works with: the cached one, or the answer it has just received. */
  function Seen(w: World, who: nat, cached: bool): Option<Snapshot> {
    if cached then w.cache else if who in w.answers then Some(w.answers[who]) else None
  }

  predicate Next(w: World, step: Step, w': World) {
    match step
    case Read(who) =>
      w' == w.(answers := w.answers[who := Snapshot(w.server, w.etag)])
    case Store(who) =>
      who in w.answers && w' == w.(cache := Some(w.answers[who]))
    case Prepare(who, intent, cached) =>
      var seen := Seen(w, who, cached);
      seen.Some? && Request(intent, seen.value.lb).Ok? && Request(intent, seen.value.lb).value.Some?
      && w' == w.(pending := w.pending[who := Pending(intent, seen.value, Request(intent, seen.value.lb).value.value)])
    case Send(who, accepted) =>
      who in w.pending
      && var p := w.pending[who];
         if accepted then
           // IfMatch; the server may still refuse for reasons of its own
           p.seen.etag == w.etag && Exists(p.change, w.server)
           && w' == w.(server := Put(p.change, w.server), etag := w.etag + 1, pending := w.pending - {who})
         else w' == w.(pending := w.pending - {who})
    case Outside(lb) =>
      // a creation, a deletion, or an update by anybody else
      w' == w.(server := lb, etag := w.etag + 1)
  }

  predicate Run(worlds: seq<World>, steps: seq<Step>) {
    |worlds| == |steps| + 1 && Initial(worlds[0]) && forall i :: 0 <= i < |steps| ==> Next(worlds[i], steps[i], worlds[i + 1])
  }

  // ---- No lost update --------------------------------------------------------------------

  /** A pair is coherent: as long as its etag is current, so is its load balancer. Nothing says that
      it is recent, or more recent than the pair it replaced. */
  predicate Coherent(w: World, s: Snapshot) {
    s.etag <= w.etag && (s.etag == w.etag ==> s.lb == w.server)
  }

  /** Body and etag of a request come from the same read. */
  predicate Made(p: Pending) {
    Request(p.intent, p.seen.lb) == Ok(Some(p.change))
  }

  ghost predicate AllCoherent(w: World) {
    (forall k :: k in w.answers ==> Coherent(w, w.answers[k]))
    && (w.cache.Some? ==> Coherent(w, w.cache.value))
    && (forall k :: k in w.pending ==> Coherent(w, w.pending[k].seen) && Made(w.pending[k]))
  }

  lemma StepKeepsCoherence(w: World, step: Step, w': World)
    requires AllCoherent(w) && Next(w, step, w')
    ensures AllCoherent(w')
  {
    match step
    case Send(who, accepted) =>
      forall k | k in w'.pending ensures k in w.pending && w'.pending[k] == w.pending[k] {}
    case _ =>
  }

  lemma {:induction false} RunIsCoherent(worlds: seq<World>, steps: seq<Step>, i: nat)
    requires Run(worlds, steps) && i < |worlds|
    ensures AllCoherent(worlds[i])
  {
    if i > 0 {
      RunIsCoherent(worlds, steps, i - 1);
      StepKeepsCoherence(worlds[i - 1], steps[i - 1], worlds[i]);
    }
  }

  /** Everything on the server but the listener `n` is as before. */
  predicate OnlyListener(n: string, before: LoadBalancer, after: LoadBalancer) {
    n in before.listeners && n in after.listeners
    && after == before.(listeners := before.listeners[n := after.listeners[n]])
  }

  predicate OnlyBackendSet(n: string, before: LoadBalancer, after: LoadBalancer) {
    n in before.backendSets && n in after.backendSets
    && after == before.(backendSets := before.backendSets[n := after.backendSets[n]])
  }

  /** The update changed the fields its intent owns, and no others. */
  predicate OwnsItsChanges(intent: Intent, before: LoadBalancer, after: LoadBalancer) {
    var n := intent.name;
    match intent
    case AttachPolicy(_) =>
      OnlyListener(n, before, after) && after.listeners[n] == before.listeners[n].(policy := Some(n))
    case DetachPolicy(_) =>
      OnlyListener(n, before, after) && after.listeners[n] == before.listeners[n].(policy := None)
    case SyncListener(_, goal) =>
      OnlyListener(n, before, after)
      && after.listeners[n].port == before.listeners[n].port
      && after.listeners[n].policy == before.listeners[n].policy
      && SameProxy(before.listeners[n].connection, after.listeners[n].connection)
      && (goal.defaultBs != "" ==> ListenerSynced(goal, after.listeners[n]))
    case SyncBackendSet(_, goal) =>
      OnlyBackendSet(n, before, after)
      && after.backendSets[n].backends == before.backendSets[n].backends
      && SameChecker(goal.checker, after.backendSets[n].checker) == Checkable(goal.checker)
    case SetBackends(_, backends) =>
      OnlyBackendSet(n, before, after) && after.backendSets[n] == before.backendSets[n].(backends := backends)
    case SetRules(_, rules) =>
      n in before.policies && after == before.(policies := before.policies[n := rules])
  }

  lemma RequestOwnsItsChanges(intent: Intent, lb: LoadBalancer)
    requires Request(intent, lb).Ok? && Request(intent, lb).value.Some?
    requires Exists(Request(intent, lb).value.value, lb)
    ensures OwnsItsChanges(intent, lb, Put(Request(intent, lb).value.value, lb))
  {
    match intent
    case SyncListener(n, goal) =>
      ListenerSyncFrame(goal, lb.listeners[n]);
      ListenerFixpointIff(goal, lb.listeners[n]);
    case SyncBackendSet(n, goal) => BackendSetSyncKeepsBackends(goal, lb.backendSets[n]);
    case _ =>
  }

  /** In every interleaving, an accepted update leaves every field it does not own as it was on the
      server just before: its body and its etag come from the same read. */
  lemma NoLostUpdate(worlds: seq<World>, steps: seq<Step>, i: nat)
    requires Run(worlds, steps) && i < |steps| && steps[i].Send? && steps[i].accepted
    ensures steps[i].who in worlds[i].pending
    ensures OwnsItsChanges(worlds[i].pending[steps[i].who].intent, worlds[i].server, worlds[i + 1].server)
  {
    assert Next(worlds[i], steps[i], worlds[i + 1]);
    RunIsCoherent(worlds, steps, i);
    var p := worlds[i].pending[steps[i].who];
    assert p.seen.lb == worlds[i].server;
    RequestOwnsItsChanges(p.intent, worlds[i].server);
  }

  lemma {:induction false} EtagsGrow(worlds: seq<World>, steps: seq<Step>, i: nat, j: nat)
    requires Run(worlds, steps) && i <= j < |worlds|
    ensures worlds[i].etag <= worlds[j].etag
    ensures worlds[i].etag == worlds[j].etag ==> worlds[i].server == worlds[j].server
    decreases j
  {
    if i < j {
      EtagsGrow(worlds, steps, i, j - 1);
      assert Next(worlds[j - 1], steps[j - 1], worlds[j]);
    }
  }

  /** An update prepared from a pair that has been overtaken is never accepted. */
  lemma OvertakenUpdatesAreRefused(worlds: seq<World>, steps: seq<Step>, i: nat, j: nat)
    requires Run(worlds, steps) && i < j < |steps|
    requires steps[j].Send? && steps[j].who in worlds[j].pending && worlds[j].pending[steps[j].who].seen.etag <= worlds[i].etag
    requires worlds[i].server != worlds[i + 1].server
    ensures !steps[j].accepted
  {
    assert Next(worlds[i], steps[i], worlds[i + 1]);
    assert Next(worlds[j], steps[j], worlds[j + 1]);
    EtagsGrow(worlds, steps, i + 1, j);
  }

  // ---- When the cache goes back ----------------------------------------------------------

  predicate GoesBack(w: World, w': World) {
    w.cache.Some? && w'.cache.Some? && w'.cache.value.etag < w.cache.value.etag
  }

  /** A step that changes the server, and with it the etag. */
  predicate Changes(step: Step) {
    step.Outside? || (step.Send? && step.accepted)
  }

  ghost predicate ChangedBetween(steps: seq<Step>, a: int, c: int) {
    exists k :: 0 <= a <= k < c <= |steps| && Changes(steps[k])
  }

  /** The step at which the answer held by `who` before step `i` was read; -1 if there is none. */
  function ReadOf(steps: seq<Step>, i: nat, who: nat): (r: int)
    requires i <= |steps|
    ensures -1 <= r < i && (r >= 0 ==> steps[r] == Read(who))
  {
    if i == 0 then -1 else if steps[i - 1] == Read(who) then i - 1 else ReadOf(steps, i - 1, who)
  }

  /** The step at which the pair cached before step `i` was read; -1 if nothing is cached. */
  function CachedRead(steps: seq<Step>, i: nat): (r: int)
    requires i <= |steps|
    ensures -1 <= r < i
  {
    if i == 0 then -1
    else if steps[i - 1].Store? then ReadOf(steps, i - 1, steps[i - 1].who)
    else CachedRead(steps, i - 1)
  }

  predicate ReadAt(worlds: seq<World>, k: int, s: Snapshot) {
    0 <= k < |worlds| && s == Snapshot(worlds[k].server, worlds[k].etag)
  }

  /** Every answer and the cached pair are what the server was at the step that read them. */
  lemma {:induction false} PairsWereRead(worlds: seq<World>, steps: seq<Step>, i: nat)
    requires Run(worlds, steps) && i <= |steps|
    ensures forall who :: who in worlds[i].answers ==> ReadAt(worlds, ReadOf(steps, i, who), worlds[i].answers[who])
    ensures worlds[i].cache.Some? ==> ReadAt(worlds, CachedRead(steps, i), worlds[i].cache.value)
  {
    if i > 0 {
      PairsWereRead(worlds, steps, i - 1);
      assert Next(worlds[i - 1], steps[i - 1], worlds[i]);
    }
  }

  lemma {:induction false} EtagsCountChanges(worlds: seq<World>, steps: seq<Step>, a: nat, c: nat)
    requires Run(worlds, steps) && a <= c <= |steps|
    ensures worlds[a].etag < worlds[c].etag <==> ChangedBetween(steps, a, c)
    decreases c
  {
    if a < c {
      EtagsCountChanges(worlds, steps, a, c - 1);
      EtagsGrow(worlds, steps, a, c - 1);
      assert Next(worlds[c - 1], steps[c - 1], worlds[c]);
      if Changes(steps[c - 1]) {
        assert ChangedBetween(steps, a, c);
      } else if ChangedBetween(steps, a, c - 1) {
        var k :| 0 <= a <= k < c - 1 <= |steps| && Changes(steps[k]);
        assert Changes(steps[k]) && k < c;
      }
    }
  }

  /** A store that puts an older answer in the place of a newer one: it was read before the cached pair,
      and the server changed in between. */
  ghost predicate LateStore(steps: seq<Step>, i: nat)
    requires i < |steps|
  {
    steps[i].Store? && ChangedBetween(steps, ReadOf(steps, i, steps[i].who), CachedRead(steps, i))
  }

  /** The cache goes back exactly at late stores. */
  lemma GoesBackIff(worlds: seq<World>, steps: seq<Step>, i: nat)
    requires Run(worlds, steps) && i < |steps|
    ensures GoesBack(worlds[i], worlds[i + 1]) <==> worlds[i].cache.Some? && LateStore(steps, i)
  {
    assert Next(worlds[i], steps[i], worlds[i + 1]);
    if worlds[i].cache.Some? && steps[i].Store? {
      var a, c := ReadOf(steps, i, steps[i].who), CachedRead(steps, i);
      PairsWereRead(worlds, steps, i);
      if a <= c {
        EtagsCountChanges(worlds, steps, a, c);
      } else {
        EtagsGrow(worlds, steps, c, a);
      }
    }
  }

  /** So it never does when answers are stored in the order in which they were read. */
  lemma {:induction false} OrderedStoresKeepFreshness(worlds: seq<World>, steps: seq<Step>, i: nat, j: nat)
    requires Run(worlds, steps) && i <= j <= |steps|
    requires forall k :: 0 <= k < |steps| && steps[k].Store? ==> CachedRead(steps, k) <= ReadOf(steps, k, steps[k].who)
    requires worlds[i].cache.Some?
    ensures worlds[j].cache.Some? && worlds[i].cache.value.etag <= worlds[j].cache.value.etag
    decreases j
  {
    if i < j {
      OrderedStoresKeepFreshness(worlds, steps, i, j - 1);
      assert Next(worlds[j - 1], steps[j - 1], worlds[j]);
      GoesBackIff(worlds, steps, j - 1);
    }
  }

  const EMPTY := LoadBalancer(map[], map[], map[])

  /** Racing refreshes can leave an older pair in the cache: freshness is not monotone. */
  lemma CacheCanGoBack()
    ensures exists worlds, steps :: Run(worlds, steps) && |steps| == 5 && GoesBack(worlds[4], worlds[5])
  {
    var s0, s1 := Snapshot(EMPTY, 0), Snapshot(EMPTY, 1);
    var w0 := World(EMPTY, 0, map[], None, map[]);
    var w1 := World(EMPTY, 0, map[0 := s0], None, map[]);
    var w2 := World(EMPTY, 1, map[0 := s0], None, map[]);
    var w3 := World(EMPTY, 1, map[0 := s0, 1 := s1], None, map[]);
    var w4 := World(EMPTY, 1, map[0 := s0, 1 := s1], Some(s1), map[]);
    var w5 := World(EMPTY, 1, map[0 := s0, 1 := s1], Some(s0), map[]);
    var worlds := [w0, w1, w2, w3, w4, w5];
    var steps := [Read(0), Outside(EMPTY), Read(1), Store(1), Store(0)];
    assert Next(w2, Read(1), w3) by {
      assert w2.answers[1 := s1] == w3.answers;
    }
    assert Run(worlds, steps);
  }
}
