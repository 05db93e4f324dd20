/** Repeated reconciliations: a second run has nothing to do, and two passes over a class with a
    routing pass in between leave exactly the desired load balancer. */
module Convergence {
  import opened Wrappers
  import opened Ingresses
  import opened LoadBalancers
  import opened Reconcile
  import opened StateBuilder
  import opened DesiredState
  import opened LoadBalancerClient
  import opened IngressController
  import opened Obstacles
  import opened RoutingController
  import Sorting
  import TlsPolicy

  // ---- One run brings its part about ------------------------------------------------------

  lemma SyncedSetStays(d: Desired, own: IngressState, initial: map<string, seq<Backend>>,
                       before: LoadBalancer, mid: LoadBalancer, after: LoadBalancer, n: string)
    requires RunEnsures(d, own, initial, before, mid, after) && n in d.sets && SetIsSynced(d, n, before)
    ensures SetIsSynced(d, n, after)
  {
    assert mid.backendSets[n] == before.backendSets[n];
  }

  /** Every backend set the run stages is synced afterwards. */
  lemma StagedSetIsSynced(d: Desired, own: IngressState, initial: map<string, seq<Backend>>,
                          before: LoadBalancer, mid: LoadBalancer, after: LoadBalancer, n: string)
    requires WellFormed(d) && RunEnsures(d, own, initial, before, mid, after)
    requires n in own.backendSets + Managed(d, before)
    ensures SetIsSynced(d, n, after)
  {
    assert after.backendSets[n] == mid.backendSets[n];
    if n in before.backendSets {
      if BackendSetSync(d.sets[n], before.backendSets[n]).value.Some? {
        BackendSetFixpointIff(d.sets[n], before.backendSets[n]);
      }
    } else {
      CreatedBackendSetIsSynced(d.sets[n], Lookup(initial, n, []));
    }
  }

  /** The listener of port `p` exists and is synced. */
  ghost predicate PortIsSynced(d: Desired, p: int, lb: LoadBalancer)
    requires p in d.listeners
  {
    ListenerName(p) in lb.listeners && lb.listeners[ListenerName(p)].port == p
    && ListenerSynced(d.listeners[p], lb.listeners[ListenerName(p)])
  }

  lemma SyncedPortStays(d: Desired, own: IngressState, initial: map<string, seq<Backend>>,
                        before: LoadBalancer, mid: LoadBalancer, after: LoadBalancer, p: int)
    requires RunEnsures(d, own, initial, before, mid, after) && p in d.listeners && PortIsSynced(d, p, before)
    ensures PortIsSynced(d, p, after) && after.listeners[ListenerName(p)] == before.listeners[ListenerName(p)]
  {
    assert mid.listeners[ListenerName(p)] == before.listeners[ListenerName(p)];
  }

  lemma OwnPortIsSynced(d: Desired, own: IngressState, initial: map<string, seq<Backend>>,
                        before: LoadBalancer, mid: LoadBalancer, after: LoadBalancer, p: int)
    requires WellFormed(d) && Canonical(before) && RunEnsures(d, own, initial, before, mid, after)
    requires p in own.ports
    ensures PortIsSynced(d, p, after)
  {
    var n := ListenerName(p);
    assert n in mid.listeners;
    EnsuredPort(d, own.ports, before.listeners, mid.listeners, n);
    if n in before.listeners {
      ListenerNameInjective(before.listeners[n].port, p);
      var l := before.listeners[n];
      if ListenerSync(d.listeners[p], l).value.Some? {
        ListenerFixpointIff(d.listeners[p], l);
      }
    } else {
      ListenerNameInjective(mid.listeners[n].port, p);
      CreatedListenerIsSynced(d.listeners[p]);
    }
    assert after.listeners[n] == mid.listeners[n];
  }

  lemma RunKeepsCanonical(d: Desired, own: IngressState, initial: map<string, seq<Backend>>,
                          before: LoadBalancer, mid: LoadBalancer, after: LoadBalancer)
    requires WellFormed(d) && Canonical(before) && RunEnsures(d, own, initial, before, mid, after)
    ensures Canonical(mid) && Canonical(after)
  {
    EnsuredIsCanonical(d, own.ports, before, mid);
  }

  /** Runs of the ingress controller leave routing policies and their attachment alone. */
  lemma RunKeepsPolicies(d: Desired, own: IngressState, initial: map<string, seq<Backend>>,
                         before: LoadBalancer, mid: LoadBalancer, after: LoadBalancer)
    requires OwnPolicies(before) && RunEnsures(d, own, initial, before, mid, after)
    ensures OwnPolicies(after) && after.policies == before.policies
  {
    forall n | n in after.listeners && after.listeners[n].policy.Some?
      ensures after.listeners[n].policy == Some(n) && n in after.policies
    {
      assert after.listeners[n] == mid.listeners[n];
      if n in before.listeners {
        var l := before.listeners[n];
        if l.port in own.ports && ListenerSync(d.listeners[l.port], l).value.Some? {
          ListenerSyncFrame(d.listeners[l.port], l);
        }
      }
    }
  }

  // ---- Fixpoint --------------------------------------------------------------------------

  /** After a run the listener of one of its ports has several certificates only if it is to. */
  lemma ManagedShrinks(d: Desired, own: IngressState, initial: map<string, seq<Backend>>,
                       before: LoadBalancer, mid: LoadBalancer, after: LoadBalancer, p: int)
    requires WellFormed(d) && Canonical(before) && RunEnsures(d, own, initial, before, mid, after)
    requires p in d.listeners && MultiCertificate(d, after, p)
    ensures MultiCertificate(d, before, p)
  {
    var n := ListenerName(p);
    assert GoodListenerGoal(d, p, d.listeners[p]);
    if n in after.listeners {
      if p in own.ports {
        OwnPortIsSynced(d, own, initial, before, mid, after, p);
        ListenerSyncedIff(d.listeners[p], after.listeners[n]);
      } else {
        assert after.listeners[n] == mid.listeners[n];
        EnsuredPort(d, own.ports, before.listeners, mid.listeners, n);
        if n in before.listeners {
          ListenerNameInjective(before.listeners[n].port, p);
        } else {
          ListenerNameInjective(mid.listeners[n].port, p);
        }
      }
    }
  }

  /** A complete run leaves nothing for the next one: by the contract of EnsureDesired, a second run
      on the same inputs then sends no request at all. */
  lemma RunSettles(d: Desired, own: IngressState, initial: map<string, seq<Backend>>,
                   before: LoadBalancer, mid: LoadBalancer, after: LoadBalancer)
    requires WellFormed(d) && Owned(d, own) && Canonical(before)
    requires RunEnsures(d, own, initial, before, mid, after) && NothingStale(d, after)
    ensures Managed(d, after) <= d.sets.Keys && Settled(d, own, Managed(d, after), after)
  {
    ManagedIsKnown(d, after);
    RunKeepsCanonical(d, own, initial, before, mid, after);
    forall n | n in own.backendSets + Managed(d, after) ensures SetIsSynced(d, n, after) {
      if n in Managed(d, after) {
        var p :| p in d.listeners && MultiCertificate(d, after, p) && n in Behind(d, p);
        ManagedShrinks(d, own, initial, before, mid, after, p);
      }
      StagedSetIsSynced(d, own, initial, before, mid, after, n);
    }
    forall p | p in own.ports ensures PortIsSynced(d, p, after) {
      OwnPortIsSynced(d, own, initial, before, mid, after, p);
    }
    forall p | p in own.ports ensures p in PortsOf(after) {
      assert PortIsSynced(d, p, after);
    }
  }

  /** Two runs in a row. After the first has succeeded, the second sends nothing and changes nothing, and
      a dependable server lets it succeed. A cached pair that is not current, because a refresh failed,
      has to expire first. */
  method RunTwice(c: Client, d: Desired, own: IngressState, initial: map<string, seq<Backend>>)
    returns (first: Result<(), UpdateError>, second: Result<(), UpdateError>, ghost between: LoadBalancer, ghost sent: seq<Event>)
    requires c.cache.Some? ==> c.Current()
    requires WellFormed(d) && Owned(d, own) && Canonical(c.server)
    modifies c
    ensures first.Ok? ==> c.log == sent && c.server == between
    ensures first.Ok? && c.dependable && Ready(old(c.server)) ==> second.Ok?
  {
    ghost var before := c.server;
    ghost var ensured, mid;
    first, ensured, mid := EnsureDesired(c, d, own, initial);
    sent, between := c.log, c.server;
    second := first;
    if first.Ok? {
      RunSettles(d, own, initial, before, mid, c.server);
      if c.cache.Some? && c.cache.value != Snapshot(c.server, c.etag) {
        c.cache := None;
      }
      ghost var again, mid';
      second, again, mid' := EnsureDesired(c, d, own, initial);
      if c.dependable && Ready(before) {
        EvolutionKeepsReady(d, before, between);
        SettledIsUnblocked(d, own, Managed(d, between), between);
      }
    }
  }

  /** Nothing that is synced is blocked. */
  lemma SettledIsUnblocked(d: Desired, own: IngressState, managed: set<string>, lb: LoadBalancer)
    requires WellFormed(d) && Owned(d, own) && own.backendSets + managed <= d.sets.Keys
    requires Ready(lb) && Settled(d, own, managed, lb)
    ensures Unblocked(d, own.backendSets + managed, own.ports, lb)
  {
    forall n | n in own.backendSets + managed ensures !SetIsBlocked(d, n, lb) {
      assert SetIsSynced(d, n, lb);
      SetSyncFailsIff(d.sets[n], lb.backendSets[n]);
    }
    forall p | p in own.ports ensures !PortIsBlocked(d, p, lb) {
      assert p in PortsOf(lb) && GoodListenerGoal(d, p, d.listeners[p]);
      PortHasItsName(lb, p);
      var l := lb.listeners[ListenerName(p)];
      ListenerNameInjective(l.port, p);
      assert ListenerIsSynced(d, ListenerName(p), lb);
      ListenerSyncFailsIff(d.listeners[p], l);
    }
  }

  // ---- Whole-class convergence -------------------------------------------------------------

  /** The ingress of one step of a pass, the backends it creates backend sets with, and the state it
      reaches before its deletions. */
  datatype PassStep = PassStep(own: IngressState, initial: map<string, seq<Backend>>, mid: LoadBalancer)

  /** Everything but deletions was accepted, and deletions were refused for integrity only. */
  ghost predicate Passed(d: Desired, step: PassStep, before: LoadBalancer, after: LoadBalancer) {
    RunEnsures(d, step.own, step.initial, before, step.mid, after) && OnlyIntegrity(d, step.mid, after)
  }

  ghost predicate Pass(d: Desired, steps: seq<PassStep>, states: seq<LoadBalancer>) {
    |states| == |steps| + 1 && forall i :: 0 <= i < |steps| ==> Passed(d, steps[i], states[i], states[i + 1])
  }

  /** Together the steps own the whole class. */
  ghost predicate Covers(d: Desired, steps: seq<PassStep>) {
    (forall n :: n in d.sets ==> exists i :: 0 <= i < |steps| && n in steps[i].own.backendSets)
    && forall p :: p in d.listeners ==> exists i :: 0 <= i < |steps| && p in steps[i].own.ports
  }

  ghost predicate AllSynced(d: Desired, lb: LoadBalancer) {
    (forall n :: n in d.sets ==> SetIsSynced(d, n, lb)) && forall p :: p in d.listeners ==> PortIsSynced(d, p, lb)
  }

  lemma {:induction false} PassKeeps(d: Desired, steps: seq<PassStep>, states: seq<LoadBalancer>, i: nat)
    requires WellFormed(d) && Pass(d, steps, states) && i < |states|
    requires Canonical(states[0]) && OwnPolicies(states[0])
    ensures Canonical(states[i]) && OwnPolicies(states[i]) && states[i].policies == states[0].policies
  {
    if i > 0 {
      PassKeeps(d, steps, states, i - 1);
      var step := steps[i - 1];
      assert Passed(d, step, states[i - 1], states[i]);
      RunKeepsCanonical(d, step.own, step.initial, states[i - 1], step.mid, states[i]);
      RunKeepsPolicies(d, step.own, step.initial, states[i - 1], step.mid, states[i]);
    }
  }

  /** What every step keeps, a chain of steps keeps. */
  lemma {:induction false} ChainKeeps<S(!new)>(states: seq<S>, holds: S -> bool, i: nat, j: nat)
    requires i <= j < |states| && holds(states[i])
    requires forall k :: 0 <= k < |states| - 1 && holds(states[k]) ==> holds(states[k + 1])
    ensures holds(states[j])
    decreases j
  {
    if i < j {
      ChainKeeps(states, holds, i, j - 1);
    }
  }

  lemma SetStays(d: Desired, steps: seq<PassStep>, states: seq<LoadBalancer>, i: nat, n: string)
    requires Pass(d, steps, states) && i < |states| && n in d.sets && SetIsSynced(d, n, states[i])
    ensures SetIsSynced(d, n, states[|steps|])
  {
    var holds := (lb: LoadBalancer) => SetIsSynced(d, n, lb);
    forall k | 0 <= k < |states| - 1 && holds(states[k]) ensures holds(states[k + 1]) {
      assert Passed(d, steps[k], states[k], states[k + 1]);
      SyncedSetStays(d, steps[k].own, steps[k].initial, states[k], steps[k].mid, states[k + 1], n);
    }
    ChainKeeps(states, holds, i, |steps|);
  }

  /** A synced listener stays synced, and keeps its policy. */
  lemma PortStays(d: Desired, steps: seq<PassStep>, states: seq<LoadBalancer>, i: nat, p: int)
    requires Pass(d, steps, states) && i < |states| && p in d.listeners && PortIsSynced(d, p, states[i])
    ensures PortIsSynced(d, p, states[|steps|]) && states[|steps|].listeners[ListenerName(p)] == states[i].listeners[ListenerName(p)]
  {
    var l := states[i].listeners[ListenerName(p)];
    var holds := (lb: LoadBalancer) => PortIsSynced(d, p, lb) && lb.listeners[ListenerName(p)] == l;
    forall k | 0 <= k < |states| - 1 && holds(states[k]) ensures holds(states[k + 1]) {
      assert Passed(d, steps[k], states[k], states[k + 1]);
      SyncedPortStays(d, steps[k].own, steps[k].initial, states[k], steps[k].mid, states[k + 1], p);
    }
    ChainKeeps(states, holds, i, |steps|);
  }

  /** One pass over all ingresses syncs every backend set and every listener of the class, even if
      deletions are refused. */
  lemma PassSyncsAll(d: Desired, steps: seq<PassStep>, states: seq<LoadBalancer>)
    requires WellFormed(d) && Pass(d, steps, states) && Covers(d, steps)
    requires Canonical(states[0]) && OwnPolicies(states[0])
    ensures AllSynced(d, states[|steps|])
  {
    forall n | n in d.sets ensures SetIsSynced(d, n, states[|steps|]) {
      var i :| 0 <= i < |steps| && n in steps[i].own.backendSets;
      assert Passed(d, steps[i], states[i], states[i + 1]);
      StagedSetIsSynced(d, steps[i].own, steps[i].initial, states[i], steps[i].mid, states[i + 1], n);
      SetStays(d, steps, states, i + 1, n);
    }
    forall p | p in d.listeners ensures PortIsSynced(d, p, states[|steps|]) {
      var i :| 0 <= i < |steps| && p in steps[i].own.ports;
      assert Passed(d, steps[i], states[i], states[i + 1]);
      PassKeeps(d, steps, states, i);
      OwnPortIsSynced(d, steps[i].own, steps[i].initial, states[i], steps[i].mid, states[i + 1], p);
      PortStays(d, steps, states, i + 1, p);
    }
  }

  /** Desired routing policies belong to desired listeners and forward to desired backend sets. */
  ghost predicate GoodRoutes(d: Desired, routes: Routes) {
    routes.Keys <= NamesOf(d.listeners.Keys)
    && forall n, i :: n in routes && 0 <= i < |routes[n]| ==> routes[n][i].backendSet in d.sets
  }

  /** Attaching and detaching policies leaves everything synced. */
  lemma RoutingKeepsSynced(d: Desired, routes: Routes, before: LoadBalancer, after: LoadBalancer)
    requires AllSynced(d, before) && RoutesEnsured(routes, before, after)
    ensures AllSynced(d, after)
  {
    forall p | p in d.listeners ensures PortIsSynced(d, p, after) {
      assert PortIsSynced(d, p, before);
    }
    forall n | n in d.sets ensures SetIsSynced(d, n, after) {
      assert SetIsSynced(d, n, before);
    }
  }

  /** Once all is synced and routed, no unwanted backend set is held. */
  lemma NothingStaleIsHeld(d: Desired, routes: Routes, lb: LoadBalancer, n: string)
    requires WellFormed(d) && GoodRoutes(d, routes) && AllSynced(d, lb) && Canonical(lb) && lb.policies == routes
    requires n !in d.sets
    ensures !Held(d, lb, n)
  {
    forall k | k in lb.listeners && lb.listeners[k].port in d.listeners ensures lb.listeners[k].defaultBs != n {
      var p := lb.listeners[k].port;
      assert PortIsSynced(d, p, lb) && GoodListenerGoal(d, p, d.listeners[p]);
      ListenerSyncedIff(d.listeners[p], lb.listeners[k]);
    }
  }

  /** Nothing but the class's listeners and backend sets, all of them synced. */
  ghost predicate Exact(d: Desired, lb: LoadBalancer) {
    AllSynced(d, lb) && lb.listeners.Keys == NamesOf(d.listeners.Keys) && lb.backendSets.Keys == d.sets.Keys
  }

  /** A step that starts from a synced and routed load balancer leaves nothing unwanted. */
  lemma SyncedStepIsExact(d: Desired, routes: Routes, step: PassStep, before: LoadBalancer, after: LoadBalancer)
    requires WellFormed(d) && GoodRoutes(d, routes) && Passed(d, step, before, after)
    requires AllSynced(d, before) && Canonical(before) && OwnPolicies(before) && before.policies == routes
    ensures Exact(d, after) && Canonical(after) && OwnPolicies(after) && after.policies == routes
  {
    RunKeepsCanonical(d, step.own, step.initial, before, step.mid, after);
    RunKeepsPolicies(d, step.own, step.initial, before, step.mid, after);
    AllStaysSynced(d, step, before, step.mid);
    AllStaysSynced(d, step, before, after);
    forall n | n in step.mid.backendSets && n !in d.sets ensures !Held(d, step.mid, n) {
      NothingStaleIsHeld(d, routes, step.mid, n);
    }
    SyncedIsExact(d, after);
  }

  /** With everything synced and nothing unwanted left, the keys are exactly the desired ones. */
  lemma SyncedIsExact(d: Desired, lb: LoadBalancer)
    requires AllSynced(d, lb) && Canonical(lb) && lb.backendSets.Keys <= d.sets.Keys
    requires forall n :: n in lb.listeners ==> lb.listeners[n].port in d.listeners
    ensures Exact(d, lb)
  {
    forall n ensures n in lb.listeners <==> n in NamesOf(d.listeners.Keys) {
      if n in NamesOf(d.listeners.Keys) {
        var p :| p in d.listeners && ListenerName(p) == n;
        assert PortIsSynced(d, p, lb);
      }
    }
    forall n | n in d.sets ensures n in lb.backendSets {
      assert SetIsSynced(d, n, lb);
    }
  }

  lemma AllStaysSynced(d: Desired, step: PassStep, before: LoadBalancer, after: LoadBalancer)
    requires AllSynced(d, before) && RunEnsures(d, step.own, step.initial, before, step.mid, after)
    ensures AllSynced(d, after)
  {
    forall n | n in d.sets ensures SetIsSynced(d, n, after) {
      SyncedSetStays(d, step.own, step.initial, before, step.mid, after, n);
    }
    forall p | p in d.listeners ensures PortIsSynced(d, p, after) {
      SyncedPortStays(d, step.own, step.initial, before, step.mid, after, p);
    }
  }

  lemma {:induction false} SecondPassIsExact(d: Desired, routes: Routes, steps: seq<PassStep>, states: seq<LoadBalancer>, i: nat)
    requires WellFormed(d) && GoodRoutes(d, routes) && Pass(d, steps, states) && 0 < i < |states|
    requires AllSynced(d, states[0]) && Canonical(states[0]) && OwnPolicies(states[0]) && states[0].policies == routes
    ensures Exact(d, states[i]) && Canonical(states[i]) && OwnPolicies(states[i]) && states[i].policies == routes
  {
    assert Passed(d, steps[i - 1], states[i - 1], states[i]);
    if i > 1 {
      SecondPassIsExact(d, routes, steps, states, i - 1);
    }
    SyncedStepIsExact(d, routes, steps[i - 1], states[i - 1], states[i]);
  }

  /** The load balancer is exactly the desired one. */
  ghost predicate Converged(d: Desired, routes: Routes, lb: LoadBalancer) {
    Exact(d, lb) && lb.policies == routes
    && forall p :: p in d.listeners ==>
         ListenerName(p) in lb.listeners
         && lb.listeners[ListenerName(p)].policy == (if ListenerName(p) in routes then Some(ListenerName(p)) else None)
  }

  /** What that means for each listener and each backend set. */
  lemma ConvergedMeans(d: Desired, routes: Routes, lb: LoadBalancer)
    requires WellFormed(d) && Converged(d, routes, lb)
    ensures lb.policies == routes && lb.backendSets.Keys == d.sets.Keys && lb.listeners.Keys == NamesOf(d.listeners.Keys)
    ensures forall p :: p in d.listeners ==>
      ListenerName(p) in lb.listeners && lb.listeners[ListenerName(p)].port == p && ListenerMeets(d.listeners[p], lb.listeners[ListenerName(p)])
    ensures forall n :: n in d.sets ==> n in lb.backendSets && SetMeets(d.sets[n], lb.backendSets[n])
  {
    forall p | p in d.listeners
      ensures ListenerName(p) in lb.listeners && lb.listeners[ListenerName(p)].port == p
      ensures ListenerMeets(d.listeners[p], lb.listeners[ListenerName(p)])
    {
      assert PortIsSynced(d, p, lb) && GoodListenerGoal(d, p, d.listeners[p]);
      ListenerSyncedIff(d.listeners[p], lb.listeners[ListenerName(p)]);
    }
    forall n | n in d.sets ensures n in lb.backendSets && SetMeets(d.sets[n], lb.backendSets[n]) {
      assert SetIsSynced(d, n, lb) && GoodSetGoal(d.sets[n]);
      BackendSetSyncedIff(d.sets[n], lb.backendSets[n]);
    }
  }

  ghost predicate SetMeets(goal: BackendSetGoal, bs: BackendSet) {
    TlsInPlace(goal, bs.ssl) && SameChecker(goal.checker, bs.checker) && bs.policy == goal.policy
    && bs.app == goal.app && bs.lb == goal.lb
  }

  /** One pass over every ingress of the class, one routing pass, and a second pass: whatever the load
      balancer was like before, it is now exactly the desired one. */
  lemma ClassConverges(d: Desired, routes: Routes, steps1: seq<PassStep>, states1: seq<LoadBalancer>,
                       steps2: seq<PassStep>, states2: seq<LoadBalancer>)
    requires WellFormed(d) && GoodRoutes(d, routes)
    requires Pass(d, steps1, states1) && Covers(d, steps1)
    requires Canonical(states1[0]) && OwnPolicies(states1[0])
    requires Pass(d, steps2, states2) && Covers(d, steps2)
    requires RoutesEnsured(routes, states1[|steps1|], states2[0]) && OwnPolicies(states2[0])
    ensures Converged(d, routes, states2[|steps2|])
  {
    PassSyncsAll(d, steps1, states1);
    PassKeeps(d, steps1, states1, |steps1|);
    RoutingKeepsSynced(d, routes, states1[|steps1|], states2[0]);
    assert exists i :: 0 <= i < |steps2| && DEFAULT_BACKEND_SET in steps2[i].own.backendSets;
    SecondPassIsExact(d, routes, steps2, states2, |steps2|);
    forall p | p in d.listeners
      ensures ListenerName(p) in states2[|steps2|].listeners
      ensures states2[|steps2|].listeners[ListenerName(p)].policy == (if ListenerName(p) in routes then Some(ListenerName(p)) else None)
    {
      assert PortIsSynced(d, p, states2[0]);
      PortStays(d, steps2, states2, 0, p);
    }
  }

  // ---- Obstacles -------------------------------------------------------------------------

  /** Nothing in the class is blocked. */
  ghost predicate ClassUnblocked(d: Desired, lb: LoadBalancer) {
    Unblocked(d, d.sets.Keys, d.listeners.Keys, lb)
  }

  ghost predicate SameObstacles(d: Desired, before: LoadBalancer, after: LoadBalancer) {
    (forall n :: n in d.sets ==> (SetIsBlocked(d, n, before) <==> SetIsBlocked(d, n, after)))
    && forall p :: p in d.listeners ==> (PortIsBlocked(d, p, before) <==> PortIsBlocked(d, p, after))
  }

  /** What is synced is not blocked. */
  lemma SyncedIsUnblocked(d: Desired, lb: LoadBalancer)
    requires WellFormed(d) && Ready(lb) && AllSynced(d, lb)
    ensures ClassUnblocked(d, lb)
  {
    forall n | n in d.sets ensures !SetIsBlocked(d, n, lb) {
      assert SetIsSynced(d, n, lb);
      SetSyncFailsIff(d.sets[n], lb.backendSets[n]);
    }
    forall p | p in d.listeners ensures !PortIsBlocked(d, p, lb) {
      assert PortIsSynced(d, p, lb) && GoodListenerGoal(d, p, d.listeners[p]);
      ListenerSyncFailsIff(d.listeners[p], lb.listeners[ListenerName(p)]);
    }
  }

  /** Routing policies do not come into it. */
  lemma RoutingKeepsObstacles(d: Desired, before: LoadBalancer, after: LoadBalancer)
    requires SameButPolicies(before, after) && Ready(before) && OwnPolicies(after)
    ensures Ready(after) && SameObstacles(d, before, after)
  {
    forall p | p in d.listeners ensures PortIsBlocked(d, p, before) <==> PortIsBlocked(d, p, after) {
      if ListenerName(p) in before.listeners {
        assert after.listeners[ListenerName(p)].ssl == before.listeners[ListenerName(p)].ssl;
      }
    }
  }

  /** A synced listener can be sent back. */
  lemma SyncedListenerCarries(d: Desired, n: string, lb: LoadBalancer)
    requires WellFormed(d) && Ready(lb) && AllSynced(d, lb)
    requires n in lb.listeners && lb.listeners[n].port in d.listeners
    ensures CanCarry(n, lb)
  {
    var l := lb.listeners[n];
    var goal := d.listeners[l.port];
    assert PortIsSynced(d, l.port, lb) && GoodListenerGoal(d, l.port, goal);
    ListenerSyncedIff(goal, l);
    ListenerSyncFailsIff(goal, l);
    if goal.explicit.Some? {
      TlsPolicy.RequestableResolves(TlsPolicy.ListenerResource(Http2Family(goal.protocol)), goal.explicit.value);
    }
    assert goal.defaultBs in d.sets;
    assert SetIsSynced(d, goal.defaultBs, lb);
  }

  /** Once the class is synced and unwanted listeners are gone, its policies can be attached. */
  lemma SyncedIsRoutable(d: Desired, routes: Routes, lb: LoadBalancer)
    requires WellFormed(d) && GoodRoutes(d, routes) && Ready(lb) && AllSynced(d, lb)
    requires forall n :: n in lb.listeners ==> lb.listeners[n].port in d.listeners
    ensures Routable(routes, lb)
  {
    forall n | n in lb.listeners ensures CanCarry(n, lb) {
      SyncedListenerCarries(d, n, lb);
    }
    forall n | n in routes ensures n in lb.listeners && RulesResolvable(routes[n], lb) {
      var p :| p in d.listeners && ListenerName(p) == n;
      assert PortIsSynced(d, p, lb);
      forall i | 0 <= i < |routes[n]| ensures routes[n][i].backendSet in lb.backendSets {
        assert SetIsSynced(d, routes[n][i].backendSet, lb);
      }
    }
  }
}
