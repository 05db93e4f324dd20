/** One pass of the routing policy controller over a class. */
module RoutingController {
  import opened Wrappers
  import opened Ingresses
  import opened LoadBalancers
  import opened DesiredState
  import opened LoadBalancerClient
  import opened IngressController
  import RoutingRules
  import Sorting

  type Routes = map<string, seq<RoutingRules.RoutingRule>>

  // ---- Policies and the listeners that carry them -----------------------------------------

  /** A request that keeps it so: policies are attached after their creation and deleted after their
      detachment. */
  predicate KeepsOwnPolicies(e: Event) {
    (e.ListenerSent? && (e.listener.policy.Some? ==> e.listener.policy == Some(e.name) && e.name in e.before.policies))
    || e.PolicyCreated? || e.PolicyUpdated?
    || (e.PolicyDeleted? && forall n :: n in e.before.listeners ==> e.before.listeners[n].policy != Some(e.name))
  }

  function IsOrderly(): Event -> bool {
    (e: Event) => KeepsOwnPolicies(e)
  }

  ghost predicate Orderly(before: seq<Event>, log: seq<Event>) {
    Suffix(before, log, IsOrderly())
  }

  lemma OrderlyGrows(before: seq<Event>, now: seq<Event>, next: seq<Event>, q: Event -> bool)
    requires Orderly(before, now) && OneMore(now, next, q)
    requires forall e :: q(e) ==> KeepsOwnPolicies(e)
    ensures Orderly(before, next)
  {
    SuffixGrows(before, now, next, IsOrderly(), q, IsOrderly());
  }

  /** Nothing has changed but the policies of these names and their attachment. */
  ghost predicate OnlyRoutes(names: set<string>, before: LoadBalancer, after: LoadBalancer) {
    after.backendSets == before.backendSets
    && after.listeners.Keys == before.listeners.Keys
    && (forall n :: n in before.listeners ==> after.listeners[n] == before.listeners[n].(policy := after.listeners[n].policy))
    && (forall n :: n in before.listeners && n !in names ==> after.listeners[n].policy == before.listeners[n].policy)
    && forall n :: n !in names ==> LookupOption(after.policies, n) == LookupOption(before.policies, n)
  }

  /** The listener `n` carries its policy, with these rules. */
  ghost predicate Routed(n: string, rules: seq<RoutingRules.RoutingRule>, lb: LoadBalancer) {
    n in lb.listeners && lb.listeners[n].policy == Some(n) && n in lb.policies && lb.policies[n] == rules
  }

  /** Nothing has changed but policies and their attachment. */
  ghost predicate SameButPolicies(before: LoadBalancer, after: LoadBalancer) {
    after.backendSets == before.backendSets
    && after.listeners.Keys == before.listeners.Keys
    && forall n :: n in before.listeners ==> after.listeners[n] == before.listeners[n].(policy := after.listeners[n].policy)
  }

  /** The listener can be sent back with a policy or without one. */
  predicate CanCarry(n: string, lb: LoadBalancer) {
    n in lb.listeners && !Customized(lb.listeners[n].ssl) && lb.listeners[n].defaultBs in lb.backendSets
  }

  // ---- One policy ------------------------------------------------------------------------

  method SetRoutingPolicyOnListener(c: Client, name: string) returns (r: Result<(), UpdateError>)
    requires c.Valid() && OwnPolicies(c.server) && name in c.server.policies && name !in c.touchedListeners
    modifies c
    ensures c.Valid() && OwnPolicies(c.server)
    ensures c.touchedPolicies == old(c.touchedPolicies) && c.touchedListeners <= old(c.touchedListeners) + {name}
    ensures OnlyRoutes({name}, old(c.server), c.server) && c.server.policies == old(c.server).policies
    ensures r.Ok? ==> name in c.server.listeners && c.server.listeners[name].policy == Some(name)
    ensures c.dependable && CanCarry(name, old(c.server)) ==> r.Ok?
    ensures OneMore(old(c.log), c.log, IsOrderly())
  {
    var seen :- c.GetLoadBalancer();
    assert LookupOption(seen.lb.listeners, name) == LookupOption(c.server.listeners, name);
    if name !in seen.lb.listeners {
      return Err(NotFound(name));
    }
    if seen.lb.listeners[name].policy == Some(name) {
      return Ok(());
    }
    r := c.SetListenerPolicy(seen, name, Some(name));
  }

  lemma SameRouteTwice(name: string, a: LoadBalancer, b: LoadBalancer, c: LoadBalancer)
    requires OnlyRoutes({name}, a, b) && OnlyRoutes({name}, b, c)
    ensures OnlyRoutes({name}, a, c)
  {
    forall n | n !in {name} ensures LookupOption(c.policies, n) == LookupOption(a.policies, n) {
      assert LookupOption(c.policies, n) == LookupOption(b.policies, n);
    }
  }

  /** Whether or not the policy had to be created, it exists; if it was, it has its rules. */
  method CreateIfMissing(c: Client, name: string, rules: seq<RoutingRules.RoutingRule>) returns (r: Result<(), UpdateError>)
    requires c.Valid() && OwnPolicies(c.server) && name !in c.touchedPolicies
    modifies c
    ensures c.Valid() && OwnPolicies(c.server)
    ensures c.touchedListeners == old(c.touchedListeners) && c.touchedPolicies <= old(c.touchedPolicies) + {name}
    ensures OnlyRoutes({name}, old(c.server), c.server)
    ensures r.Ok? ==> name in c.server.policies && (c.server.policies[name] == rules || name !in c.touchedPolicies)
    ensures c.dependable && RulesResolvable(rules, old(c.server)) ==> r.Ok?
    ensures OneMore(old(c.log), c.log, (e: Event) => e.PolicyCreated?)
  {
    var seen :- c.GetLoadBalancer();
    assert LookupOption(seen.lb.policies, name) == LookupOption(c.server.policies, name);
    if name in seen.lb.policies {
      return Ok(());
    }
    r := c.CreateRoutingPolicy(name, rules);
  }

  method UpdateRules(c: Client, name: string, rules: seq<RoutingRules.RoutingRule>) returns (r: Result<(), UpdateError>)
    requires c.Valid() && OwnPolicies(c.server) && name in c.server.policies
    requires c.server.policies[name] == rules || name !in c.touchedPolicies
    modifies c
    ensures c.Valid() && OwnPolicies(c.server)
    ensures c.touchedListeners == old(c.touchedListeners) && c.touchedPolicies <= old(c.touchedPolicies) + {name}
    ensures OnlyRoutes({name}, old(c.server), c.server) && c.server.listeners == old(c.server).listeners
    ensures r.Ok? ==> name in c.server.policies && c.server.policies[name] == rules
    ensures c.dependable && RulesResolvable(rules, old(c.server)) ==> r.Ok?
    ensures OneMore(old(c.log), c.log, (e: Event) => e.PolicyUpdated?)
  {
    r := c.UpdateRoutingPolicyRules(name, rules);
  }

  /** Create, attach, update: in this order. */
  method EnsureRoutingPolicy(c: Client, name: string, rules: seq<RoutingRules.RoutingRule>) returns (r: Result<(), UpdateError>)
    requires c.Valid() && OwnPolicies(c.server) && name !in c.touchedPolicies && name !in c.touchedListeners
    modifies c
    ensures c.Valid() && OwnPolicies(c.server)
    ensures c.touchedPolicies <= old(c.touchedPolicies) + {name} && c.touchedListeners <= old(c.touchedListeners) + {name}
    ensures OnlyRoutes({name}, old(c.server), c.server)
    ensures r.Ok? ==> Routed(name, rules, c.server)
    ensures c.dependable && CanCarry(name, old(c.server)) && RulesResolvable(rules, old(c.server)) ==> r.Ok?
    ensures Orderly(old(c.log), c.log)
  {
    ghost var log0, before := c.log, c.server;
    var created := CreateIfMissing(c, name, rules);
    OrderlyGrows(log0, log0, c.log, (e: Event) => e.PolicyCreated?);
    if created.Err? {
      return Err(created.error);
    }
    ghost var log1, mid := c.log, c.server;
    var attached := SetRoutingPolicyOnListener(c, name);
    OrderlyGrows(log0, log1, c.log, IsOrderly());
    SameRouteTwice(name, before, mid, c.server);
    if attached.Err? {
      return Err(attached.error);
    }
    ghost var log2, bound := c.log, c.server;
    r := UpdateRules(c, name, rules);
    OrderlyGrows(log0, log2, c.log, (e: Event) => e.PolicyUpdated?);
    SameRouteTwice(name, before, bound, c.server);
  }

  // ---- All policies of a class ------------------------------------------------------------

  lemma OnlyRoutesGrow(names: set<string>, name: string, before: LoadBalancer, now: LoadBalancer, next: LoadBalancer)
    requires OnlyRoutes(names, before, now) && OnlyRoutes({name}, now, next)
    ensures OnlyRoutes(names + {name}, before, next)
  {
    forall n | n !in names + {name} ensures LookupOption(next.policies, n) == LookupOption(before.policies, n) {
      assert LookupOption(next.policies, n) == LookupOption(now.policies, n);
    }
  }

  lemma RoutedElsewhere(n: string, rules: seq<RoutingRules.RoutingRule>, name: string, now: LoadBalancer, next: LoadBalancer)
    requires Routed(n, rules, now) && OnlyRoutes({name}, now, next) && n != name
    ensures Routed(n, rules, next)
  {
    assert LookupOption(next.policies, n) == LookupOption(now.policies, n);
  }

  ghost predicate AllRouted(names: set<string>, routes: Routes, lb: LoadBalancer) {
    forall n :: n in names ==> n in routes && Routed(n, routes[n], lb)
  }

  lemma AllRoutedStay(names: set<string>, routes: Routes, name: string, now: LoadBalancer, next: LoadBalancer)
    requires AllRouted(names, routes, now) && OnlyRoutes({name}, now, next) && name !in names
    ensures AllRouted(names, routes, next)
  {
    forall n | n in names ensures Routed(n, routes[n], next) {
      RoutedElsewhere(n, routes[n], name, now, next);
    }
  }

  lemma OrderlyJoin(a: seq<Event>, b: seq<Event>, c: seq<Event>)
    requires Orderly(a, b) && Orderly(b, c)
    ensures Orderly(a, c)
  {
    JoinSuffixes(a, b, c, IsOrderly(), IsOrderly(), IsOrderly());
  }

  /** The desired policies can be attached, and their rules followed. */
  ghost predicate Routable(routes: Routes, lb: LoadBalancer) {
    routes.Keys <= lb.listeners.Keys
    && (forall n :: n in lb.listeners ==> CanCarry(n, lb))
    && forall n :: n in routes ==> RulesResolvable(routes[n], lb)
  }

  /** A policy that cannot be brought about does not keep the others from being tried: all that have not
      failed are in place afterwards. The first error is reported at the end. */
  method EnsurePolicies(c: Client, routes: Routes) returns (firstError: Option<UpdateError>, ghost failed: set<string>)
    requires c.Valid() && OwnPolicies(c.server) && c.touchedPolicies == {} && c.touchedListeners == {}
    modifies c
    ensures c.Valid() && OwnPolicies(c.server)
    ensures c.touchedPolicies <= routes.Keys && c.touchedListeners <= routes.Keys
    ensures OnlyRoutes(routes.Keys, old(c.server), c.server)
    ensures failed <= routes.Keys && (firstError.None? <==> failed == {})
    ensures forall n :: n in routes && n !in failed ==> Routed(n, routes[n], c.server)
    ensures c.dependable && Routable(routes, old(c.server)) ==> failed == {}
    ensures Orderly(old(c.log), c.log)
  {
    firstError, failed := None, {};
    var names := Sorting.List(routes.Keys);
    ghost var before, log := c.server, c.log;
    for i := 0 to |names|
      invariant Sorting.Elements(names[..i]) <= Sorting.Elements(names)
      invariant c.Valid() && OwnPolicies(c.server)
      invariant c.touchedPolicies <= Sorting.Elements(names[..i]) && c.touchedListeners <= Sorting.Elements(names[..i])
      invariant OnlyRoutes(Sorting.Elements(names[..i]), before, c.server)
      invariant failed <= Sorting.Elements(names[..i]) && (firstError.None? <==> failed == {})
      invariant AllRouted(Sorting.Elements(names[..i]) - failed, routes, c.server)
      invariant c.dependable && Routable(routes, before) ==> failed == {}
      invariant Orderly(log, c.log)
    {
      Sorting.NextElement(names, i);
      ghost var now, sent := c.server, c.log;
      var ensured := EnsureRoutingPolicy(c, names[i], routes[names[i]]);
      OrderlyJoin(log, sent, c.log);
      OnlyRoutesGrow(Sorting.Elements(names[..i]), names[i], before, now, c.server);
      AllRoutedStay(Sorting.Elements(names[..i]) - failed, routes, names[i], now, c.server);
      if ensured.Err? {
        StillRoutable(Sorting.Elements(names[..i]), routes, names[i], before, now);
        failed := failed + {names[i]};
        if firstError.None? {
          firstError := Some(ensured.error);
        }
      }
    }
    assert names[..|names|] == names;
  }

  lemma StillRoutable(names: set<string>, routes: Routes, name: string, before: LoadBalancer, now: LoadBalancer)
    requires OnlyRoutes(names, before, now) && name in routes
    ensures Routable(routes, before) ==> CanCarry(name, now) && RulesResolvable(routes[name], now)
  {
    if Routable(routes, before) {
      assert CanCarry(name, before);
    }
  }

  /** The listener `n` carries no policy, and there is no policy of that name. */
  ghost predicate Unrouted(n: string, lb: LoadBalancer) {
    n !in lb.policies && (n in lb.listeners ==> lb.listeners[n].policy.None?)
  }

  method DetachPolicy(c: Client, name: string) returns (r: Result<(), UpdateError>)
    requires c.Valid() && OwnPolicies(c.server) && name !in c.touchedListeners
    modifies c
    ensures c.Valid() && OwnPolicies(c.server)
    ensures c.touchedPolicies == old(c.touchedPolicies) && c.touchedListeners <= old(c.touchedListeners) + {name}
    ensures OnlyRoutes({name}, old(c.server), c.server)
    ensures r.Ok? && name in c.server.listeners ==> c.server.listeners[name].policy.None?
    ensures c.dependable && (name in old(c.server).listeners ==> CanCarry(name, old(c.server))) ==> r.Ok?
    ensures OneMore(old(c.log), c.log, IsOrderly())
  {
    var seen :- c.GetLoadBalancer();
    assert LookupOption(seen.lb.listeners, name) == LookupOption(c.server.listeners, name);
    if name in seen.lb.listeners {
      r := c.SetListenerPolicy(seen, name, None);
      return;
    }
    return Ok(());
  }

  method DeletePolicy(c: Client, name: string) returns (r: Result<(), UpdateError>)
    requires c.Valid() && OwnPolicies(c.server) && name !in c.touchedPolicies
    requires name in c.server.listeners ==> c.server.listeners[name].policy.None?
    modifies c
    ensures c.Valid() && OwnPolicies(c.server)
    ensures c.touchedListeners == old(c.touchedListeners) && c.touchedPolicies <= old(c.touchedPolicies) + {name}
    ensures OnlyRoutes({name}, old(c.server), c.server)
    ensures r.Ok? ==> Unrouted(name, c.server)
    ensures c.dependable ==> r.Ok?
    ensures OneMore(old(c.log), c.log, IsOrderly())
  {
    var seen :- c.GetLoadBalancer();
    assert LookupOption(seen.lb.policies, name) == LookupOption(c.server.policies, name);
    if name in seen.lb.policies {
      r := c.DeleteRoutingPolicy(name);
      return;
    }
    return Ok(());
  }

  /** Detach a policy that is no longer wanted, then delete it. */
  method RemovePolicy(c: Client, name: string) returns (r: Result<(), UpdateError>)
    requires c.Valid() && OwnPolicies(c.server) && name !in c.touchedPolicies && name !in c.touchedListeners
    modifies c
    ensures c.Valid() && OwnPolicies(c.server)
    ensures c.touchedPolicies <= old(c.touchedPolicies) + {name} && c.touchedListeners <= old(c.touchedListeners) + {name}
    ensures OnlyRoutes({name}, old(c.server), c.server)
    ensures r.Ok? ==> Unrouted(name, c.server)
    ensures c.dependable && (name in old(c.server).listeners ==> CanCarry(name, old(c.server))) ==> r.Ok?
    ensures Orderly(old(c.log), c.log)
  {
    ghost var log0, before := c.log, c.server;
    var detached := DetachPolicy(c, name);
    OrderlyGrows(log0, log0, c.log, IsOrderly());
    if detached.Err? {
      return Err(detached.error);
    }
    ghost var log1, loose := c.log, c.server;
    r := DeletePolicy(c, name);
    OrderlyGrows(log0, log1, c.log, IsOrderly());
    SameRouteTwice(name, before, loose, c.server);
  }

  ghost predicate AllUnrouted(names: set<string>, lb: LoadBalancer) {
    forall n :: n in names ==> Unrouted(n, lb)
  }

  lemma AllUnroutedStay(names: set<string>, name: string, now: LoadBalancer, next: LoadBalancer)
    requires AllUnrouted(names, now) && OnlyRoutes({name}, now, next) && name !in names
    ensures AllUnrouted(names, next)
  {
    forall n | n in names ensures Unrouted(n, next) {
      assert LookupOption(next.policies, n) == LookupOption(now.policies, n);
    }
  }

  lemma StillCarries(names: set<string>, name: string, before: LoadBalancer, now: LoadBalancer)
    requires OnlyRoutes(names, before, now) && forall n :: n in before.listeners ==> CanCarry(n, before)
    ensures name in now.listeners ==> CanCarry(name, now)
  {
    assert name in before.listeners ==> CanCarry(name, before);
  }

  method RemovePolicies(c: Client, stale: set<string>) returns (r: Result<(), UpdateError>)
    requires c.Valid() && OwnPolicies(c.server) && stale !! c.touchedPolicies && stale !! c.touchedListeners
    modifies c
    ensures c.Valid() && OwnPolicies(c.server)
    ensures OnlyRoutes(stale, old(c.server), c.server)
    ensures r.Ok? ==> forall n :: n in stale ==> Unrouted(n, c.server)
    ensures c.dependable && (forall n :: n in old(c.server).listeners ==> CanCarry(n, old(c.server))) ==> r.Ok?
    ensures Orderly(old(c.log), c.log)
  {
    var names := Sorting.List(stale);
    ghost var before, log := c.server, c.log;
    for i := 0 to |names|
      invariant Sorting.Elements(names[..i]) <= Sorting.Elements(names)
      invariant c.Valid() && OwnPolicies(c.server)
      invariant c.touchedPolicies <= old(c.touchedPolicies) + Sorting.Elements(names[..i])
      invariant c.touchedListeners <= old(c.touchedListeners) + Sorting.Elements(names[..i])
      invariant OnlyRoutes(Sorting.Elements(names[..i]), before, c.server)
      invariant AllUnrouted(Sorting.Elements(names[..i]), c.server)
      invariant Orderly(log, c.log)
    {
      Sorting.NextElement(names, i);
      ghost var now, sent := c.server, c.log;
      if forall n :: n in before.listeners ==> CanCarry(n, before) {
        StillCarries(Sorting.Elements(names[..i]), names[i], before, now);
      }
      r := RemovePolicy(c, names[i]);
      OrderlyJoin(log, sent, c.log);
      OnlyRoutesGrow(Sorting.Elements(names[..i]), names[i], before, now, c.server);
      if r.Err? {
        SomeRoutes(Sorting.Elements(names[..i + 1]), stale, before, c.server);
        return;
      }
      AllUnroutedStay(Sorting.Elements(names[..i]), names[i], now, c.server);
    }
    assert names[..|names|] == names;
    return Ok(());
  }

  lemma SomeRoutes(some: set<string>, names: set<string>, before: LoadBalancer, after: LoadBalancer)
    requires some <= names && OnlyRoutes(some, before, after)
    ensures OnlyRoutes(names, before, after)
  {
  }

  /** The routing policies are exactly the desired ones, each carried by its own listener and by no
      other; nothing else has changed. */
  ghost predicate RoutesEnsured(routes: Routes, before: LoadBalancer, after: LoadBalancer) {
    after.policies == routes
    && after.backendSets == before.backendSets
    && after.listeners.Keys == before.listeners.Keys && routes.Keys <= after.listeners.Keys
    && forall n :: n in after.listeners ==>
         after.listeners[n] == before.listeners[n].(policy := if n in routes then Some(n) else None)
  }

  /** Remove the policies that are no longer wanted, as the cache shows them. */
  method RemoveStale(c: Client, routes: Routes) returns (r: Result<(), UpdateError>)
    requires c.Valid() && OwnPolicies(c.server) && c.touchedPolicies <= routes.Keys && c.touchedListeners <= routes.Keys
    modifies c
    ensures c.Valid() && OwnPolicies(c.server)
    ensures OnlyRoutes(old(c.server).policies.Keys - routes.Keys, old(c.server), c.server)
    ensures r.Ok? ==> AllUnrouted(old(c.server).policies.Keys - routes.Keys, c.server)
    ensures c.dependable && (forall n :: n in old(c.server).listeners ==> CanCarry(n, old(c.server))) ==> r.Ok?
    ensures Orderly(old(c.log), c.log)
  {
    var seen :- c.GetLoadBalancer();
    var stale := seen.lb.policies.Keys - routes.Keys;
    forall n ensures n in stale <==> n in c.server.policies.Keys - routes.Keys {
      assert n !in routes ==> LookupOption(seen.lb.policies, n) == LookupOption(c.server.policies, n);
    }
    assert stale == c.server.policies.Keys - routes.Keys;
    r := RemovePolicies(c, stale);
  }

  lemma RoutesOfBoth(names: set<string>, stale: set<string>, before: LoadBalancer, mid: LoadBalancer, after: LoadBalancer)
    requires OnlyRoutes(names, before, mid) && OnlyRoutes(stale, mid, after)
    ensures SameButPolicies(before, after)
    ensures forall n :: n in before.listeners && CanCarry(n, before) ==> CanCarry(n, mid)
  {
  }

  method EnsureRoutingRules(c: Client, routes: Routes) returns (r: Result<(), UpdateError>)
    requires c.cache.Some? ==> c.Current()
    requires OwnPolicies(c.server)
    modifies c
    ensures c.Valid() && OwnPolicies(c.server) && Orderly(old(c.log), c.log)
    ensures SameButPolicies(old(c.server), c.server)
    ensures r.Ok? ==> RoutesEnsured(routes, old(c.server), c.server)
    ensures c.dependable && Routable(routes, old(c.server)) ==> r.Ok?
  {
    c.touchedSets, c.touchedListeners, c.touchedPolicies := {}, {}, {};
    ghost var before, log0 := c.server, c.log;
    var firstError, failed := EnsurePolicies(c, routes);
    ghost var mid, log1 := c.server, c.log;
    var removed := RemoveStale(c, routes);
    ghost var stale := mid.policies.Keys - routes.Keys;
    OrderlyJoin(log0, log1, c.log);
    RoutesOfBoth(routes.Keys, stale, before, mid, c.server);
    if removed.Err? {
      return Err(removed.error);
    }
    if firstError.Some? {
      return Err(firstError.value);
    }
    RoutesComeTogether(routes, stale, before, mid, c.server);
    return Ok(());
  }

  lemma PoliciesComeTogether(routes: Routes, stale: set<string>, mid: LoadBalancer, after: LoadBalancer)
    requires OnlyRoutes(stale, mid, after) && stale == mid.policies.Keys - routes.Keys && AllUnrouted(stale, after)
    requires forall n :: n in routes ==> Routed(n, routes[n], mid)
    ensures after.policies == routes
  {
    forall n ensures LookupOption(after.policies, n) == LookupOption(routes, n) {
      if n !in stale { assert LookupOption(after.policies, n) == LookupOption(mid.policies, n); }
    }
    forall n ensures n in after.policies <==> n in routes {
      assert LookupOption(after.policies, n) == LookupOption(routes, n);
    }
    forall n | n in routes ensures after.policies[n] == routes[n] {
      assert LookupOption(after.policies, n) == LookupOption(routes, n);
    }
  }

  lemma RoutesComeTogether(routes: Routes, stale: set<string>, before: LoadBalancer, mid: LoadBalancer, after: LoadBalancer)
    requires OwnPolicies(after) && OnlyRoutes(routes.Keys, before, mid) && OnlyRoutes(stale, mid, after)
    requires forall n :: n in routes ==> Routed(n, routes[n], mid)
    requires stale == mid.policies.Keys - routes.Keys && AllUnrouted(stale, after)
    ensures RoutesEnsured(routes, before, after)
  {
    PoliciesComeTogether(routes, stale, mid, after);
    forall n | n in routes ensures n in after.listeners {
      assert Routed(n, routes[n], mid);
    }
  }
}
