/** The load balancer client of a controller that works alone: a cache over a server that may
    refuse any request, or only those that break a reference, and a log of everything sent. */
module LoadBalancerClient {
  import opened Wrappers
  import opened Ingresses
  import opened LoadBalancers
  import opened Reconcile
  import opened DesiredState
  import RoutingRules
  import TlsPolicy

  datatype Snapshot = Snapshot(lb: LoadBalancer, etag: nat)

  /** A request as it was sent, accepted or not, with the state of the server just before. */
  datatype Event =
    | Refreshed(before: LoadBalancer)
    | SetCreated(name: string, backendSet: BackendSet, before: LoadBalancer)
    | SetUpdated(name: string, backendSet: BackendSet, before: LoadBalancer)
    | ListenerSent(name: string, listener: Listener, before: LoadBalancer)
    | ListenerDeleted(name: string, before: LoadBalancer)
    | SetDeleted(name: string, before: LoadBalancer)
    | PolicyCreated(name: string, rules: seq<RoutingRules.RoutingRule>, before: LoadBalancer)
    | PolicyUpdated(name: string, rules: seq<RoutingRules.RoutingRule>, before: LoadBalancer)
    | PolicyDeleted(name: string, before: LoadBalancer)

  /** Both absent, or the same up to the order of protocols. */
  predicate SameTls(a: Option<Ssl>, b: Option<Ssl>) {
    if a.None? || b.None? then a == b
    else a.value.ids == b.value.ids && a.value.cipher == b.value.cipher && ProtocolsEqual(a.value.protocols, b.value.protocols)
  }

  /** The creation of a backend set, or a change of the TLS settings of a managed one. */
  predicate StagingWrite(e: Event, managed: set<string>) {
    e.SetCreated?
    || (e.SetUpdated? && e.name in managed && e.name in e.before.backendSets
        && !SameTls(e.backendSet.ssl, e.before.backendSets[e.name].ssl))
  }

  predicate ListenerWrite(e: Event) {
    e.ListenerSent? || e.ListenerDeleted?
  }

  /** At most one more event, of which `p` holds. */
  ghost predicate OneMore(before: seq<Event>, after: seq<Event>, p: Event -> bool) {
    before <= after && |after| <= |before| + 1 && (|after| > |before| ==> p(after[|before|]))
  }

  predicate PutSet(n: string, bs: BackendSet, before: LoadBalancer, after: LoadBalancer) {
    after == before.(backendSets := before.backendSets[n := bs])
  }

  predicate PutPolicy(n: string, rules: seq<RoutingRules.RoutingRule>, before: LoadBalancer, after: LoadBalancer) {
    after == before.(policies := before.policies[n := rules])
  }

  predicate PutOneListener(n: string, l: Listener, before: LoadBalancer, after: LoadBalancer) {
    after == before.(listeners := before.listeners[n := l])
  }

  /** Syncing a backend set brings its TLS settings in place, and says so if it had to change them. */
  lemma SyncBringsTlsInPlace(goal: BackendSetGoal, bs: BackendSet)
    requires GoodSetGoal(goal) && BackendSetSync(goal, bs).Ok?
    ensures TlsInPlace(goal, SetAfterSync(goal, bs).ssl)
    ensures BackendSetSync(goal, bs).value.Some? && !SameTls(SetAfterSync(goal, bs).ssl, bs.ssl) ==>
      BackendSetSync(goal, bs).value.value.1
  {
    if goal.ssl.Some? && goal.explicit.Some? {
      TlsPolicy.RequestableResolves(TlsPolicy.BackendSetResource, goal.explicit.value);
      var p := TlsPolicy.Overlay(TlsPolicy.BackendSetResource, goal.explicit.value).value;
      if bs.ssl.Some? {
        ProtocolsEqualIff(bs.ssl.value.protocols, p.protocols);
        ProtocolsEqualIff(p.protocols, bs.ssl.value.protocols);
      }
    } else if bs.ssl.Some? {
      ProtocolsEqualIff(bs.ssl.value.protocols, bs.ssl.value.protocols);
    }
  }

  lemma CreationBringsTlsInPlace(goal: BackendSetGoal, backends: seq<Backend>)
    requires GoodSetGoal(goal)
    ensures BackendSetCreate(goal, backends).Ok? && TlsInPlace(goal, BackendSetCreate(goal, backends).value.ssl)
  {
    if goal.ssl.Some? && goal.explicit.Some? {
      TlsPolicy.RequestableResolves(TlsPolicy.BackendSetResource, goal.explicit.value);
    }
  }

  /** The two differ at most on the objects listed. */
  ghost predicate AgreeBut(sets: set<string>, listeners: set<string>, policies: set<string>, a: LoadBalancer, b: LoadBalancer) {
    (forall n :: n !in sets ==> LookupOption(a.backendSets, n) == LookupOption(b.backendSets, n))
    && (forall n :: n !in listeners ==> LookupOption(a.listeners, n) == LookupOption(b.listeners, n))
    && forall n :: n !in policies ==> LookupOption(a.policies, n) == LookupOption(b.policies, n)
  }

  function SetAfterSync(goal: BackendSetGoal, bs: BackendSet): BackendSet
    requires BackendSetSync(goal, bs).Ok?
  {
    var sent := BackendSetSync(goal, bs).value;
    if sent.None? then bs else sent.value.0
  }

  function ListenerAfterSync(goal: ListenerGoal, l: Listener): Listener
    requires ListenerSync(goal, l).Ok?
  {
    var sent := ListenerSync(goal, l).value;
    if sent.None? then l else sent.value
  }

  /** What the state store says about a port, which need not be one it knows. */
  function GoalFor(d: Desired, port: int): ListenerGoal {
    Lookup(d.listeners, port, ListenerGoal(port, None, None, "", "", None))
  }

  predicate SetIsSynced(d: Desired, n: string, lb: LoadBalancer)
    requires n in d.sets
  {
    n in lb.backendSets && BackendSetSynced(d.sets[n], lb.backendSets[n])
  }

  predicate ListenerIsSynced(d: Desired, n: string, lb: LoadBalancer) {
    n in lb.listeners && ListenerSynced(GoalFor(d, lb.listeners[n].port), lb.listeners[n])
  }

  ghost predicate SetSynced(goal: BackendSetGoal, n: string, before: LoadBalancer, after: LoadBalancer)
    requires n in before.backendSets
  {
    BackendSetSync(goal, before.backendSets[n]).Ok?
    && PutSet(n, SetAfterSync(goal, before.backendSets[n]), before, after)
  }

  ghost predicate ListenerSyncedAt(d: Desired, n: string, before: LoadBalancer, after: LoadBalancer) {
    n in before.listeners
    && ListenerSync(GoalFor(d, before.listeners[n].port), before.listeners[n]).Ok?
    && PutOneListener(n, ListenerAfterSync(GoalFor(d, before.listeners[n].port), before.listeners[n]), before, after)
  }

  /** A listener update names the default backend set of the goal, if the goal has one. */
  predicate NamesGoalSet(d: Desired, n: string, e: Event)
    requires e.ListenerSent?
  {
    n in e.before.listeners
    && var goal := GoalFor(d, e.before.listeners[n].port);
       goal.defaultBs != "" ==> e.listener.defaultBs == goal.defaultBs
  }

  // ---- References ------------------------------------------------------------------------

  /** A listener names a default backend set and perhaps a policy. */
  predicate Resolvable(l: Listener, lb: LoadBalancer) {
    l.defaultBs in lb.backendSets && (l.policy.Some? ==> l.policy.value in lb.policies)
  }

  predicate RulesResolvable(rules: seq<RoutingRules.RoutingRule>, lb: LoadBalancer) {
    forall i :: 0 <= i < |rules| ==> rules[i].backendSet in lb.backendSets
  }

  /** The backend set is the default of a listener or the target of a routing rule. */
  predicate Referenced(lb: LoadBalancer, n: string) {
    (exists k :: k in lb.listeners && lb.listeners[k].defaultBs == n)
    || exists k, i :: k in lb.policies && 0 <= i < |lb.policies[k]| && lb.policies[k][i].backendSet == n
  }

  /** Some listener carries the policy. */
  predicate Carried(lb: LoadBalancer, n: string) {
    exists k :: k in lb.listeners && lb.listeners[k].policy == Some(n)
  }

  /** Listeners carry no policy, or the existing policy of their own name. */
  predicate OwnPolicies(lb: LoadBalancer) {
    forall n :: n in lb.listeners && lb.listeners[n].policy.Some? ==> lb.listeners[n].policy == Some(n) && n in lb.policies
  }

  /** The listener is sent with the policy it has on the server, and without one if it is new. */
  predicate CarriesPolicy(e: Event)
    requires e.ListenerSent?
  {
    e.listener.policy == if e.name in e.before.listeners then e.before.listeners[e.name].policy else None
  }

  /** The listener is there, its sync does not fail, and what it then refers to is there as well. */
  predicate CanSync(d: Desired, n: string, lb: LoadBalancer) {
    n in lb.listeners
    && var goal := GoalFor(d, lb.listeners[n].port);
       ListenerSync(goal, lb.listeners[n]).Ok? && Resolvable(ListenerAfterSync(goal, lb.listeners[n]), lb)
  }

  function NewListener(goal: ListenerGoal, ssl: Option<Ssl>): Listener {
    Listener(goal.port, goal.protocol, goal.defaultBs, ssl, ConnectionFor(goal.idle, None), None)
  }

  /** The pair shows the listener, or its absence, as it is on the server. */
  predicate RightAbout(seen: Snapshot, name: string, lb: LoadBalancer) {
    LookupOption(seen.lb.listeners, name) == LookupOption(lb.listeners, name)
  }

  class Client {
    /** A dependable server answers every read, and accepts every request whose object is there and under
        the right etag, unless it would leave a reference to something missing. Any other may refuse
        whatever it likes. */
    const dependable: bool
    var server: LoadBalancer
    var etag: nat
    var cache: Option<Snapshot>
    var log: seq<Event>
    ghost var touchedSets: set<string>
    ghost var touchedListeners: set<string>
    ghost var touchedPolicies: set<string>

    /** A pair that was read during this run: an out-of-date one differs from the server only where
        the run itself has written since. */
    ghost predicate Follows(s: Snapshot)
      reads this
    {
      s.etag <= etag && (s.etag == etag ==> s.lb == server) && AgreeBut(touchedSets, touchedListeners, touchedPolicies, s.lb, server)
    }

    ghost predicate Coherent()
      reads this
    {
      cache.Some? ==> Follows(cache.value)
    }

    ghost predicate Current()
      reads this
    {
      cache == Some(Snapshot(server, etag))
    }

    /** A dependable server leaves the cache current, as every change is followed by a read. */
    ghost predicate Valid()
      reads this
    {
      Coherent() && (dependable && cache.Some? ==> Current())
    }

    method Fetch() returns (r: Result<Snapshot, UpdateError>)
      requires Coherent()
      modifies `cache
      ensures Valid() && (dependable ==> r.Ok?)
      ensures r.Ok? ==> r.value == Snapshot(server, etag) && cache == Some(r.value)
      ensures r.Err? ==> cache == old(cache)
    {
      var fails: bool := *;
      if fails && !dependable {
        return Err(Refused);
      }
      cache := Some(Snapshot(server, etag));
      return Ok(cache.value);
    }

    /** The cached pair, unless it has expired. */
    method GetLoadBalancer() returns (r: Result<Snapshot, UpdateError>)
      requires Valid()
      modifies `cache
      ensures Valid()
      ensures r.Ok? ==> Follows(r.value)
      ensures r.Ok? && (old(cache).None? || old(Current())) ==> r.value == Snapshot(server, etag)
      ensures dependable ==> r == Ok(Snapshot(server, etag))
    {
      var expired: bool := *;
      if cache.Some? && !expired {
        return Ok(cache.value);
      }
      r := Fetch();
    }

    method RefreshLoadBalancer() returns (r: Result<Snapshot, UpdateError>)
      requires Valid()
      modifies `cache, `log
      ensures Valid() && (dependable ==> r.Ok?)
      ensures r.Ok? ==> r.value == Snapshot(server, etag) && Current()
      ensures log == old(log) + [Refreshed(server)]
    {
      log := log + [Refreshed(server)];
      r := Fetch();
    }

    /** After an accepted request the cache is refreshed, but a failure to do so is ignored. */
    method AfterWorkRequest()
      requires Coherent()
      modifies `cache
      ensures Valid()
    {
      var ignored := Fetch();
    }

    method CreateBackendSet(name: string, bs: BackendSet) returns (r: Result<(), UpdateError>)
      requires Valid()
      modifies this
      ensures Valid()
      ensures touchedListeners == old(touchedListeners) && touchedSets <= old(touchedSets) + {name}
      ensures touchedPolicies == old(touchedPolicies)
      ensures r.Err? ==> server == old(server)
      ensures r.Ok? && name in old(server).backendSets ==> server == old(server)
      ensures r.Ok? && name !in old(touchedSets) && name !in old(server).backendSets ==>
        PutSet(name, bs, old(server), server)
      ensures server == old(server) || (name !in old(server).backendSets && PutSet(name, bs, old(server), server))
      ensures dependable ==> r.Ok?
      ensures OneMore(old(log), log, (e: Event) => e.SetCreated?)
    {
      var seen :- GetLoadBalancer();
      assert name !in touchedSets ==> LookupOption(seen.lb.backendSets, name) == LookupOption(server.backendSets, name);
      if name in seen.lb.backendSets {
        return Ok(());
      }
      log := log + [SetCreated(name, bs, server)];
      if name in server.backendSets {
        return Ok(());
      }
      var refused: bool := *;
      if refused && !dependable {
        return Err(Refused);
      }
      server, etag, touchedSets := server.(backendSets := server.backendSets[name := bs]), etag + 1, touchedSets + {name};
      AfterWorkRequest();
      return Ok(());
    }

    method PutBackendSet(seen: Snapshot, name: string, bs: BackendSet) returns (r: Result<(), UpdateError>)
      requires Valid() && Follows(seen)
      modifies this
      ensures Valid()
      ensures touchedListeners == old(touchedListeners) && touchedSets <= old(touchedSets) + {name}
      ensures touchedPolicies == old(touchedPolicies)
      ensures r.Err? ==> server == old(server)
      ensures r.Ok? ==> seen.lb == old(server) && name in seen.lb.backendSets && PutSet(name, bs, old(server), server)
      ensures dependable && seen == Snapshot(old(server), old(etag)) && name in old(server).backendSets ==> r.Ok?
      ensures log == old(log) + [SetUpdated(name, bs, old(server))]
    {
      log := log + [SetUpdated(name, bs, server)];
      var refused: bool := *;
      if (refused && !dependable) || seen.etag != etag || name !in server.backendSets {
        return Err(Refused);
      }
      server, etag, touchedSets := server.(backendSets := server.backendSets[name := bs]), etag + 1, touchedSets + {name};
      AfterWorkRequest();
      return Ok(());
    }

    /** Returns whether TLS settings of a managed backend set were staged. */
    method SyncBackendSet(d: Desired, name: string, managed: set<string>) returns (r: Result<bool, UpdateError>)
      requires Valid() && name in d.sets && GoodSetGoal(d.sets[name]) && name !in touchedSets
      modifies this
      ensures Valid()
      ensures touchedListeners == old(touchedListeners) && touchedSets <= old(touchedSets) + {name}
      ensures touchedPolicies == old(touchedPolicies)
      ensures r.Err? ==> server == old(server)
      ensures r.Ok? ==> name in old(server).backendSets && SetSynced(d.sets[name], name, old(server), server)
      ensures OneMore(old(log), log, (e: Event) => e.SetUpdated? && (r.Ok? && StagingWrite(e, managed) ==> r.value))
      ensures dependable && name in old(server).backendSets && BackendSetSync(d.sets[name], old(server).backendSets[name]).Ok? ==> r.Ok?
      ensures SetIsSynced(d, name, old(server)) ==> log == old(log) && server == old(server) && (r.Ok? ==> !r.value)
    {
      var seen :- GetLoadBalancer();
      assert LookupOption(seen.lb.backendSets, name) == LookupOption(server.backendSets, name);
      if name !in seen.lb.backendSets {
        return Err(NotFound(name));
      }
      var bs := seen.lb.backendSets[name];
      var sent :- BackendSetSync(d.sets[name], bs);
      SyncBringsTlsInPlace(d.sets[name], bs);
      if sent.None? {
        assert server.backendSets[name := bs] == server.backendSets;
        return Ok(false);
      }
      var _ :- PutBackendSet(seen, name, sent.value.0);
      return Ok(sent.value.1 && name in managed);
    }

    method PutListener(seen: Snapshot, name: string, l: Listener) returns (r: Result<(), UpdateError>)
      requires Valid() && Follows(seen)
      modifies this
      ensures Valid()
      ensures touchedSets == old(touchedSets) && touchedListeners <= old(touchedListeners) + {name}
      ensures touchedPolicies == old(touchedPolicies)
      ensures r.Err? ==> server == old(server)
      ensures r.Ok? ==> seen.lb == old(server) && name in seen.lb.listeners && PutOneListener(name, l, old(server), server)
      ensures dependable && seen == Snapshot(old(server), old(etag)) && name in old(server).listeners && Resolvable(l, old(server)) ==> r.Ok?
      ensures log == old(log) + [ListenerSent(name, l, old(server))]
    {
      log := log + [ListenerSent(name, l, server)];
      var refused: bool := *;
      refused := refused && !(dependable && Resolvable(l, server));
      if refused || seen.etag != etag || name !in server.listeners {
        return Err(Refused);
      }
      server, etag, touchedListeners := server.(listeners := server.listeners[name := l]), etag + 1, touchedListeners + {name};
      AfterWorkRequest();
      return Ok(());
    }

    /** The sync of a listener, from a pair that is right about it. */
    method SyncSeenListener(d: Desired, name: string, seen: Snapshot) returns (r: Result<(), UpdateError>)
      requires Valid() && Follows(seen)
      modifies this
      ensures Valid()
      ensures touchedSets == old(touchedSets) && touchedListeners <= old(touchedListeners) + {name}
      ensures touchedPolicies == old(touchedPolicies)
      ensures server == old(server) || ListenerSyncedAt(d, name, old(server), server)
      ensures r.Ok? && RightAbout(seen, name, old(server)) ==> ListenerSyncedAt(d, name, old(server), server)
      ensures dependable && seen == Snapshot(old(server), old(etag)) && CanSync(d, name, old(server)) ==> r.Ok?
      ensures ListenerIsSynced(d, name, old(server)) && RightAbout(seen, name, old(server)) ==> log == old(log) && server == old(server)
      ensures OneMore(old(log), log, (e: Event) => e.ListenerSent? && e.before == old(server)
        && (RightAbout(seen, name, old(server)) ==> e.name == name && NamesGoalSet(d, name, e) && CarriesPolicy(e)))
    {
      if name !in seen.lb.listeners {
        return Err(NotFound(name));
      }
      var l := seen.lb.listeners[name];
      var sent :- ListenerSync(GoalFor(d, l.port), l);
      if sent.None? {
        assert RightAbout(seen, name, server) ==> server.listeners[name := l] == server.listeners;
        return Ok(());
      }
      ListenerSyncFrame(GoalFor(d, l.port), l);
      var _ :- PutListener(seen, name, sent.value);
      return Ok(());
    }

    method SyncListener(d: Desired, name: string) returns (r: Result<(), UpdateError>)
      requires Valid()
      modifies this
      ensures Valid()
      ensures touchedSets == old(touchedSets) && touchedListeners <= old(touchedListeners) + {name}
      ensures touchedPolicies == old(touchedPolicies)
      ensures server == old(server) || ListenerSyncedAt(d, name, old(server), server)
      ensures r.Ok? && name !in old(touchedListeners) ==> ListenerSyncedAt(d, name, old(server), server)
      ensures dependable && CanSync(d, name, old(server)) ==> r.Ok?
      ensures ListenerIsSynced(d, name, old(server)) && name !in old(touchedListeners) ==> log == old(log) && server == old(server)
      ensures OneMore(old(log), log, (e: Event) => e.ListenerSent? && e.before == old(server)
        && (name !in old(touchedListeners) || old(Current()) ==> e.name == name && NamesGoalSet(d, name, e) && CarriesPolicy(e)))
    {
      var seen :- GetLoadBalancer();
      assert name !in touchedListeners ==> RightAbout(seen, name, server);
      r := SyncSeenListener(d, name, seen);
    }

    method CreateListener(name: string, goal: ListenerGoal, ssl: Option<Ssl>) returns (r: Result<(), UpdateError>)
      requires Valid()
      modifies this
      ensures Valid()
      ensures touchedSets == old(touchedSets) && touchedListeners <= old(touchedListeners) + {name}
      ensures touchedPolicies == old(touchedPolicies)
      ensures server == old(server)
        || (name !in old(server).listeners && !(TlsIsRequired(goal.protocol) && ssl.None?)
            && PutOneListener(name, NewListener(goal, ssl), old(server), server))
      ensures r.Err? ==> server == old(server)
      ensures r.Ok? && name !in old(touchedListeners) && name !in old(server).listeners ==>
        !(TlsIsRequired(goal.protocol) && ssl.None?) && PutOneListener(name, NewListener(goal, ssl), old(server), server)
      ensures dependable && name !in old(server).listeners && !(TlsIsRequired(goal.protocol) && ssl.None?) ==>
        goal.defaultBs in old(server).backendSets ==> r.Ok?
      ensures OneMore(old(log), log, (e: Event) => e == ListenerSent(name, NewListener(goal, ssl), old(server))
        && (old(Current()) ==> name !in e.before.listeners))
    {
      var seen :- GetLoadBalancer();
      assert name !in touchedListeners ==> LookupOption(seen.lb.listeners, name) == LookupOption(server.listeners, name);
      if name in seen.lb.listeners {
        return Ok(());
      }
      if TlsIsRequired(goal.protocol) && ssl.None? {
        return Err(TlsRequired(goal.protocol));
      }
      var l := NewListener(goal, ssl);
      log := log + [ListenerSent(name, l, server)];
      var refused: bool := *;
      refused := refused && !(dependable && Resolvable(l, server));
      if refused || name in server.listeners {
        return Err(Refused);
      }
      server, etag, touchedListeners := server.(listeners := server.listeners[name := l]), etag + 1, touchedListeners + {name};
      AfterWorkRequest();
      return Ok(());
    }

    /** Deletions carry no etag. */
    method DeleteListener(name: string) returns (r: Result<(), UpdateError>)
      requires Valid()
      modifies this
      ensures Valid()
      ensures touchedSets == old(touchedSets) && touchedListeners <= old(touchedListeners) + {name}
      ensures touchedPolicies == old(touchedPolicies)
      ensures server == old(server) || server == old(server).(listeners := old(server).listeners - {name})
      ensures r.Ok? && name !in old(touchedListeners) ==> server == old(server).(listeners := old(server).listeners - {name})
      ensures dependable ==> r.Ok?
      ensures log == old(log) || log == old(log) + [ListenerDeleted(name, old(server))]
    {
      var seen :- GetLoadBalancer();
      assert name !in touchedListeners ==> LookupOption(seen.lb.listeners, name) == LookupOption(server.listeners, name);
      if name !in seen.lb.listeners {
        assert name !in touchedListeners ==> server.listeners - {name} == server.listeners;
        return Ok(());
      }
      log := log + [ListenerDeleted(name, server)];
      if name !in server.listeners {
        assert server.listeners - {name} == server.listeners;
        return Ok(());
      }
      var refused: bool := *;
      if refused && !dependable {
        return Err(Refused);
      }
      server, etag, touchedListeners := server.(listeners := server.listeners - {name}), etag + 1, touchedListeners + {name};
      AfterWorkRequest();
      return Ok(());
    }

    method DeleteBackendSet(name: string) returns (r: Result<(), UpdateError>)
      requires Valid()
      modifies this
      ensures Valid()
      ensures touchedListeners == old(touchedListeners) && touchedSets <= old(touchedSets) + {name}
      ensures touchedPolicies == old(touchedPolicies)
      ensures server == old(server) || server == old(server).(backendSets := old(server).backendSets - {name})
      ensures r.Ok? && name !in old(touchedSets) ==> server == old(server).(backendSets := old(server).backendSets - {name})
      ensures dependable && !Referenced(old(server), name) ==> r.Ok?
      ensures log == old(log) || log == old(log) + [SetDeleted(name, old(server))]
    {
      var seen :- GetLoadBalancer();
      assert name !in touchedSets ==> LookupOption(seen.lb.backendSets, name) == LookupOption(server.backendSets, name);
      if name !in seen.lb.backendSets {
        assert name !in touchedSets ==> server.backendSets - {name} == server.backendSets;
        return Ok(());
      }
      log := log + [SetDeleted(name, server)];
      if name !in server.backendSets {
        assert server.backendSets - {name} == server.backendSets;
        return Ok(());
      }
      var refused: bool := *;
      if refused && !(dependable && !Referenced(server, name)) {
        return Err(Refused);
      }
      server, etag, touchedSets := server.(backendSets := server.backendSets - {name}), etag + 1, touchedSets + {name};
      AfterWorkRequest();
      return Ok(());
    }

    // ---- Routing policies ----------------------------------------------------------------

    /** The policy is created unless it is already there, according to the cache or to the server. */
    method CreateRoutingPolicy(name: string, rules: seq<RoutingRules.RoutingRule>) returns (r: Result<(), UpdateError>)
      requires Valid()
      modifies this
      ensures Valid()
      ensures touchedSets == old(touchedSets) && touchedListeners == old(touchedListeners)
      ensures touchedPolicies <= old(touchedPolicies) + {name}
      ensures server == old(server) || PutPolicy(name, rules, old(server), server)
      ensures r.Ok? && name !in old(touchedPolicies) ==>
        name in server.policies && (name in old(server).policies ==> server == old(server))
        && (name !in old(server).policies ==> PutPolicy(name, rules, old(server), server))
      ensures dependable && RulesResolvable(rules, old(server)) ==> r.Ok?
      ensures OneMore(old(log), log, (e: Event) => e.PolicyCreated?)
    {
      var seen :- GetLoadBalancer();
      assert name !in touchedPolicies ==> LookupOption(seen.lb.policies, name) == LookupOption(server.policies, name);
      if name in seen.lb.policies {
        return Ok(());
      }
      log := log + [PolicyCreated(name, rules, server)];
      if name in server.policies {
        return Ok(());
      }
      var refused: bool := *;
      if refused && !(dependable && RulesResolvable(rules, server)) {
        return Err(Refused);
      }
      server, etag, touchedPolicies := server.(policies := server.policies[name := rules]), etag + 1, touchedPolicies + {name};
      AfterWorkRequest();
      return Ok(());
    }

    /** Give the listener `name` a policy, or take it away, keeping the rest as it was read. */
    method SetListenerPolicy(seen: Snapshot, name: string, policy: Option<string>) returns (r: Result<(), UpdateError>)
      requires Valid() && Follows(seen) && name in seen.lb.listeners
      modifies this
      ensures Valid()
      ensures touchedSets == old(touchedSets) && touchedPolicies == old(touchedPolicies)
      ensures touchedListeners <= old(touchedListeners) + {name}
      ensures r.Err? ==> server == old(server)
      ensures r.Ok? ==> seen.lb == old(server)
      ensures r.Ok? ==> PutOneListener(name, seen.lb.listeners[name].(policy := policy), old(server), server)
      ensures dependable && seen == Snapshot(old(server), old(etag)) && !Customized(seen.lb.listeners[name].ssl) ==>
        Resolvable(seen.lb.listeners[name].(policy := policy), old(server)) ==> r.Ok?
      ensures OneMore(old(log), log, (e: Event) => e.ListenerSent? && e.name == name && e.listener.policy == policy && e.before == old(server))
    {
      var l := seen.lb.listeners[name];
      var details :- ListenerDetails(l, policy, None, None, l.protocol, "", true);
      var _ :- PutListener(seen, name, details);
      return Ok(());
    }

    method UpdateRoutingPolicyRules(name: string, rules: seq<RoutingRules.RoutingRule>) returns (r: Result<(), UpdateError>)
      requires Valid()
      modifies this
      ensures Valid()
      ensures touchedSets == old(touchedSets) && touchedListeners == old(touchedListeners)
      ensures touchedPolicies <= old(touchedPolicies) + {name}
      ensures r.Err? ==> server == old(server)
      ensures server == old(server) || (name in old(server).policies && PutPolicy(name, rules, old(server), server))
      ensures r.Ok? && name !in old(touchedPolicies) && name in old(server).policies ==> PutPolicy(name, rules, old(server), server)
      ensures dependable && name in old(server).policies && RulesResolvable(rules, old(server)) ==> r.Ok?
      ensures OneMore(old(log), log, (e: Event) => e == PolicyUpdated(name, rules, old(server)))
    {
      var seen :- GetLoadBalancer();
      assert name !in touchedPolicies ==> LookupOption(seen.lb.policies, name) == LookupOption(server.policies, name);
      var actual := if name in seen.lb.policies then seen.lb.policies[name] else [];
      if actual == rules {
        assert name in server.policies && server.policies[name] == rules ==> server.policies[name := rules] == server.policies;
        return Ok(());
      }
      log := log + [PolicyUpdated(name, rules, server)];
      var refused: bool := *;
      refused := refused && !(dependable && RulesResolvable(rules, server));
      if refused || seen.etag != etag || name !in server.policies {
        return Err(Refused);
      }
      server, etag, touchedPolicies := server.(policies := server.policies[name := rules]), etag + 1, touchedPolicies + {name};
      AfterWorkRequest();
      return Ok(());
    }

    method DeleteRoutingPolicy(name: string) returns (r: Result<(), UpdateError>)
      requires Valid()
      modifies this
      ensures Valid()
      ensures touchedSets == old(touchedSets) && touchedListeners == old(touchedListeners)
      ensures touchedPolicies <= old(touchedPolicies) + {name}
      ensures server == old(server) || server == old(server).(policies := old(server).policies - {name})
      ensures r.Ok? ==> server == old(server).(policies := old(server).policies - {name})
      ensures dependable && !Carried(old(server), name) ==> r.Ok?
      ensures log == old(log) + [PolicyDeleted(name, old(server))]
    {
      log := log + [PolicyDeleted(name, server)];
      if name !in server.policies {
        assert server.policies - {name} == server.policies;
        return Ok(());
      }
      var refused: bool := *;
      if refused && !(dependable && !Carried(server, name)) {
        return Err(Refused);
      }
      server, etag, touchedPolicies := server.(policies := server.policies - {name}), etag + 1, touchedPolicies + {name};
      AfterWorkRequest();
      return Ok(());
    }
  }
}
