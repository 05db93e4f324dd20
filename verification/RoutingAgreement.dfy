/** The two compilers of one ingress class: the state builder and the routing policy controller
    walk the same paths separately, and must agree about ports and backend sets. */
module RoutingAgreement {
  import opened Wrappers
  import opened Text
  import opened Ingresses
  import opened StateBuilder
  import opened StateFacts
  import opened StateTheorems
  import Folding
  import RoutingRules
  import Sorting

  // ---- The routing policy controller's walk ----------------------------------------------

  predicate ForRouting(ic: IngressClass, ing: Ingress) {
    !ing.deleting && !IsTcp(ing) && Belongs(ic, ing)
  }

  function Selected(ic: IngressClass, ings: seq<Ingress>): seq<Ingress> {
    if ings == [] then [] else (if ForRouting(ic, ings[0]) then [ings[0]] else []) + Selected(ic, ings[1..])
  }

  method FilterIngressesForRoutingPolicy(ic: IngressClass, ings: seq<Ingress>) returns (r: seq<Ingress>)
    ensures r == Selected(ic, ings)
  {
    r := [];
    for i := 0 to |ings|
      invariant r == Selected(ic, ings[..i])
    {
      SelectedSnoc(ic, ings[..i], ings[i]);
      assert ings[..i + 1] == ings[..i] + [ings[i]];
      if ings[i].deleting || IsTcp(ings[i]) {
        continue;
      }
      if ings[i].className.None? {
        if ic.isDefault {
          r := r + [ings[i]];
        }
      } else if ings[i].className.value == ic.name {
        r := r + [ings[i]];
      }
    }
    assert ings[..|ings|] == ings;
  }

  lemma {:induction false} SelectedSnoc(ic: IngressClass, ings: seq<Ingress>, ing: Ingress)
    ensures Selected(ic, ings + [ing]) == Selected(ic, ings) + (if ForRouting(ic, ing) then [ing] else [])
  {
    if ings == [] {
      assert [] + [ing] == [ing];
    } else {
      assert (ings + [ing])[0] == ings[0] && (ings + [ing])[1..] == ings[1..] + [ing];
      SelectedSnoc(ic, ings[1..], ing);
    }
  }

  datatype Item = Item(ing: Ingress, path: BackedPath)

  function ItemsOf(ing: Ingress, paths: seq<BackedPath>): seq<Item> {
    if paths == [] then [] else [Item(ing, paths[0])] + ItemsOf(ing, paths[1..])
  }

  /** Every path with a service backend, with its ingress. */
  function Items(ings: seq<Ingress>): seq<Item> {
    if ings == [] then [] else ItemsOf(ings[0], BackedPaths(ings[0].rules)) + Items(ings[1..])
  }

  /** Here every host under spec.tls counts, whatever the protocol. */
  function Located(cluster: Cluster, item: Item): Result<Target, BuildError> {
    Locate(cluster, item.ing, TlsHosts(item.ing), item.path)
  }

  type Paths = map<string, seq<RoutingRules.Entry>>

  function EntryOf(item: Item, t: Target): RoutingRules.Entry {
    Some(RoutingRules.ListenerPath(item.ing.name, t.port, item.path.host, t.bs, Some(item.path.path)))
  }

  function RouteStep(cluster: Cluster, m: Paths, item: Item): Result<Paths, BuildError> {
    var t :- Located(cluster, item);
    Ok(Appended(m, ListenerName(t.port), [EntryOf(item, t)]))
  }

  function RouteStepper(cluster: Cluster): (Paths, Item) -> Result<Paths, BuildError> {
    (m, item) => RouteStep(cluster, m, item)
  }

  function Routes(cluster: Cluster, ings: seq<Ingress>): Result<Paths, BuildError> {
    Folding.Fold(RouteStepper(cluster), map[], Items(ings))
  }

  method ProcessRule(cluster: Cluster, ing: Ingress, host: string, paths: seq<Path>, m: Paths, desired: set<string>)
    returns (r: Result<Paths, BuildError>, names: set<string>)
    requires desired == m.Keys
    ensures r == Folding.Fold(RouteStepper(cluster), m, ItemsOf(ing, RulePaths(host, paths)))
    ensures r.Ok? ==> names == r.value.Keys
  {
    var listenerPaths := m;
    names := desired;
    ghost var step := RouteStepper(cluster);
    assert paths[0..] == paths;
    for j := 0 to |paths|
      invariant names == listenerPaths.Keys
      invariant Folding.Fold(step, m, ItemsOf(ing, RulePaths(host, paths)))
             == Folding.Fold(step, listenerPaths, ItemsOf(ing, RulePaths(host, paths[j..])))
    {
      assert paths[j..][0] == paths[j] && paths[j..][1..] == paths[j + 1..];
      ItemsConcat(ing, Backed(host, paths[j]), RulePaths(host, paths[j + 1..]));
      Folding.FoldConcat(step, listenerPaths, ItemsOf(ing, Backed(host, paths[j])), ItemsOf(ing, RulePaths(host, paths[j + 1..])));
      if paths[j].service.None? {
        continue;
      }
      var service := paths[j].service.value;
      var item := Item(ing, BackedPath(host, paths[j], service));
      Folding.FoldOne(step, listenerPaths, item);
      assert ItemsOf(ing, Backed(host, paths[j])) == [item];
      var servicePort := ServicePort(cluster, ing.namespace, service);
      if servicePort.Err? {
        return Err(servicePort.error), names;
      }
      var port := ListenerPort(ing, TlsHosts(ing), host, servicePort.value);
      if port.Err? {
        return Err(port.error), names;
      }
      var name := ListenerName(port.value);
      var bs := BackendSetName(cluster, ing.namespace, service.name, servicePort.value);
      var entry := Some(RoutingRules.ListenerPath(ing.name, port.value, host, bs, Some(paths[j])));
      listenerPaths := Appended(listenerPaths, name, [entry]);
      names := names + {name};
    }
    return Ok(listenerPaths), names;
  }

  lemma {:induction false} ItemsConcat(ing: Ingress, ps: seq<BackedPath>, qs: seq<BackedPath>)
    ensures ItemsOf(ing, ps + qs) == ItemsOf(ing, ps) + ItemsOf(ing, qs)
  {
    if ps == [] {
      assert ps + qs == qs;
    } else {
      assert (ps + qs)[0] == ps[0] && (ps + qs)[1..] == ps[1..] + qs;
      ItemsConcat(ing, ps[1..], qs);
    }
  }

  method ProcessIngress(cluster: Cluster, ing: Ingress, m: Paths, desired: set<string>)
    returns (r: Result<Paths, BuildError>, names: set<string>)
    requires desired == m.Keys
    ensures r == Folding.Fold(RouteStepper(cluster), m, ItemsOf(ing, BackedPaths(ing.rules)))
    ensures r.Ok? ==> names == r.value.Keys
  {
    var listenerPaths := m;
    names := desired;
    ghost var step := RouteStepper(cluster);
    assert ing.rules[0..] == ing.rules;
    for i := 0 to |ing.rules|
      invariant names == listenerPaths.Keys
      invariant Folding.Fold(step, m, ItemsOf(ing, BackedPaths(ing.rules)))
             == Folding.Fold(step, listenerPaths, ItemsOf(ing, BackedPaths(ing.rules[i..])))
    {
      var rule := ing.rules[i];
      ghost var later := BackedPaths(ing.rules[i + 1..]);
      assert ing.rules[i..][0] == rule && ing.rules[i..][1..] == ing.rules[i + 1..];
      ItemsConcat(ing, PathsOfRule(rule), later);
      Folding.FoldConcat(step, listenerPaths, ItemsOf(ing, PathsOfRule(rule)), ItemsOf(ing, later));
      if rule.paths.None? {
        continue;
      }
      var next;
      next, names := ProcessRule(cluster, ing, rule.host, rule.paths.value, listenerPaths, names);
      if next.Err? {
        return Err(next.error), names;
      }
      listenerPaths := next.value;
    }
    return Ok(listenerPaths), names;
  }

  /** The paths of every listener, and the names of the desired routing policies. */
  method ProcessRoutingPolicy(cluster: Cluster, ings: seq<Ingress>) returns (r: Result<Paths, BuildError>, desired: set<string>)
    ensures r == Routes(cluster, ings)
    ensures r.Ok? ==> desired == r.value.Keys
  {
    var listenerPaths: Paths := map[];
    desired := {};
    ghost var step := RouteStepper(cluster);
    assert ings[0..] == ings;
    for i := 0 to |ings|
      invariant desired == listenerPaths.Keys
      invariant Routes(cluster, ings) == Folding.Fold(step, listenerPaths, Items(ings[i..]))
    {
      assert ings[i..][0] == ings[i] && ings[i..][1..] == ings[i + 1..];
      Folding.FoldConcat(step, listenerPaths, ItemsOf(ings[i], BackedPaths(ings[i].rules)), Items(ings[i + 1..]));
      var next;
      next, desired := ProcessIngress(cluster, ings[i], listenerPaths, desired);
      if next.Err? {
        return Err(next.error), desired;
      }
      listenerPaths := next.value;
    }
    return Ok(listenerPaths), desired;
  }

  // ---- What the walk collects ------------------------------------------------------------

  function Bound(cluster: Cluster, item: Item, name: string): seq<RoutingRules.Entry> {
    match Located(cluster, item)
    case Err(_) => []
    case Ok(t) => if ListenerName(t.port) == name then [EntryOf(item, t)] else []
  }

  /** The paths bound for one listener, in order. */
  function BoundFor(cluster: Cluster, items: seq<Item>, name: string): seq<RoutingRules.Entry>
    decreases |items|
  {
    if items == [] then []
    else BoundFor(cluster, items[..|items| - 1], name) + Bound(cluster, items[|items| - 1], name)
  }

  ghost predicate AllLocated(cluster: Cluster, items: seq<Item>) {
    forall item :: item in items ==> Located(cluster, item).Ok?
  }

  ghost predicate Collected(cluster: Cluster, items: seq<Item>, m: Paths) {
    AllLocated(cluster, items)
    && (forall k :: k in m ==> m[k] != [])
    && forall k :: At(m, k) == BoundFor(cluster, items, k)
  }

  lemma RouteStepCollects(cluster: Cluster, done: seq<Item>, m: Paths, item: Item)
    requires Collected(cluster, done, m)
    ensures RouteStep(cluster, m, item).Ok? <==> AllLocated(cluster, done + [item])
    ensures RouteStep(cluster, m, item).Ok? ==> Collected(cluster, done + [item], RouteStep(cluster, m, item).value)
  {
    var all := done + [item];
    assert all[..|done|] == done && item in all;
    if Located(cluster, item).Ok? {
      var m' := RouteStep(cluster, m, item).value;
      forall k ensures At(m', k) == BoundFor(cluster, all, k) {
        assert At(m, k) == BoundFor(cluster, done, k);
        assert At(m', k) == At(m, k) + Bound(cluster, item, k);
      }
    }
  }

  lemma RoutesCollect(cluster: Cluster, ings: seq<Ingress>)
    ensures Routes(cluster, ings).Ok? <==> AllLocated(cluster, Items(ings))
    ensures Routes(cluster, ings).Ok? ==> Collected(cluster, Items(ings), Routes(cluster, ings).value)
  {
    var ok := (items: seq<Item>) => AllLocated(cluster, items);
    var inv := (items: seq<Item>, m: Paths) => Collected(cluster, items, m);
    assert Folding.PrefixClosed(ok) by {
      forall d, e: seq<Item> | ok(d + e) ensures ok(d) {
        forall item | item in d ensures Located(cluster, item).Ok? { assert item in d + e; }
      }
    }
    assert Folding.StepRespects(RouteStepper(cluster), ok, inv) by {
      forall d, m, item | inv(d, m)
        ensures (RouteStepper(cluster)(m, item).Ok? <==> ok(d + [item]))
          && (RouteStepper(cluster)(m, item).Ok? ==> inv(d + [item], RouteStepper(cluster)(m, item).value))
      {
        RouteStepCollects(cluster, d, m, item);
      }
    }
    assert [] + Items(ings) == Items(ings);
    Folding.FoldInvariant(RouteStepper(cluster), ok, inv, map[], [], Items(ings));
  }

  lemma {:induction false} BoundForMember(cluster: Cluster, items: seq<Item>, name: string, e: RoutingRules.Entry)
    ensures e in BoundFor(cluster, items, name) <==> exists item :: item in items && e in Bound(cluster, item, name)
    decreases |items|
  {
    if items != [] {
      var n := |items| - 1;
      assert items == items[..n] + [items[n]];
      BoundForMember(cluster, items[..n], name, e);
      if item :| item in items[..n] && e in Bound(cluster, item, name) {
        assert item in items;
      }
      assert items[n] in items;
    }
  }

  lemma {:induction false} ItemsOfMember(ing: Ingress, paths: seq<BackedPath>, item: Item)
    ensures item in ItemsOf(ing, paths) <==> item.ing == ing && item.path in paths
  {
    if paths != [] {
      assert paths == [paths[0]] + paths[1..];
      ItemsOfMember(ing, paths[1..], item);
    }
  }

  lemma {:induction false} ItemsMember(ings: seq<Ingress>, item: Item)
    ensures item in Items(ings) <==> item.ing in ings && item.path in BackedPaths(item.ing.rules)
  {
    if ings != [] {
      assert ings == [ings[0]] + ings[1..];
      ItemsOfMember(ings[0], BackedPaths(ings[0].rules), item);
      ItemsMember(ings[1..], item);
    }
  }

  lemma {:induction false} SelectedMember(ic: IngressClass, ings: seq<Ingress>, ing: Ingress)
    ensures ing in Selected(ic, ings) <==> ing in ings && ForRouting(ic, ing)
    ensures ing in Group(ic, ings) <==> ing in ings && Counts(ic, ing)
  {
    if ings != [] {
      assert ings == [ings[0]] + ings[1..];
      SelectedMember(ic, ings[1..], ing);
    }
  }

  // ---- Independence of the lister's order --------------------------------------------------

  lemma {:induction false} BoundForConcat(cluster: Cluster, xs: seq<Item>, ys: seq<Item>, name: string)
    ensures BoundFor(cluster, xs + ys, name) == BoundFor(cluster, xs, name) + BoundFor(cluster, ys, name)
    decreases |ys|
  {
    if ys == [] {
      assert xs + ys == xs;
    } else {
      var n := |ys| - 1;
      Sorting.SplitLast(xs, ys);
      BoundForConcat(cluster, xs, ys[..n], name);
      Sorting.ConcatAssociates(BoundFor(cluster, xs, name), BoundFor(cluster, ys[..n], name), Bound(cluster, ys[n], name));
    }
  }

  function Contributing(cluster: Cluster, name: string): Ingress -> multiset<RoutingRules.Entry> {
    (ing: Ingress) => multiset(BoundFor(cluster, ItemsOf(ing, BackedPaths(ing.rules)), name))
  }

  lemma {:induction false} BoundForIsTotal(cluster: Cluster, ings: seq<Ingress>, name: string)
    ensures multiset(BoundFor(cluster, Items(ings), name)) == Sorting.Total(Contributing(cluster, name), ings)
  {
    if ings != [] {
      BoundForConcat(cluster, ItemsOf(ings[0], BackedPaths(ings[0].rules)), Items(ings[1..]), name);
      BoundForIsTotal(cluster, ings[1..], name);
    }
  }

  /** In whatever order the ingresses are listed, the routing policy of a listener gets the same
      rules. */
  lemma RulesIgnoreLister(cluster: Cluster, hosts: set<string>, ings: seq<Ingress>, jngs: seq<Ingress>, name: string)
    requires multiset(ings) == multiset(jngs)
    requires Routes(cluster, ings).Ok? && name in Routes(cluster, ings).value
    requires RoutingRules.LowerCase(hosts)
    requires var entries := Sorting.Elements(Routes(cluster, ings).value[name]);
      RoutingRules.HostsIn(entries, hosts) && RoutingRules.OneListener(entries)
    ensures Routes(cluster, jngs).Ok? && name in Routes(cluster, jngs).value
    ensures RoutingRules.Rules(cluster.digest, Sorting.Sort(RoutingRules.Less, Routes(cluster, ings).value[name]))
         == RoutingRules.Rules(cluster.digest, Sorting.Sort(RoutingRules.Less, Routes(cluster, jngs).value[name]))
  {
    RoutesCollect(cluster, ings);
    RoutesCollect(cluster, jngs);
    Sorting.SameElements(ings, jngs);
    forall item | item in Items(jngs) ensures Located(cluster, item).Ok? {
      ItemsMember(ings, item);
      ItemsMember(jngs, item);
    }
    BoundForIsTotal(cluster, ings, name);
    BoundForIsTotal(cluster, jngs, name);
    Sorting.TotalIgnoresOrder(Contributing(cluster, name), ings, jngs);
    var s, t := At(Routes(cluster, ings).value, name), At(Routes(cluster, jngs).value, name);
    assert s == BoundFor(cluster, Items(ings), name) && t == BoundFor(cluster, Items(jngs), name);
    SortedAlike(cluster.digest, hosts, s, t);
    Sorting.SameElements(s, t);
  }

  lemma SortedAlike(digest: string -> string, hosts: set<string>, s: seq<RoutingRules.Entry>, t: seq<RoutingRules.Entry>)
    requires multiset(s) == multiset(t) && RoutingRules.LowerCase(hosts)
    requires RoutingRules.HostsIn(Sorting.Elements(s), hosts) && RoutingRules.OneListener(Sorting.Elements(s))
    ensures RoutingRules.Rules(digest, Sorting.Sort(RoutingRules.Less, s)) == RoutingRules.Rules(digest, Sorting.Sort(RoutingRules.Less, t))
  {
    var dom := Sorting.Elements(s);
    var s', t' := Sorting.Sort(RoutingRules.Less, s), Sorting.Sort(RoutingRules.Less, t);
    Sorting.SameElements(s, t);
    Sorting.SortPermutes(RoutingRules.Less, s);
    Sorting.SortPermutes(RoutingRules.Less, t);
    Sorting.SameElements(s', s);
    RoutingRules.LowerCaseIsConvex(hosts);
    RoutingRules.ConvexOrders(hosts, dom);
    Sorting.SortSorts(RoutingRules.Less, s, dom);
    Sorting.SortSorts(RoutingRules.Less, t, dom);
    RoutingRules.RulesIgnoreOrder(digest, hosts, s', t');
  }

  // ---- Agreement -------------------------------------------------------------------------

  ghost predicate Accepted(ic: IngressClass, ings: seq<Ingress>) {
    forall ing :: ing in ings && Counts(ic, ing) ==> AcceptedProtocol(ing)
  }

  lemma SortedGroupMember(ic: IngressClass, ings: seq<Ingress>, ing: Ingress)
    ensures ing in SortedGroup(ic, ings) <==> ing in ings && Counts(ic, ing)
  {
    SelectedMember(ic, ings, ing);
    Sorting.SortPermutes(IngressLess, Group(ic, ings));
    Sorting.SameElements(SortedGroup(ic, ings), Group(ic, ings));
  }

  /** A routed item is a path of the state builder, of an ingress that is not TCP, located alike. */
  lemma ItemIsVisit(cluster: Cluster, ic: IngressClass, ings: seq<Ingress>, item: Item)
    requires Accepted(ic, ings) && item in Items(Selected(ic, ings))
    requires GroupResolves(cluster, SortedGroup(ic, ings))
    ensures var r := ResolveFor(cluster, item.ing, item.path);
      r.Ok? && r.value in GroupVisits(cluster, SortedGroup(ic, ings)) && !IsTcp(item.ing)
      && Located(cluster, item) == Ok(Target(r.value.port, r.value.bs))
      && r.value.ing == item.ing && r.value.path == item.path
  {
    ItemsMember(Selected(ic, ings), item);
    SelectedMember(ic, ings, item.ing);
    SortedGroupMember(ic, ings, item.ing);
    var v := ResolveFor(cluster, item.ing, item.path).value;
    PathVisitsMember(cluster, item.ing, BackedPaths(item.ing.rules), v);
    GroupVisitsMember(cluster, SortedGroup(ic, ings), v);
  }

  lemma VisitIsItem(cluster: Cluster, ic: IngressClass, ings: seq<Ingress>, v: Visit)
    requires v in GroupVisits(cluster, SortedGroup(ic, ings)) && !IsTcp(v.ing)
    ensures Item(v.ing, v.path) in Items(Selected(ic, ings)) && ResolveFor(cluster, v.ing, v.path) == Ok(v)
  {
    GroupVisitsMember(cluster, SortedGroup(ic, ings), v);
    PathVisitsMember(cluster, v.ing, BackedPaths(v.ing.rules), v);
    SortedGroupMember(ic, ings, v.ing);
    SelectedMember(ic, ings, v.ing);
    ItemsMember(Selected(ic, ings), Item(v.ing, v.path));
  }

  function VisitEntry(v: Visit): RoutingRules.Entry {
    EntryOf(Item(v.ing, v.path), Target(v.port, v.bs))
  }

  /** The entries of a listener's routing policy are exactly the non-TCP paths of its port. */
  lemma EntriesAreVisits(cluster: Cluster, ic: IngressClass, ings: seq<Ingress>, p: int, e: RoutingRules.Entry)
    requires Accepted(ic, ings) && GroupResolves(cluster, SortedGroup(ic, ings))
    ensures e in BoundFor(cluster, Items(Selected(ic, ings)), ListenerName(p)) <==>
      exists v :: v in GroupVisits(cluster, SortedGroup(ic, ings)) && !IsTcp(v.ing) && v.port == p && e == VisitEntry(v)
  {
    var items, vs := Items(Selected(ic, ings)), GroupVisits(cluster, SortedGroup(ic, ings));
    BoundForMember(cluster, items, ListenerName(p), e);
    if item :| item in items && e in Bound(cluster, item, ListenerName(p)) {
      ItemIsVisit(cluster, ic, ings, item);
      var v := ResolveFor(cluster, item.ing, item.path).value;
      ListenerNameInjective(v.port, p);
      assert v in vs && e == VisitEntry(v);
    }
    if v :| v in vs && !IsTcp(v.ing) && v.port == p && e == VisitEntry(v) {
      VisitIsItem(cluster, ic, ings, v);
      var item := Item(v.ing, v.path);
      ItemIsVisit(cluster, ic, ings, item);
      assert e in Bound(cluster, item, ListenerName(p));
    }
  }

  lemma {:induction false} ReachMember(vs: seq<Visit>, p: int, bs: string)
    ensures bs in Reach(vs, p) <==> exists v :: v in vs && v.port == p && bs in {v.bs, DefaultOf(v)}
    decreases |vs|
  {
    if vs != [] {
      assert vs == Init(vs) + [Last(vs)];
      ReachMember(Init(vs), p, bs);
      if v :| v in Init(vs) && v.port == p && bs in {v.bs, DefaultOf(v)} {
        assert v in vs;
      }
      assert Last(vs) in vs;
    }
  }

  function RoutedPorts(c: ClassState): set<int> {
    set p | p in c.protocols && c.protocols[p] != TCP
  }

  lemma RoutedPort(vs: seq<Visit>, c: ClassState, p: int)
    requires ProtocolsHold(vs, c.protocols)
    ensures p in RoutedPorts(c) <==> exists v :: v in vs && v.port == p && !IsTcp(v.ing)
  {
    KeysMember(vs, Any, PortOf, p);
    if p in c.protocols {
      var v :| v in vs && Any(v) && PortOf(v) == p;
      assert c.protocols[p] == Protocol(v.ing);
    }
  }

  lemma ReachIsKnown(vs: seq<Visit>, c: ClassState, p: int)
    requires ReachHolds(vs, c.reach) && c.backendSets == {DEFAULT_BACKEND_SET} + Sets(vs)
    ensures p in c.reach ==> c.reach[p] <= c.backendSets
  {
    if p in c.reach {
      forall bs | bs in c.reach[p] ensures bs in c.backendSets {
        ReachMember(vs, p, bs);
        var v :| v in vs && v.port == p && bs in {v.bs, DefaultOf(v)};
        KeysMember(vs, Any, SetOf, v.bs);
        assert Any(v) && SetOf(v) == v.bs;
      }
    }
  }

  lemma PolicyNames(cluster: Cluster, ic: IngressClass, ings: seq<Ingress>, c: ClassState, m: Paths, name: string)
    requires Accepted(ic, ings) && GroupResolves(cluster, SortedGroup(ic, ings))
    requires ProtocolsHold(GroupVisits(cluster, SortedGroup(ic, ings)), c.protocols)
    requires Collected(cluster, Items(Selected(ic, ings)), m)
    ensures name in m <==> exists p :: p in RoutedPorts(c) && ListenerName(p) == name
  {
    var items, vs := Items(Selected(ic, ings)), GroupVisits(cluster, SortedGroup(ic, ings));
    assert At(m, name) == BoundFor(cluster, items, name);
    if name in m {
      var e := m[name][0];
      BoundForMember(cluster, items, name, e);
      var item :| item in items && e in Bound(cluster, item, name);
      ItemIsVisit(cluster, ic, ings, item);
      var v := ResolveFor(cluster, item.ing, item.path).value;
      assert v in vs;
      RoutedPort(vs, c, v.port);
      assert v.port in RoutedPorts(c) && ListenerName(v.port) == name;
    }
    if p :| p in RoutedPorts(c) && ListenerName(p) == name {
      RoutedPort(vs, c, p);
      var v :| v in vs && v.port == p && !IsTcp(v.ing);
      EntriesAreVisits(cluster, ic, ings, p, VisitEntry(v));
    }
  }

  /** The parts of the builder's specification that concern routing. */
  lemma BuiltForRouting(cluster: Cluster, ic: IngressClass, ings: seq<Ingress>)
    requires Build(cluster, ic, ings).Ok?
    ensures var c, vs := Build(cluster, ic, ings).value.group, GroupVisits(cluster, SortedGroup(ic, ings));
      GroupResolves(cluster, SortedGroup(ic, ings)) && ProtocolsHold(vs, c.protocols) && DefaultsHold(vs, c.defaults)
      && ReachHolds(vs, c.reach) && c.backendSets == {DEFAULT_BACKEND_SET} + Sets(vs) && c.listeners == Ports(vs)
  {
    BuildRefinesSpecification(cluster, ic, ings);
  }

  lemma RoutesSucceed(cluster: Cluster, ic: IngressClass, ings: seq<Ingress>)
    requires Accepted(ic, ings) && GroupResolves(cluster, SortedGroup(ic, ings))
    ensures Routes(cluster, Selected(ic, ings)).Ok?
    ensures Collected(cluster, Items(Selected(ic, ings)), Routes(cluster, Selected(ic, ings)).value)
  {
    var items := Items(Selected(ic, ings));
    forall item | item in items ensures Located(cluster, item).Ok? {
      ItemIsVisit(cluster, ic, ings, item);
    }
    RoutesCollect(cluster, Selected(ic, ings));
  }

  /** A path of a listener's policy, as the class state sees it. */
  predicate Backs(c: ClassState, p: int, e: RoutingRules.Entry) {
    e.Some? && e.value.path.Some? && e.value.port == p && p in c.reach && e.value.bs in c.reach[p]
  }

  lemma EntryIsReachable(cluster: Cluster, ic: IngressClass, ings: seq<Ingress>, c: ClassState, p: int, e: RoutingRules.Entry)
    requires Accepted(ic, ings) && GroupResolves(cluster, SortedGroup(ic, ings))
    requires ReachHolds(GroupVisits(cluster, SortedGroup(ic, ings)), c.reach)
    requires e in BoundFor(cluster, Items(Selected(ic, ings)), ListenerName(p))
    ensures Backs(c, p, e)
  {
    var vs := GroupVisits(cluster, SortedGroup(ic, ings));
    EntriesAreVisits(cluster, ic, ings, p, e);
    var v :| v in vs && !IsTcp(v.ing) && v.port == p && e == VisitEntry(v);
    ReachMember(vs, p, v.bs);
    assert Any(v) && PortOf(v) == p;
    KeysMember(vs, Any, PortOf, p);
  }

  /** For accepted protocols the two compilers agree: whenever the state builder succeeds, so does
      the routing compiler; the routing policies it asks for are named after exactly the listeners
      that do not speak TCP; and every rule of a listener forwards to a backend set the builder
      counts as reachable from that listener, hence to one it declares. */
  lemma CompilersAgree(cluster: Cluster, ic: IngressClass, ings: seq<Ingress>)
    requires Accepted(ic, ings) && Build(cluster, ic, ings).Ok?
    ensures Routes(cluster, Selected(ic, ings)).Ok?
    ensures var c, m := Build(cluster, ic, ings).value.group, Routes(cluster, Selected(ic, ings)).value;
      m.Keys == (set p | p in RoutedPorts(c) :: ListenerName(p))
      && (forall p :: p in c.reach ==> c.reach[p] <= c.backendSets)
      && forall p: int, e :: ListenerName(p) in m && e in m[ListenerName(p)] ==> Backs(c, p, e)
  {
    BuiltForRouting(cluster, ic, ings);
    RoutesSucceed(cluster, ic, ings);
    var c, m := Build(cluster, ic, ings).value.group, Routes(cluster, Selected(ic, ings)).value;
    forall name ensures name in m <==> exists p :: p in RoutedPorts(c) && ListenerName(p) == name {
      PolicyNames(cluster, ic, ings, c, m, name);
    }
    forall p | p in c.reach ensures c.reach[p] <= c.backendSets {
      ReachIsKnown(GroupVisits(cluster, SortedGroup(ic, ings)), c, p);
    }
    forall p: int, e | ListenerName(p) in m && e in m[ListenerName(p)] ensures Backs(c, p, e) {
      assert At(m, ListenerName(p)) == BoundFor(cluster, Items(Selected(ic, ings)), ListenerName(p));
      EntryIsReachable(cluster, ic, ings, c, p, e);
    }
  }

  /** The default backend set of every port of an ingress is among the ingress's own backend sets,
      so an ingress that creates its backend sets first never names a missing one. */
  lemma DefaultsAreOwn(cluster: Cluster, ic: IngressClass, ings: seq<Ingress>, ing: Ingress, p: int)
    requires Build(cluster, ic, ings).Ok? && ing in SortedGroup(ic, ings)
    requires p in OwnState(cluster, ing).ports
    ensures var c := Build(cluster, ic, ings).value.group;
      p in c.defaults && c.defaults[p] in OwnState(cluster, ing).backendSets
      && p in c.listeners && OwnState(cluster, ing).backendSets <= c.backendSets
  {
    BuiltForRouting(cluster, ic, ings);
    var c, own := Build(cluster, ic, ings).value.group, Visits(cluster, ing);
    var vs := GroupVisits(cluster, SortedGroup(ic, ings));
    KeysMember(own, Any, PortOf, p);
    var v :| v in own && Any(v) && PortOf(v) == p;
    OwnVisits(cluster, SortedGroup(ic, ings), ing, v);
    KeysMember(own, Any, SetOf, v.bs);
    assert SetOf(v) == v.bs;
    KeysMember(vs, Any, PortOf, p);
    OwnSetsAreKnown(cluster, ic, ings, ing);
  }

  /** The backend sets of an ingress are among those of its class. */
  lemma OwnSetsAreKnown(cluster: Cluster, ic: IngressClass, ings: seq<Ingress>, ing: Ingress)
    requires Build(cluster, ic, ings).Ok? && ing in SortedGroup(ic, ings)
    ensures OwnState(cluster, ing).backendSets <= Build(cluster, ic, ings).value.group.backendSets
  {
    BuiltForRouting(cluster, ic, ings);
    var own, vs := Visits(cluster, ing), GroupVisits(cluster, SortedGroup(ic, ings));
    forall bs | bs in Sets(own) ensures bs in Sets(vs) {
      KeysMember(own, Any, SetOf, bs);
      var u :| u in own && Any(u) && SetOf(u) == bs;
      OwnVisits(cluster, SortedGroup(ic, ings), ing, u);
      KeysMember(vs, Any, SetOf, bs);
    }
  }

  lemma OwnVisits(cluster: Cluster, group: seq<Ingress>, ing: Ingress, v: Visit)
    requires ing in group && v in Visits(cluster, ing)
    ensures v in GroupVisits(cluster, group)
  {
    PathVisitsMember(cluster, ing, BackedPaths(ing.rules), v);
    GroupVisitsMember(cluster, group, v);
  }

  // ---- Protocols outside the accepted four -----------------------------------------------

  function EffectivePort(annotated: int, servicePort: int): int {
    if annotated != 0 then ToInt32(annotated) else servicePort
  }

  /** Exactly when the two compilers bind a path to the same port, for any protocol at all. */
  lemma PortsAgreeIff(ing: Ingress, host: string, servicePort: int)
    requires AnnotatedPort(ing.notes.httpPort).Ok? && AnnotatedPort(ing.notes.httpsPort).Ok?
    ensures ListenerPort(ing, CountedTlsHosts(ing), host, servicePort) == ListenerPort(ing, TlsHosts(ing), host, servicePort)
      <==> IsHttpBased(ing) || CertificateIds(ing) != [] || host !in TlsHosts(ing)
           || EffectivePort(AnnotatedPort(ing.notes.httpPort).value, servicePort)
              == EffectivePort(AnnotatedPort(ing.notes.httpsPort).value, servicePort)
  {
  }

  const NO_NOTES := Annotations(None, None, None, false, None, None, None, None, None, Ok(DEFAULT_CHECKER), None, None, None)

  function Unknown(): Ingress {
    Ingress("ns", "a", None, false, false, [TlsEntry(["h"], "s")], [],
            NO_NOTES.(protocol := Some("WS"), httpsPort := Some(Ok(443))))
  }

  /** An ingress with an unknown protocol for which they do not. */
  lemma UnknownProtocolSplitsThem()
    ensures ListenerPort(Unknown(), CountedTlsHosts(Unknown()), "h", 80) == Ok(80)
    ensures ListenerPort(Unknown(), TlsHosts(Unknown()), "h", 80) == Ok(443)
  {
    var ing := Unknown();
    assert |Protocol(ing)| == 2;
    assert !IsHttpBased(ing);
    assert ing.tls[0].hosts[0] == "h";
    assert "h" in TlsHosts(ing);
  }
}
