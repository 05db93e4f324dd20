/** The routing rules of a listener: their order, their conditions, and what a request matches. */
module RoutingRules {
  import opened Wrappers
  import opened Text
  import opened Ingresses
  import opened Sorting

  /** A path bound for a listener; the program tolerates absent entries and absent paths. */
  datatype ListenerPath = ListenerPath(ingressName: string, port: int, host: string, bs: string, path: Option<Path>)
  type Entry = Option<ListenerPath>

  function TypeOf(p: Path): PathType {
    match p.pathType
    case None => ImplementationSpecific
    case Some(t) => t
  }

  predicate EqualFold(a: string, b: string) {
    ToLower(a) == ToLower(b)
  }

  /** The comparison the program sorts by. */
  predicate Less(a: Entry, b: Entry) {
    if a.None? || b.None? then b.Some?
    else if a.value.path.None? || b.value.path.None? then b.value.path.Some?
    else
      var x, y := a.value, b.value;
      var p, q := x.path.value, y.path.value;
      if p.path == q.path then
        if TypeOf(p) == TypeOf(q) then
          if EqualFold(x.host, y.host) then
            if x.bs == y.bs then Lt(y.ingressName, x.ingressName) else Lt(y.bs, x.bs)
          else Lt(y.host, x.host)
        else Lt(TypeOf(p).Name(), TypeOf(q).Name())
      else Lt(q.path, p.path)
  }

  // ---- When the comparison is an order ---------------------------------------------------

  /** `t` compares first by `r`, then by `s`. */
  ghost predicate Layers<T(!new)>(r: (T, T) -> bool, s: (T, T) -> bool, t: (T, T) -> bool) {
    forall x, y :: t(x, y) == (r(x, y) || (!r(y, x) && s(x, y)))
  }

  lemma LayersOrder<T(!new)>(r: (T, T) -> bool, s: (T, T) -> bool, t: (T, T) -> bool, dom: set<T>)
    requires Layers(r, s, t)
    requires StrictWeakOrder(r, dom) && StrictWeakOrder(s, dom)
    ensures StrictWeakOrder(t, dom)
  {
  }

  function Ascending<T>(key: T -> string): (T, T) -> bool {
    (x, y) => Lt(key(x), key(y))
  }

  function Descending<T>(key: T -> string): (T, T) -> bool {
    (x, y) => Lt(key(y), key(x))
  }

  lemma KeysOrder<T(!new)>(key: T -> string, dom: set<T>)
    ensures StrictWeakOrder(Ascending(key), dom)
    ensures StrictWeakOrder(Descending(key), dom)
    ensures forall x, y :: x in dom && y in dom && !Lt(key(x), key(y)) && !Lt(key(y), key(x)) ==> key(x) == key(y)
  {
    var keys := set x | x in dom :: key(x);
    StringOrder(keys);
    forall x, y | x in dom && y in dom
      ensures !Lt(key(x), key(x)) && (!Lt(key(x), key(y)) && !Lt(key(y), key(x)) ==> key(x) == key(y))
    {
      assert key(x) in keys && key(y) in keys;
      if key(x) != key(y) { LtConnected(key(x), key(y)); }
    }
    forall x, y, z | x in dom && y in dom && z in dom
      ensures Lt(key(x), key(y)) && Lt(key(y), key(z)) ==> Lt(key(x), key(z))
      ensures Lt(key(x), key(z)) ==> Lt(key(x), key(y)) || Lt(key(y), key(z))
    {
      assert key(x) in keys && key(y) in keys && key(z) in keys;
    }
  }

  function Rank(e: Entry): int {
    if e.None? then 0 else if e.value.path.None? then 1 else 2
  }

  predicate ByRank(x: Entry, y: Entry) { Rank(x) < Rank(y) }

  function PathKey(e: Entry): string { if Rank(e) == 2 then e.value.path.value.path else "" }
  function TypeKey(e: Entry): string { if Rank(e) == 2 then TypeOf(e.value.path.value).Name() else "" }
  function HostKey(e: Entry): string { if Rank(e) == 2 then e.value.host else "" }
  function SetKey(e: Entry): string { if Rank(e) == 2 then e.value.bs else "" }
  function NameKey(e: Entry): string { if Rank(e) == 2 then e.value.ingressName else "" }

  /** `x` is of another fold class than `y`, and greater. */
  predicate Above(x: string, y: string) {
    !EqualFold(x, y) && Lt(y, x)
  }

  predicate ByHost(x: Entry, y: Entry) { Above(HostKey(x), HostKey(y)) }

  // The comparison, one layer at a time.

  predicate NameLayer(x: Entry, y: Entry) { Lt(NameKey(y), NameKey(x)) }
  predicate SetLayer(x: Entry, y: Entry) { if SetKey(x) == SetKey(y) then NameLayer(x, y) else Lt(SetKey(y), SetKey(x)) }
  predicate HostLayer(x: Entry, y: Entry) { if EqualFold(HostKey(x), HostKey(y)) then SetLayer(x, y) else Lt(HostKey(y), HostKey(x)) }
  predicate TypeLayer(x: Entry, y: Entry) { if TypeKey(x) == TypeKey(y) then HostLayer(x, y) else Lt(TypeKey(x), TypeKey(y)) }
  predicate PathLayer(x: Entry, y: Entry) { if PathKey(x) == PathKey(y) then TypeLayer(x, y) else Lt(PathKey(y), PathKey(x)) }

  lemma TypeNames(a: PathType, b: PathType)
    ensures a.Name() == b.Name() <==> a == b
    ensures Lt(a.Name(), b.Name()) <==> (a.Exact? && !b.Exact?) || (a.ImplementationSpecific? && b.Prefix?)
  {
    assert Exact.Name()[0] == 'E' && ImplementationSpecific.Name()[0] == 'I' && Prefix.Name()[0] == 'P';
    LtIrreflexive(a.Name());
  }

  lemma LessIsLayered(x: Entry, y: Entry)
    ensures Less(x, y) == if Rank(x) == Rank(y) then PathLayer(x, y) else Rank(x) < Rank(y)
  {
    if Rank(x) == Rank(y) == 2 {
      UsableLayers(x, y);
    } else if Rank(x) == Rank(y) {
      UnusableTie(x, y);
    }
  }

  lemma UsableLayers(x: Entry, y: Entry)
    requires Rank(x) == Rank(y) == 2
    ensures Less(x, y) == PathLayer(x, y)
  {
    TypeNames(TypeOf(x.value.path.value), TypeOf(y.value.path.value));
  }

  lemma UnusableTie(x: Entry, y: Entry)
    requires Rank(x) < 2 && Rank(y) < 2
    ensures !PathLayer(x, y)
  {
    LtIrreflexive("");
  }

  lemma TotalLayer(a: string, b: string, next: bool)
    ensures (if a == b then next else Lt(a, b)) == (Lt(a, b) || (!Lt(b, a) && next))
  {
    LtIrreflexive(a);
    LtAsymmetric(a, b);
    if a != b { LtConnected(a, b); }
  }

  lemma SetLayers()
    ensures Layers(Descending(SetKey), NameLayer, SetLayer)
  {
    forall x, y ensures SetLayer(x, y) == (Descending(SetKey)(x, y) || (!Descending(SetKey)(y, x) && NameLayer(x, y))) {
      TotalLayer(SetKey(y), SetKey(x), NameLayer(x, y));
    }
  }

  lemma HostLayers()
    ensures Layers(ByHost, SetLayer, HostLayer)
  {
    forall x, y ensures HostLayer(x, y) == (ByHost(x, y) || (!ByHost(y, x) && SetLayer(x, y))) {
      TotalLayer(HostKey(y), HostKey(x), SetLayer(x, y));
    }
  }

  lemma TypeLayers()
    ensures Layers(Ascending(TypeKey), HostLayer, TypeLayer)
  {
    forall x, y ensures TypeLayer(x, y) == (Ascending(TypeKey)(x, y) || (!Ascending(TypeKey)(y, x) && HostLayer(x, y))) {
      TotalLayer(TypeKey(x), TypeKey(y), HostLayer(x, y));
    }
  }

  lemma PathLayers()
    ensures Layers(Descending(PathKey), TypeLayer, PathLayer)
    ensures Layers(ByRank, PathLayer, Less)
  {
    forall x, y
      ensures PathLayer(x, y) == (Descending(PathKey)(x, y) || (!Descending(PathKey)(y, x) && TypeLayer(x, y)))
      ensures Less(x, y) == (ByRank(x, y) || (!ByRank(y, x) && PathLayer(x, y)))
    {
      TotalLayer(PathKey(y), PathKey(x), TypeLayer(x, y));
      LessIsLayered(x, y);
    }
  }

  /** No host lies strictly between two hosts that differ from each other in case only. */
  ghost predicate Convex(hosts: set<string>) {
    forall a, b, c :: a in hosts && b in hosts && c in hosts && EqualFold(a, b) && Lt(a, c) && Lt(c, b) ==> EqualFold(a, c)
  }

  ghost predicate HostsIn(dom: set<Entry>, hosts: set<string>) {
    forall e :: e in dom && Rank(e) == 2 ==> e.value.host in hosts
  }

  lemma ConvexWithEmpty(hosts: set<string>)
    requires Convex(hosts)
    ensures Convex(hosts + {""})
  {
    forall a, b, c | a in hosts + {""} && b in hosts + {""} && c in hosts + {""} && EqualFold(a, b) && Lt(a, c) && Lt(c, b)
      ensures EqualFold(a, c)
    {
      assert |a| == |ToLower(a)| == |ToLower(b)| == |b|;
      assert b != "" && c != "";
    }
  }

  lemma HostTriple(hosts: set<string>, x: string, y: string, z: string)
    requires Convex(hosts) && x in hosts && y in hosts && z in hosts
    ensures EqualFold(x, y) && !EqualFold(x, z) ==> (Lt(x, z) <==> Lt(y, z))
  {
    if EqualFold(x, y) && !EqualFold(x, z) {
      LtConnected(x, z);
      LtConnected(y, z);
      LtAsymmetric(x, z);
      LtAsymmetric(y, z);
    }
  }

  lemma HostsOrder(hosts: set<string>, dom: set<Entry>)
    requires Convex(hosts) && HostsIn(dom, hosts)
    ensures StrictWeakOrder(ByHost, dom)
  {
    ConvexWithEmpty(hosts);
    forall a, b, c | a in dom && b in dom && c in dom
      ensures ByHost(a, b) && ByHost(b, c) ==> ByHost(a, c)
      ensures ByHost(a, c) ==> ByHost(a, b) || ByHost(b, c)
    {
      HostClasses(hosts + {""}, HostKey(a), HostKey(b), HostKey(c));
    }
  }

  lemma HostClasses(hosts: set<string>, x: string, y: string, z: string)
    requires Convex(hosts) && x in hosts && y in hosts && z in hosts
    ensures Above(x, y) && Above(y, z) ==> Above(x, z)
    ensures Above(x, z) ==> Above(x, y) || Above(y, z)
  {
    if Above(x, y) && Above(y, z) {
      LtTransitive(z, y, x);
      assert EqualFold(z, x) ==> EqualFold(z, y);
    }
    if Above(x, z) && !Above(x, y) && !Above(y, z) {
      if EqualFold(x, y) {
        HostTriple(hosts, x, y, z);
        LtConnected(y, z);
        LtAsymmetric(x, z);
      } else if EqualFold(y, z) {
        HostTriple(hosts, z, y, x);
      } else {
        LtConnected(x, y);
        LtConnected(y, z);
        LtTransitive(x, y, z);
        LtAsymmetric(x, z);
      }
    }
  }

  lemma ConvexOrders(hosts: set<string>, dom: set<Entry>)
    requires Convex(hosts) && HostsIn(dom, hosts)
    ensures StrictWeakOrder(Less, dom)
  {
    KeysOrder(NameKey, dom);
    NamesOrder(dom);
    KeysOrder(SetKey, dom);
    SetLayers();
    LayersOrder(Descending(SetKey), NameLayer, SetLayer, dom);
    HostsOrder(hosts, dom);
    HostLayers();
    LayersOrder(ByHost, SetLayer, HostLayer, dom);
    KeysOrder(TypeKey, dom);
    TypeLayers();
    LayersOrder(Ascending(TypeKey), HostLayer, TypeLayer, dom);
    KeysOrder(PathKey, dom);
    PathLayers();
    LayersOrder(Descending(PathKey), TypeLayer, PathLayer, dom);
    LayersOrder(ByRank, PathLayer, Less, dom);
  }

  lemma NamesOrder(dom: set<Entry>)
    requires StrictWeakOrder(Descending(NameKey), dom)
    ensures StrictWeakOrder(NameLayer, dom)
  {
    forall x, y ensures NameLayer(x, y) == Descending(NameKey)(x, y) {}
  }

  function Plain(host: string): Entry {
    Some(ListenerPath("", 0, host, "", Some(Path("/", None, None))))
  }

  /** The comparison orders every collection of paths over the given hosts exactly when the hosts
      are convex. */
  lemma LessOrdersIff(hosts: set<string>)
    ensures (forall dom :: HostsIn(dom, hosts) ==> StrictWeakOrder(Less, dom)) <==> Convex(hosts)
  {
    if Convex(hosts) {
      forall dom | HostsIn(dom, hosts) ensures StrictWeakOrder(Less, dom) {
        ConvexOrders(hosts, dom);
      }
    } else {
      var a, b, c :| a in hosts && b in hosts && c in hosts && EqualFold(a, b) && Lt(a, c) && Lt(c, b) && !EqualFold(a, c);
      var dom := {Plain(a), Plain(b), Plain(c)};
      assert HostsIn(dom, hosts);
      LtIrreflexive("");
      assert Less(Plain(b), Plain(c)) && Less(Plain(c), Plain(a)) && !Less(Plain(b), Plain(a));
      assert !Transitive(Less, dom);
    }
  }

  ghost predicate LowerCase(hosts: set<string>) {
    forall h :: h in hosts ==> ToLower(h) == h
  }

  lemma LowerCaseIsConvex(hosts: set<string>)
    requires LowerCase(hosts)
    ensures Convex(hosts)
  {
    forall a, b, c | a in hosts && b in hosts && c in hosts ensures !(EqualFold(a, b) && Lt(a, c) && Lt(c, b)) {
      LtAsymmetric(a, c);
    }
  }

  /** Three hosts of mixed case that the comparison puts in a cycle with a tie. */
  lemma MixedCaseIsNotAnOrder()
    ensures Less(Plain("a"), Plain("B")) && Less(Plain("B"), Plain("A"))
    ensures !Less(Plain("a"), Plain("A")) && !Less(Plain("A"), Plain("a"))
  {
    LtIrreflexive("");
    assert ToLower("a") == "a" && ToLower("A") == "a" && ToLower("B") == "b";
  }

  // ---- Conditions ------------------------------------------------------------------------

  datatype Condition =
    | HostIs(text: string)
    | HostEndsWith(text: string)
    | PathIs(text: string)
    | PathStartsWith(text: string)
    | AnyOf(left: Condition, right: Condition)
    | AllOf(left: Condition, right: Condition)

  datatype Request = Request(hostHeader: string, url: string)

  predicate EndsWith(s: string, suffix: string) {
    |suffix| <= |s| && s[|s| - |suffix|..] == suffix
  }

  predicate Holds(c: Condition, r: Request) {
    match c
    case HostIs(t) => r.hostHeader == t
    case HostEndsWith(t) => EndsWith(r.hostHeader, t)
    case PathIs(t) => r.url == t
    case PathStartsWith(t) => t <= r.url
    case AnyOf(a, b) => Holds(a, r) || Holds(b, r)
    case AllOf(a, b) => Holds(a, r) && Holds(b, r)
  }

  predicate Wildcard(host: string) {
    "*." <= host
  }

  function PathToCondition(port: int, host: string, path: Path): Condition {
    var onPath := if TypeOf(path) == Exact then PathIs(path.path) else PathStartsWith(path.path);
    if host == "" then onPath
    else if Wildcard(host) then
      AllOf(AnyOf(HostEndsWith(host[1..]), HostEndsWith(host[1..] + ":" + Itoa(port))), onPath)
    else
      AllOf(AnyOf(HostIs(host), HostIs(host + ":" + Itoa(port))), onPath)
  }

  datatype RoutingRule = RoutingRule(name: string, condition: Condition, backendSet: string)

  /** Rule names are made from a digest of what identifies the path. */
  function RuleName(digest: string -> string, ingressName: string, host: string, path: Path): string {
    "k8s_" + digest(ingressName + host + TypeOf(path).Name() + path.path
                    + if path.service.Some? then path.service.value.name else "")
  }

  function RuleOf(digest: string -> string, e: Entry): seq<RoutingRule> {
    if Rank(e) < 2 then []
    else
      var p := e.value;
      [RoutingRule(RuleName(digest, p.ingressName, p.host, p.path.value), PathToCondition(p.port, p.host, p.path.value), p.bs)]
  }

  function Rules(digest: string -> string, sorted: seq<Entry>): seq<RoutingRule> {
    if sorted == [] then [] else RuleOf(digest, sorted[0]) + Rules(digest, sorted[1..])
  }

  method CollectRules(digest: string -> string, sorted: seq<Entry>) returns (rules: seq<RoutingRule>)
    ensures rules == Rules(digest, sorted)
  {
    rules := [];
    assert sorted[0..] == sorted;
    for i := 0 to |sorted|
      invariant Rules(digest, sorted) == rules + Rules(digest, sorted[i..])
    {
      ghost var rest := Rules(digest, sorted[i + 1..]);
      assert sorted[i..][0] == sorted[i] && sorted[i..][1..] == sorted[i + 1..];
      if sorted[i].None? || sorted[i].value.path.None? {
        assert [] + rest == rest;
        continue;
      }
      var p := sorted[i].value;
      var name := RuleName(digest, p.ingressName, p.host, p.path.value);
      var condition := PathToCondition(p.port, p.host, p.path.value);
      var rule := RoutingRule(name, condition, p.bs);
      assert rules + ([rule] + rest) == (rules + [rule]) + rest;
      rules := rules + [rule];
    }
  }

  // ---- Independence of the listing order -------------------------------------------------

  /** Entries of one listener whose backend set names identify their service. */
  ghost predicate OneListener(dom: set<Entry>) {
    forall x, y :: x in dom && y in dom && Rank(x) == Rank(y) == 2 ==>
      x.value.port == y.value.port
      && (x.value.bs == y.value.bs ==> ServiceName(x.value.path.value) == ServiceName(y.value.path.value))
  }

  function ServiceName(p: Path): string {
    if p.service.Some? then p.service.value.name else ""
  }

  lemma TiedEntriesShareTheirRule(digest: string -> string, hosts: set<string>, dom: set<Entry>, x: Entry, y: Entry)
    requires LowerCase(hosts) && HostsIn(dom, hosts) && OneListener(dom)
    requires x in dom && y in dom && !Less(x, y) && !Less(y, x)
    ensures RuleOf(digest, x) == RuleOf(digest, y)
  {
    if Rank(x) == Rank(y) == 2 {
      var p, q := x.value.path.value, y.value.path.value;
      if p.path != q.path { LtConnected(p.path, q.path); }
      TypeNames(TypeOf(p), TypeOf(q));
      TypeNames(TypeOf(q), TypeOf(p));
      if x.value.host != y.value.host { LtConnected(x.value.host, y.value.host); }
      if x.value.bs != y.value.bs { LtConnected(x.value.bs, y.value.bs); }
      if x.value.ingressName != y.value.ingressName { LtConnected(x.value.ingressName, y.value.ingressName); }
    }
  }

  lemma {:induction false} SameImagesSameRules(digest: string -> string, s: seq<Entry>, t: seq<Entry>)
    requires |s| == |t| && forall i :: 0 <= i < |s| ==> RuleOf(digest, s[i]) == RuleOf(digest, t[i])
    ensures Rules(digest, s) == Rules(digest, t)
  {
    if s != [] {
      SameImagesSameRules(digest, s[1..], t[1..]);
    }
  }

  /** The rule list depends only on which paths there are: not on the order in which they are
      listed, nor on what the sorting algorithm does with ties. */
  lemma RulesIgnoreOrder(digest: string -> string, hosts: set<string>, s: seq<Entry>, t: seq<Entry>)
    requires multiset(s) == multiset(t) && Sorted(Less, s) && Sorted(Less, t)
    requires LowerCase(hosts) && HostsIn(Elements(s), hosts) && OneListener(Elements(s))
    ensures Rules(digest, s) == Rules(digest, t)
  {
    var dom, f := Elements(s), (e: Entry) => RuleOf(digest, e);
    LowerCaseIsConvex(hosts);
    ConvexOrders(hosts, dom);
    forall x, y | x in dom && y in dom && !Less(x, y) && !Less(y, x) ensures f(x) == f(y) {
      TiedEntriesShareTheirRule(digest, hosts, dom, x, y);
    }
    SortedImagesEqual(Less, f, s, t, dom);
    forall i | 0 <= i < |s| ensures RuleOf(digest, s[i]) == RuleOf(digest, t[i]) {
      assert f(s[i]) == f(t[i]);
    }
    SameImagesSameRules(digest, s, t);
  }

  // ---- First match is best match ---------------------------------------------------------

  /** Rules are tried in order; the first that holds decides. */
  function Route(rules: seq<RoutingRule>, r: Request): Option<string> {
    if rules == [] then None
    else if Holds(rules[0].condition, r) then Some(rules[0].backendSet)
    else Route(rules[1..], r)
  }

  predicate HostMatches(p: ListenerPath, r: Request) {
    p.host == ""
    || (Wildcard(p.host) && (EndsWith(r.hostHeader, p.host[1..]) || EndsWith(r.hostHeader, p.host[1..] + ":" + Itoa(p.port))))
    || (!Wildcard(p.host) && r.hostHeader in {p.host, p.host + ":" + Itoa(p.port)})
  }

  /** The request is one this path is for. */
  predicate Matches(e: Entry, r: Request) {
    Rank(e) == 2
    && HostMatches(e.value, r)
    && (if TypeOf(e.value.path.value) == Exact then r.url == e.value.path.value.path else e.value.path.value.path <= r.url)
  }

  function FirstMatch(s: seq<Entry>, r: Request): Entry {
    if s == [] then None else if Matches(s[0], r) then s[0] else FirstMatch(s[1..], r)
  }

  /** The condition of a rule holds for exactly the requests its path is for. */
  lemma ConditionMeans(p: ListenerPath, r: Request)
    requires p.path.Some?
    ensures Holds(PathToCondition(p.port, p.host, p.path.value), r) <==> Matches(Some(p), r)
  {
    var path := p.path.value;
    var onPath := if TypeOf(path) == Exact then PathIs(path.path) else PathStartsWith(path.path);
    assert Holds(onPath, r) <==> if TypeOf(path) == Exact then r.url == path.path else path.path <= r.url;
    if p.host != "" {
      var withPort := p.host + ":" + Itoa(p.port);
      var c := PathToCondition(p.port, p.host, path);
      assert c.AllOf? && c.right == onPath && c.left.AnyOf?;
      assert Holds(c.left, r) <==> Holds(c.left.left, r) || Holds(c.left.right, r);
      assert Holds(c.left, r) <==> HostMatches(p, r);
    }
  }

  lemma {:induction false} RouteIsFirstMatch(digest: string -> string, s: seq<Entry>, r: Request)
    ensures Route(Rules(digest, s), r) ==
      match FirstMatch(s, r) case None => None case Some(p) => Some(p.bs)
  {
    if s != [] {
      RouteIsFirstMatch(digest, s[1..], r);
      var rules := Rules(digest, s);
      if Rank(s[0]) == 2 {
        assert rules[0] == RuleOf(digest, s[0])[0] && rules[1..] == Rules(digest, s[1..]);
        ConditionMeans(s[0].value, r);
      } else {
        assert rules == Rules(digest, s[1..]);
      }
    }
  }

  datatype HostKind = NoHost | WildcardHost | PreciseHost

  function KindOf(host: string): HostKind {
    if host == "" then NoHost else if Wildcard(host) then WildcardHost else PreciseHost
  }

  predicate AtLeast(a: HostKind, b: HostKind) {
    a == b || a.PreciseHost? || b.NoHost?
  }

  /** Hosts as the Kubernetes API admits them: lower case, and no precise host sorts before the
      asterisk. */
  ghost predicate Admissible(dom: set<Entry>) {
    forall e :: e in dom && Rank(e) == 2 ==>
      ToLower(e.value.host) == e.value.host && (KindOf(e.value.host).PreciseHost? ==> e.value.host[0] > '*')
  }

  /** Longer path first, an exact path before a prefix, then the more precise kind of host. */
  predicate Better(a: Entry, b: Entry)
    requires Rank(a) == Rank(b) == 2
  {
    var p, q := a.value.path.value, b.value.path.value;
    |p.path| >= |q.path|
    && (|p.path| == |q.path| ==>
          p.path == q.path
          && (TypeOf(q) == Exact ==> TypeOf(p) == Exact)
          && (TypeOf(p) == TypeOf(q) ==> AtLeast(KindOf(a.value.host), KindOf(b.value.host))))
  }

  lemma NotAfterIsBetter(a: Entry, b: Entry, r: Request)
    requires Matches(a, r) && Matches(b, r) && !Less(b, a) && Admissible({a, b})
    ensures Better(a, b)
  {
    var p, q := a.value.path.value, b.value.path.value;
    assert p.path == r.url[..|p.path|] && q.path == r.url[..|q.path|];
    if |p.path| <= |q.path| {
      assert p.path == q.path[..|p.path|];
      if p.path != q.path { LtExtension(p.path, q.path); }
    }
    TypeNames(TypeOf(q), TypeOf(p));
    if p.path == q.path && TypeOf(p) == TypeOf(q) && a.value.host != b.value.host {
      LtConnected(a.value.host, b.value.host);
      assert !Lt(a.value.host, b.value.host);
    }
  }

  /** The backend set a request is routed to is that of a best path among all that match it, in
      every sorted arrangement of the paths; without a matching path no rule applies. */
  lemma {:induction false} FirstMatchIsBest(s: seq<Entry>, r: Request)
    requires Sorted(Less, s) && Admissible(Elements(s))
    ensures FirstMatch(s, r).None? <==> forall e :: e in s ==> !Matches(e, r)
    ensures var m := FirstMatch(s, r);
      m.Some? ==> m in s && Matches(m, r) && forall e :: e in s && Matches(e, r) ==> Better(m, e)
  {
    if s != [] {
      assert s == [s[0]] + s[1..];
      if Matches(s[0], r) {
        forall e | e in s && Matches(e, r) ensures Better(s[0], e) {
          var i :| 0 <= i < |s| && s[i] == e;
          if i == 0 { LessIsIrreflexive(e); }
          NotAfterIsBetter(s[0], e, r);
        }
      } else {
        assert Sorted(Less, s[1..]);
        FirstMatchIsBest(s[1..], r);
      }
    }
  }

  lemma LessIsIrreflexive(e: Entry)
    ensures !Less(e, e)
  {
    if Rank(e) == 2 { LtIrreflexive(e.value.ingressName); }
  }

  ghost predicate Best(paths: seq<Entry>, r: Request, m: Entry) {
    m in paths && Matches(m, r) && forall e :: e in paths && Matches(e, r) ==> Better(m, e)
  }

  /** The whole compiler: whatever order the paths come in, a request goes to the backend set of a
      best matching path. */
  lemma RequestsReachTheBestPath(digest: string -> string, paths: seq<Entry>, r: Request)
    requires Admissible(Elements(paths))
    ensures var bs := Route(Rules(digest, Sort(Less, paths)), r);
      (bs.None? <==> forall e :: e in paths ==> !Matches(e, r))
      && (bs.Some? ==> exists m :: Best(paths, r, m) && m.value.bs == bs.value)
  {
    var sorted, dom := Sort(Less, paths), Elements(paths);
    var hosts := set e | e in dom && Rank(e) == 2 :: e.value.host;
    LowerCaseIsConvex(hosts);
    ConvexOrders(hosts, dom);
    SortSorts(Less, paths, dom);
    SortPermutes(Less, paths);
    SameElements(sorted, paths);
    FirstMatchIsBest(sorted, r);
    RouteIsFirstMatch(digest, sorted, r);
    var m := FirstMatch(sorted, r);
    if m.Some? {
      assert Best(paths, r, m);
    }
  }

  /** The list is that of some arrangement of the paths, one rule for each that can be used; the
      arrangement is sorted if the comparison is an order on them. */
  ghost predicate Compiled(digest: string -> string, paths: seq<Entry>, rules: seq<RoutingRule>) {
    exists s :: multiset(s) == multiset(paths) && rules == Rules(digest, s)
      && (StrictWeakOrder(Less, Elements(paths)) ==> Sorted(Less, s))
  }

  /** The request goes to the backend set of a best matching path, and nowhere if no path matches. */
  ghost predicate ReachesBest(paths: seq<Entry>, rules: seq<RoutingRule>, r: Request) {
    match Route(rules, r)
    case None => forall e :: e in paths ==> !Matches(e, r)
    case Some(bs) => exists m :: Best(paths, r, m) && m.value.bs == bs
  }

  /** Sort, then turn every usable entry into a rule. */
  method BuildRoutingRules(digest: string -> string, paths: seq<Entry>) returns (rules: seq<RoutingRule>)
    ensures Compiled(digest, paths, rules)
    ensures Admissible(Elements(paths)) ==> forall r :: ReachesBest(paths, rules, r)
    ensures rules == Rules(digest, Sort(Less, paths))
  {
    rules := CollectRules(digest, Sort(Less, paths));
    SortPermutes(Less, paths);
    if StrictWeakOrder(Less, Elements(paths)) {
      SortSorts(Less, paths, Elements(paths));
    }
    if Admissible(Elements(paths)) {
      forall r ensures ReachesBest(paths, rules, r) {
        RequestsReachTheBestPath(digest, paths, r);
      }
    }
  }

  /** Two wildcard hosts of one path and type that a request matches both, `narrow` being the longer. */
  predicate Nested(wide: Entry, narrow: Entry, r: Request) {
    Matches(wide, r) && Matches(narrow, r)
    && wide.value.path.value.path == narrow.value.path.value.path
    && TypeOf(wide.value.path.value) == TypeOf(narrow.value.path.value)
    && Wildcard(wide.value.host) && Wildcard(narrow.value.host) && |wide.value.host| < |narrow.value.host|
  }

  lemma WildcardsCompareHosts(wide: Entry, narrow: Entry, r: Request)
    requires Nested(wide, narrow, r)
    ensures Less(narrow, wide) <==> Lt(wide.value.host, narrow.value.host)
    ensures Less(wide, narrow) <==> !Lt(wide.value.host, narrow.value.host)
  {
    LtIrreflexive(wide.value.path.value.path);
    assert |ToLower(wide.value.host)| != |ToLower(narrow.value.host)|;
    LtConnected(wide.value.host, narrow.value.host);
    LtAsymmetric(wide.value.host, narrow.value.host);
  }

  /** Wildcards are not ranked by how specific they are. In every sorted arrangement the narrower of
      two is tried before the wider one exactly when its host is the greater of the two strings. */
  lemma NarrowWildcardFirstIff(s: seq<Entry>, i: int, j: int, r: Request)
    requires Sorted(Less, s) && 0 <= i < |s| && 0 <= j < |s|
    requires Nested(s[i], s[j], r)
    ensures j < i <==> Lt(s[i].value.host, s[j].value.host)
  {
    WildcardsCompareHosts(s[i], s[j], r);
    assert i != j;
  }

  /** The paths that match differ in their wildcard hosts only. */
  ghost predicate Rivals(s: seq<Entry>, r: Request) {
    forall x, y :: x in s && y in s && Matches(x, r) && Matches(y, r) ==>
      x == y || Nested(x, y, r) || Nested(y, x, r)
  }

  /** A request that several wildcards match reaches the narrowest of them exactly when that is also the
      greatest of the matching hosts. */
  lemma NarrowestIsReachedIff(s: seq<Entry>, r: Request, narrowest: Entry)
    requires Sorted(Less, s) && Rivals(s, r) && narrowest in s && Matches(narrowest, r)
    requires forall x :: x in s && Matches(x, r) && x != narrowest ==> Nested(x, narrowest, r)
    ensures FirstMatch(s, r) == narrowest <==>
      forall x :: x in s && Matches(x, r) && x != narrowest ==> Lt(x.value.host, narrowest.value.host)
  {
    FirstMatchIsFirst(s, r);
    var m := FirstMatch(s, r);
    if m != narrowest {
      WildcardsCompareHosts(m, narrowest, r);
      var i :| 0 <= i < |s| && s[i] == m && forall k :: 0 <= k < i ==> !Matches(s[k], r);
      var j :| 0 <= j < |s| && s[j] == narrowest;
      NarrowWildcardFirstIff(s, i, j, r);
    } else {
      var i :| 0 <= i < |s| && s[i] == m && forall k :: 0 <= k < i ==> !Matches(s[k], r);
      forall x | x in s && Matches(x, r) && x != narrowest ensures Lt(x.value.host, narrowest.value.host) {
        var k :| 0 <= k < |s| && s[k] == x;
        NarrowWildcardFirstIff(s, k, i, r);
      }
    }
  }

  /** What is found is the first of the list, with nothing that matches before it. */
  lemma {:induction false} FirstMatchIsFirst(s: seq<Entry>, r: Request)
    requires exists e :: e in s && Matches(e, r)
    ensures exists i :: 0 <= i < |s| && s[i] == FirstMatch(s, r) && Matches(s[i], r) && forall k :: 0 <= k < i ==> !Matches(s[k], r)
  {
    if !Matches(s[0], r) {
      assert s == [s[0]] + s[1..];
      FirstMatchIsFirst(s[1..], r);
      var i :| 0 <= i < |s[1..]| && s[1..][i] == FirstMatch(s[1..], r) && forall k :: 0 <= k < i ==> !Matches(s[1..][k], r);
      assert s[i + 1] == FirstMatch(s, r);
      forall k | 0 <= k < i + 1 ensures !Matches(s[k], r) {
        if k > 0 { assert s[k] == s[1..][k - 1]; }
      }
    } else {
      assert s[0] == FirstMatch(s, r);
    }
  }

  function OnHost(host: string): Entry {
    Some(ListenerPath("", 80, host, "", Some(Path("/", None, None))))
  }

  /** Wildcards are not ranked by how specific they are: both match, and the wider one is tried
      first. */
  lemma WiderWildcardCanWin()
    ensures var wide, narrow, r := OnHost("*.b.c"), OnHost("*.a.b.c"), Request("x.a.b.c", "/");
      Matches(wide, r) && Matches(narrow, r) && Sorted(Less, [wide, narrow]) && Less(wide, narrow)
  {
    var wide, narrow := "*.b.c", "*.a.b.c";
    assert Lt(narrow, wide) by {
      assert wide[1..] == ".b.c" && narrow[1..] == ".a.b.c";
      assert wide[1..][1..] == "b.c" && narrow[1..][1..] == "a.b.c";
    }
    LtAsymmetric(narrow, wide);
    assert |ToLower(wide)| != |ToLower(narrow)|;
    assert "x.a.b.c"[3..] == ".b.c" && "x.a.b.c"[1..] == ".a.b.c";
  }
}
