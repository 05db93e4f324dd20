/** The state builder against its declarative specification, and its independence of the order
    in which ingresses are listed. */
module StateTheorems {
  import opened Wrappers
  import opened Text
  import opened Ingresses
  import opened StateBuilder
  import opened StateFacts
  import Dedupe
  import Folding
  import Sorting
  import TlsPolicy

  // ---- The paths of a group --------------------------------------------------------------

  ghost predicate AllResolve(cluster: Cluster, ing: Ingress, paths: seq<BackedPath>) {
    forall p :: p in paths ==> ResolveFor(cluster, ing, p).Ok?
  }

  function PathVisits(cluster: Cluster, ing: Ingress, paths: seq<BackedPath>): seq<Visit>
    decreases |paths|
  {
    if paths == [] then []
    else PathVisits(cluster, ing, paths[..|paths| - 1]) + Resolved(cluster, ing, paths[|paths| - 1])
  }

  function Resolved(cluster: Cluster, ing: Ingress, p: BackedPath): seq<Visit> {
    match ResolveFor(cluster, ing, p)
    case Ok(v) => [v]
    case Err(_) => []
  }

  /** The paths of an ingress, as the state builder sees them. */
  function Visits(cluster: Cluster, ing: Ingress): seq<Visit> {
    PathVisits(cluster, ing, BackedPaths(ing.rules))
  }

  function GroupVisits(cluster: Cluster, group: seq<Ingress>): seq<Visit>
    decreases |group|
  {
    if group == [] then []
    else GroupVisits(cluster, group[..|group| - 1]) + Visits(cluster, group[|group| - 1])
  }

  lemma {:induction false} PathVisitsMember(cluster: Cluster, ing: Ingress, paths: seq<BackedPath>, v: Visit)
    ensures v in PathVisits(cluster, ing, paths) <==> v.path in paths && ResolveFor(cluster, ing, v.path) == Ok(v)
    decreases |paths|
  {
    if paths != [] {
      var n := |paths| - 1;
      assert paths == paths[..n] + [paths[n]];
      PathVisitsMember(cluster, ing, paths[..n], v);
    }
  }

  lemma {:induction false} GroupVisitsMember(cluster: Cluster, group: seq<Ingress>, v: Visit)
    ensures v in GroupVisits(cluster, group) <==> v.ing in group && v in Visits(cluster, v.ing)
    decreases |group|
  {
    if group != [] {
      var n := |group| - 1;
      assert group == group[..n] + [group[n]];
      GroupVisitsMember(cluster, group[..n], v);
      PathVisitsMember(cluster, group[n], BackedPaths(group[n].rules), v);
    }
  }

  /** What an ingress records under its own key. */
  function OwnState(cluster: Cluster, ing: Ingress): IngressState {
    IngressState({DEFAULT_BACKEND_SET} + Sets(Visits(cluster, ing)), Ports(Visits(cluster, ing)))
  }

  // ---- Folding the paths of one ingress --------------------------------------------------

  lemma PathVisitsExtend(cluster: Cluster, ing: Ingress, paths: seq<BackedPath>, p: BackedPath)
    ensures PathVisits(cluster, ing, paths + [p]) == PathVisits(cluster, ing, paths) + Resolved(cluster, ing, p)
  {
    assert (paths + [p])[..|paths|] == paths;
  }

  lemma {:induction false} PathVisitsConcat(cluster: Cluster, ing: Ingress, ps: seq<BackedPath>, qs: seq<BackedPath>)
    ensures PathVisits(cluster, ing, ps + qs) == PathVisits(cluster, ing, ps) + PathVisits(cluster, ing, qs)
    decreases |qs|
  {
    if qs == [] {
      assert ps + qs == ps;
    } else {
      var n := |qs| - 1;
      Sorting.SplitLast(ps, qs);
      PathVisitsConcat(cluster, ing, ps, qs[..n]);
      Sorting.ConcatAssociates(PathVisits(cluster, ing, ps), PathVisits(cluster, ing, qs[..n]), Resolved(cluster, ing, qs[n]));
    }
  }

  /** What the fold over one ingress's paths keeps besides the maps. */
  ghost predicate KeptSince(b0: Builder, own: seq<Visit>, b: Builder) {
    b.checkerOwner == b0.checkerOwner && b.ingresses == b0.ingresses
    && b.ports == b0.ports + Ports(own) && b.sets == b0.sets + Sets(own)
    && DEFAULT_BACKEND_SET in b0.checkers && DEFAULT_BACKEND_SET in b.checkers
    && b.checkers[DEFAULT_BACKEND_SET] == b0.checkers[DEFAULT_BACKEND_SET]
  }

  lemma StepKept(b0: Builder, own: seq<Visit>, b: Builder, v: Visit)
    requires KeptSince(b0, own, b) && VisitStep(b, v).Ok? && v.bs != DEFAULT_BACKEND_SET
    ensures KeptSince(b0, own + [v], VisitStep(b, v).value)
  {
    KeysExtend(own, v, Any, PortOf);
    KeysExtend(own, v, Any, SetOf);
    StepMaps(b, v);
    StepRecords(b, v);
  }

  lemma StepRecords(b: Builder, v: Visit)
    requires VisitStep(b, v).Ok?
    ensures var b' := VisitStep(b, v).value;
      b'.checkerOwner == b.checkerOwner && b'.ingresses == b.ingresses
      && b'.ports == b.ports + {v.port} && b'.sets == b.sets + {v.bs}
  {
  }

  ghost predicate PathsOk(cluster: Cluster, ing: Ingress, vs: seq<Visit>, paths: seq<BackedPath>) {
    AllResolve(cluster, ing, paths) && Consistent(vs + PathVisits(cluster, ing, paths))
  }

  ghost predicate PathsDone(cluster: Cluster, ing: Ingress, vs: seq<Visit>, b0: Builder, paths: seq<BackedPath>, b: Builder) {
    AllResolve(cluster, ing, paths)
    && Describes(vs + PathVisits(cluster, ing, paths), b)
    && KeptSince(b0, PathVisits(cluster, ing, paths), b)
  }

  lemma PathsOkPrefix(cluster: Cluster, ing: Ingress, vs: seq<Visit>, d: seq<BackedPath>, e: seq<BackedPath>)
    requires PathsOk(cluster, ing, vs, d + e)
    ensures PathsOk(cluster, ing, vs, d)
  {
    PathVisitsConcat(cluster, ing, d, e);
    var dv, ev := PathVisits(cluster, ing, d), PathVisits(cluster, ing, e);
    assert vs + (dv + ev) == (vs + dv) + ev;
    ConsistentPrefix(vs + dv, ev);
    assert forall p :: p in d ==> p in d + e;
  }

  lemma LocatedIsNotDefault(cluster: Cluster, ing: Ingress, p: BackedPath)
    requires ResolveFor(cluster, ing, p).Ok?
    ensures ResolveFor(cluster, ing, p).value.bs != DEFAULT_BACKEND_SET
  {
    GeneratedIsNotDefault(cluster, ing.namespace, p.service.name, ServicePort(cluster, ing.namespace, p.service).value);
  }

  lemma AllResolveExtend(cluster: Cluster, ing: Ingress, d: seq<BackedPath>, p: BackedPath)
    requires AllResolve(cluster, ing, d) && ResolveFor(cluster, ing, p).Ok?
    ensures AllResolve(cluster, ing, d + [p])
  {
    assert forall x :: x in d + [p] ==> x in d || x == p;
  }

  lemma PathsOkExtend(cluster: Cluster, ing: Ingress, vs: seq<Visit>, d: seq<BackedPath>, p: BackedPath)
    requires AllResolve(cluster, ing, d)
    ensures PathsOk(cluster, ing, vs, d + [p]) <==>
      ResolveFor(cluster, ing, p).Ok?
      && Consistent((vs + PathVisits(cluster, ing, d)) + [ResolveFor(cluster, ing, p).value])
  {
    assert p in d + [p];
    if ResolveFor(cluster, ing, p).Ok? {
      AllResolveExtend(cluster, ing, d, p);
      VisitsSnoc(cluster, ing, vs, d, p, ResolveFor(cluster, ing, p).value);
    }
  }

  lemma VisitRespects(ws: seq<Visit>, own: seq<Visit>, b0: Builder, b: Builder, v: Visit)
    requires Describes(ws, b) && KeptSince(b0, own, b) && v.bs != DEFAULT_BACKEND_SET
    ensures VisitStep(b, v).Ok? <==> Consistent(ws + [v])
    ensures VisitStep(b, v).Ok? ==> Describes(ws + [v], VisitStep(b, v).value) && KeptSince(b0, own + [v], VisitStep(b, v).value)
  {
    StepDescribes(ws, b, v);
    if VisitStep(b, v).Ok? {
      StepKept(b0, own, b, v);
    }
  }

  lemma PathsDoneExtend(cluster: Cluster, ing: Ingress, vs: seq<Visit>, b0: Builder, d: seq<BackedPath>, p: BackedPath, v: Visit, b': Builder)
    requires AllResolve(cluster, ing, d) && ResolveFor(cluster, ing, p) == Ok(v)
    requires Describes((vs + PathVisits(cluster, ing, d)) + [v], b')
    requires KeptSince(b0, PathVisits(cluster, ing, d) + [v], b')
    ensures PathsDone(cluster, ing, vs, b0, d + [p], b')
  {
    VisitsSnoc(cluster, ing, vs, d, p, v);
    AllResolveExtend(cluster, ing, d, p);
  }

  lemma VisitsSnoc(cluster: Cluster, ing: Ingress, vs: seq<Visit>, d: seq<BackedPath>, p: BackedPath, v: Visit)
    requires ResolveFor(cluster, ing, p) == Ok(v)
    ensures PathVisits(cluster, ing, d + [p]) == PathVisits(cluster, ing, d) + [v]
    ensures vs + PathVisits(cluster, ing, d + [p]) == (vs + PathVisits(cluster, ing, d)) + [v]
  {
    PathVisitsExtend(cluster, ing, d, p);
    Sorting.ConcatAssociates(vs, PathVisits(cluster, ing, d), [v]);
  }

  lemma PathStepRespects(cluster: Cluster, ing: Ingress, vs: seq<Visit>, b0: Builder, d: seq<BackedPath>, b: Builder, p: BackedPath)
    requires PathsDone(cluster, ing, vs, b0, d, b)
    ensures PathStep(cluster, ing, b, p).Ok? <==> PathsOk(cluster, ing, vs, d + [p])
    ensures PathStep(cluster, ing, b, p).Ok? ==> PathsDone(cluster, ing, vs, b0, d + [p], PathStep(cluster, ing, b, p).value)
  {
    PathsOkExtend(cluster, ing, vs, d, p);
    var r := ResolveFor(cluster, ing, p);
    if r.Ok? {
      LocatedIsNotDefault(cluster, ing, p);
      VisitRespects(vs + PathVisits(cluster, ing, d), PathVisits(cluster, ing, d), b0, b, r.value);
      var s := VisitStep(b, r.value);
      assert PathStep(cluster, ing, b, p) == s;
      if s.Ok? {
        PathsDoneExtend(cluster, ing, vs, b0, d, p, r.value, s.value);
      }
    }
  }

  /** The paths of one ingress are accepted exactly when they resolve and fit with all earlier
      ones. */
  lemma FoldPathsDescribes(cluster: Cluster, b: Builder, ing: Ingress, paths: seq<BackedPath>, vs: seq<Visit>)
    requires Describes(vs, b) && DEFAULT_BACKEND_SET in b.checkers
    ensures var r := Folding.Fold(PathStepper(cluster, ing), b, paths);
      (r.Ok? <==> PathsOk(cluster, ing, vs, paths)) && (r.Ok? ==> PathsDone(cluster, ing, vs, b, paths, r.value))
  {
    var ok, inv := PathsOkFor(cluster, ing, vs), PathsDoneFor(cluster, ing, vs, b);
    PathsFold(cluster, ing, vs, b);
    PathsStart(cluster, ing, vs, b);
    Folding.FoldFromStart(PathStepper(cluster, ing), ok, inv, b, paths);
  }

  lemma PathsStart(cluster: Cluster, ing: Ingress, vs: seq<Visit>, b: Builder)
    requires Describes(vs, b) && DEFAULT_BACKEND_SET in b.checkers
    ensures PathsOkFor(cluster, ing, vs)([]) && PathsDoneFor(cluster, ing, vs, b)([], b)
  {
    assert vs + PathVisits(cluster, ing, []) == vs;
  }

  ghost function PathsOkFor(cluster: Cluster, ing: Ingress, vs: seq<Visit>): seq<BackedPath> -> bool {
    (ps: seq<BackedPath>) => PathsOk(cluster, ing, vs, ps)
  }

  ghost function PathsDoneFor(cluster: Cluster, ing: Ingress, vs: seq<Visit>, b0: Builder): (seq<BackedPath>, Builder) -> bool {
    (ps: seq<BackedPath>, b: Builder) => PathsDone(cluster, ing, vs, b0, ps, b)
  }

  lemma PathsFold(cluster: Cluster, ing: Ingress, vs: seq<Visit>, b0: Builder)
    ensures Folding.PrefixClosed(PathsOkFor(cluster, ing, vs))
    ensures Folding.StepRespects(PathStepper(cluster, ing), PathsOkFor(cluster, ing, vs), PathsDoneFor(cluster, ing, vs, b0))
  {
    var ok, inv, step := PathsOkFor(cluster, ing, vs), PathsDoneFor(cluster, ing, vs, b0), PathStepper(cluster, ing);
    forall d, e | ok(d + e) ensures ok(d) {
      PathsOkPrefix(cluster, ing, vs, d, e);
    }
    forall d, x, p | inv(d, x)
      ensures (step(x, p).Ok? <==> ok(d + [p])) && (step(x, p).Ok? ==> inv(d + [p], step(x, p).value))
    {
      PathStepRespects(cluster, ing, vs, b0, d, x, p);
    }
  }

  // ---- The owner of the default backend set's health check --------------------------------

  predicate OwnsDefaultChecker(ing: Ingress) { ing.notes.defaultHealthChecker.Some? }

  predicate OwnerOk(ing: Ingress) {
    OwnsDefaultChecker(ing) ==> ing.hasDefaultBackend && ing.notes.defaultHealthChecker.value.Ok?
  }

  /** At most one ingress carries the annotations, it has a default backend, and they parse. */
  ghost predicate OwnersOk(group: seq<Ingress>) {
    (forall ing :: ing in group ==> OwnerOk(ing))
    && forall i, j :: 0 <= i < j < |group| ==> !(OwnsDefaultChecker(group[i]) && OwnsDefaultChecker(group[j]))
  }

  /** The default backend set's checker: the owner's, or the built-in one. */
  function DefaultChecker(group: seq<Ingress>): HealthChecker {
    if group == [] then DEFAULT_CHECKER
    else
      var last := group[|group| - 1];
      if OwnsDefaultChecker(last) && last.notes.defaultHealthChecker.value.Ok? then last.notes.defaultHealthChecker.value.value
      else DefaultChecker(group[..|group| - 1])
  }

  ghost predicate OwnerHolds(begun: seq<Ingress>, b: Builder) {
    OwnersOk(begun)
    && (if b.checkerOwner.Some? then b.checkerOwner.value in begun && OwnsDefaultChecker(b.checkerOwner.value)
        else forall ing :: ing in begun ==> !OwnsDefaultChecker(ing))
    && DEFAULT_BACKEND_SET in b.checkers && b.checkers[DEFAULT_BACKEND_SET] == DefaultChecker(begun)
  }

  lemma OwnersExtend(begun: seq<Ingress>, ing: Ingress)
    ensures OwnersOk(begun + [ing]) <==>
      OwnersOk(begun) && OwnerOk(ing)
      && (OwnsDefaultChecker(ing) ==> forall x :: x in begun ==> !OwnsDefaultChecker(x))
  {
    var all := begun + [ing];
    if OwnersOk(all) {
      forall x | x in begun ensures OwnerOk(x) && (OwnsDefaultChecker(ing) ==> !OwnsDefaultChecker(x)) {
        assert x in all;
        var i :| 0 <= i < |begun| && begun[i] == x;
        assert all[i] == x && all[|begun|] == ing;
      }
      forall i, j | 0 <= i < j < |begun| ensures !(OwnsDefaultChecker(begun[i]) && OwnsDefaultChecker(begun[j])) {
        assert all[i] == begun[i] && all[j] == begun[j];
      }
      assert ing in all;
    }
  }

  lemma {:induction false} OwnersPrefix(begun: seq<Ingress>, rest: seq<Ingress>)
    requires OwnersOk(begun + rest)
    ensures OwnersOk(begun)
  {
    var all := begun + rest;
    forall x | x in begun ensures OwnerOk(x) { assert x in all; }
    forall i, j | 0 <= i < j < |begun| ensures !(OwnsDefaultChecker(begun[i]) && OwnsDefaultChecker(begun[j])) {
      assert all[i] == begun[i] && all[j] == begun[j];
    }
  }

  lemma BeginDescribes(b: Builder, ing: Ingress, begun: seq<Ingress>, vs: seq<Visit>)
    requires Describes(vs, b) && OwnerHolds(begun, b)
    ensures Begin(b, ing).Ok? <==> OwnersOk(begun + [ing])
    ensures Begin(b, ing).Ok? ==>
      var b' := Begin(b, ing).value;
      Describes(vs, b') && OwnerHolds(begun + [ing], b')
      && b'.ports == {} && b'.sets == {DEFAULT_BACKEND_SET} && b'.ingresses == b.ingresses
  {
    OwnersExtend(begun, ing);
    assert Begin(b, ing).Ok? <==> OwnerOk(ing) && (OwnsDefaultChecker(ing) ==> b.checkerOwner.None?);
    if Begin(b, ing).Ok? {
      var b' := Begin(b, ing).value;
      assert (begun + [ing])[..|begun|] == begun;
      assert OwnerHolds(begun + [ing], b') by {
        assert ing in begun + [ing];
      }
      assert CheckersHold(vs, b'.checkers);
    }
  }

  // ---- Folding the group -----------------------------------------------------------------

  ghost predicate GroupResolves(cluster: Cluster, group: seq<Ingress>) {
    forall ing :: ing in group ==> AllResolve(cluster, ing, BackedPaths(ing.rules))
  }

  ghost predicate GroupOk(cluster: Cluster, group: seq<Ingress>) {
    OwnersOk(group) && GroupResolves(cluster, group) && Consistent(GroupVisits(cluster, group))
  }

  /** Every ingress processed finds its own state under its key, unless a later one shares it. */
  ghost predicate IngressesHold(cluster: Cluster, group: seq<Ingress>, m: map<string, IngressState>) {
    m.Keys == Sorting.Elements(Sorting.Map(KeyOf, group))
    && forall k :: k in m ==> exists ing :: ing in group && ing.Key() == k && m[k] == OwnState(cluster, ing)
  }

  function KeyOf(ing: Ingress): string { ing.Key() }

  ghost predicate GroupDone(cluster: Cluster, group: seq<Ingress>, b: Builder) {
    GroupResolves(cluster, group)
    && Describes(GroupVisits(cluster, group), b) && OwnerHolds(group, b) && IngressesHold(cluster, group, b.ingresses)
  }

  lemma GroupVisitsExtend(cluster: Cluster, group: seq<Ingress>, ing: Ingress)
    ensures GroupVisits(cluster, group + [ing]) == GroupVisits(cluster, group) + Visits(cluster, ing)
  {
    assert (group + [ing])[..|group|] == group;
  }

  lemma {:induction false} GroupVisitsConcat(cluster: Cluster, g: seq<Ingress>, h: seq<Ingress>)
    ensures GroupVisits(cluster, g + h) == GroupVisits(cluster, g) + GroupVisits(cluster, h)
    decreases |h|
  {
    if h == [] {
      assert g + h == g;
    } else {
      var n := |h| - 1;
      Sorting.SplitLast(g, h);
      GroupVisitsConcat(cluster, g, h[..n]);
      Sorting.ConcatAssociates(GroupVisits(cluster, g), GroupVisits(cluster, h[..n]), Visits(cluster, h[n]));
    }
  }

  lemma GroupOkPrefix(cluster: Cluster, d: seq<Ingress>, e: seq<Ingress>)
    requires GroupOk(cluster, d + e)
    ensures GroupOk(cluster, d)
  {
    OwnersPrefix(d, e);
    GroupVisitsConcat(cluster, d, e);
    ConsistentPrefix(GroupVisits(cluster, d), GroupVisits(cluster, e));
    assert forall x :: x in d ==> x in d + e;
  }

  lemma GroupOkExtend(cluster: Cluster, d: seq<Ingress>, ing: Ingress)
    requires GroupResolves(cluster, d)
    ensures GroupOk(cluster, d + [ing]) <==>
      OwnersOk(d + [ing]) && PathsOk(cluster, ing, GroupVisits(cluster, d), BackedPaths(ing.rules))
  {
    GroupVisitsExtend(cluster, d, ing);
    assert ing in d + [ing];
  }

  lemma IngressesExtend(cluster: Cluster, d: seq<Ingress>, m: map<string, IngressState>, ing: Ingress)
    requires IngressesHold(cluster, d, m)
    ensures IngressesHold(cluster, d + [ing], m[ing.Key() := OwnState(cluster, ing)])
  {
    var m', e := m[ing.Key() := OwnState(cluster, ing)], d + [ing];
    assert Sorting.Map(KeyOf, e) == Sorting.Map(KeyOf, d) + [ing.Key()];
    forall k | k in m' ensures exists x :: x in e && x.Key() == k && m'[k] == OwnState(cluster, x) {
      if k == ing.Key() {
        assert ing in e;
      } else {
        var x :| x in d && x.Key() == k && m[k] == OwnState(cluster, x);
        assert x in e;
      }
    }
  }

  lemma IngressStepRespects(cluster: Cluster, d: seq<Ingress>, b: Builder, ing: Ingress)
    requires GroupDone(cluster, d, b)
    ensures IngressStep(cluster, b, ing).Ok? <==> GroupOk(cluster, d + [ing])
    ensures IngressStep(cluster, b, ing).Ok? ==> GroupDone(cluster, d + [ing], IngressStep(cluster, b, ing).value)
  {
    var vs := GroupVisits(cluster, d);
    GroupOkExtend(cluster, d, ing);
    BeginDescribes(b, ing, d, vs);
    if Begin(b, ing).Ok? {
      var b0 := Begin(b, ing).value;
      FoldPathsDescribes(cluster, b0, ing, BackedPaths(ing.rules), vs);
      var r := Folding.Fold(PathStepper(cluster, ing), b0, BackedPaths(ing.rules));
      if r.Ok? {
        AfterPaths(cluster, d, ing, b0, r.value);
      }
    }
  }

  lemma PathsDoneDescribes(cluster: Cluster, d: seq<Ingress>, ing: Ingress, b0: Builder, b1: Builder)
    requires PathsDone(cluster, ing, GroupVisits(cluster, d), b0, BackedPaths(ing.rules), b1)
    ensures Describes(GroupVisits(cluster, d + [ing]), b1)
    ensures KeptSince(b0, Visits(cluster, ing), b1) && AllResolve(cluster, ing, BackedPaths(ing.rules))
  {
    GroupVisitsExtend(cluster, d, ing);
  }

  lemma AfterPaths(cluster: Cluster, d: seq<Ingress>, ing: Ingress, b0: Builder, b1: Builder)
    requires IngressesHold(cluster, d, b0.ingresses) && GroupResolves(cluster, d) && OwnerHolds(d + [ing], b0)
    requires b0.ports == {} && b0.sets == {DEFAULT_BACKEND_SET}
    requires PathsDone(cluster, ing, GroupVisits(cluster, d), b0, BackedPaths(ing.rules), b1)
    ensures GroupDone(cluster, d + [ing], End(b1, ing))
  {
    PathsDoneDescribes(cluster, d, ing, b0, b1);
    GroupResolvesExtend(cluster, d, ing);
    OwnerFrame(d + [ing], b0, b1);
    OwnPartRecorded(cluster, ing, b0, b1);
    IngressEnds(cluster, d, ing, b1);
  }

  lemma OwnPartRecorded(cluster: Cluster, ing: Ingress, b0: Builder, b1: Builder)
    requires KeptSince(b0, Visits(cluster, ing), b1) && b0.ports == {} && b0.sets == {DEFAULT_BACKEND_SET}
    ensures IngressState(b1.sets, b1.ports) == OwnState(cluster, ing)
  {
    assert b1.ports == Ports(Visits(cluster, ing));
  }

  lemma IngressEnds(cluster: Cluster, d: seq<Ingress>, ing: Ingress, b1: Builder)
    requires IngressesHold(cluster, d, b1.ingresses)
    requires GroupResolves(cluster, d + [ing])
    requires OwnerHolds(d + [ing], b1)
    requires Describes(GroupVisits(cluster, d + [ing]), b1)
    requires IngressState(b1.sets, b1.ports) == OwnState(cluster, ing)
    ensures GroupDone(cluster, d + [ing], End(b1, ing))
  {
    DescribesFrame(GroupVisits(cluster, d + [ing]), b1, End(b1, ing));
    IngressesExtend(cluster, d, b1.ingresses, ing);
  }

  lemma OwnerFrame(begun: seq<Ingress>, b0: Builder, b: Builder)
    requires OwnerHolds(begun, b0) && b.checkerOwner == b0.checkerOwner
    requires DEFAULT_BACKEND_SET in b.checkers && b.checkers[DEFAULT_BACKEND_SET] == b0.checkers[DEFAULT_BACKEND_SET]
    ensures OwnerHolds(begun, b)
  {
  }

  lemma GroupResolvesExtend(cluster: Cluster, d: seq<Ingress>, ing: Ingress)
    ensures GroupResolves(cluster, d + [ing]) <==> GroupResolves(cluster, d) && AllResolve(cluster, ing, BackedPaths(ing.rules))
  {
    assert ing in d + [ing];
    assert forall x :: x in d ==> x in d + [ing];
  }

  /** Recording the state of an ingress leaves the maps alone. */
  lemma DescribesFrame(vs: seq<Visit>, b: Builder, b': Builder)
    requires Describes(vs, b) && b' == b.(ingresses := b'.ingresses)
    ensures Describes(vs, b')
  {
  }

  ghost function GroupOkFor(cluster: Cluster): seq<Ingress> -> bool {
    (g: seq<Ingress>) => GroupOk(cluster, g)
  }

  ghost function GroupDoneFor(cluster: Cluster): (seq<Ingress>, Builder) -> bool {
    (g: seq<Ingress>, b: Builder) => GroupDone(cluster, g, b)
  }

  lemma GroupFold(cluster: Cluster)
    ensures Folding.PrefixClosed(GroupOkFor(cluster))
    ensures Folding.StepRespects(IngressStepper(cluster), GroupOkFor(cluster), GroupDoneFor(cluster))
  {
    var ok, inv, step := GroupOkFor(cluster), GroupDoneFor(cluster), IngressStepper(cluster);
    forall d, e | ok(d + e) ensures ok(d) {
      GroupOkPrefix(cluster, d, e);
    }
    forall d, x, ing | inv(d, x)
      ensures (step(x, ing).Ok? <==> ok(d + [ing])) && (step(x, ing).Ok? ==> inv(d + [ing], step(x, ing).value))
    {
      IngressStepRespects(cluster, d, x, ing);
    }
  }

  lemma FoldGroupDescribes(cluster: Cluster, group: seq<Ingress>)
    ensures var r := Folding.Fold(IngressStepper(cluster), EMPTY, group);
      (r.Ok? <==> GroupOk(cluster, group)) && (r.Ok? ==> GroupDone(cluster, group, r.value))
  {
    GroupFold(cluster);
    GroupStarts(cluster);
    Folding.FoldFromStart(IngressStepper(cluster), GroupOkFor(cluster), GroupDoneFor(cluster), EMPTY, group);
  }

  lemma GroupStarts(cluster: Cluster)
    ensures GroupOkFor(cluster)([]) && GroupDoneFor(cluster)([], EMPTY)
  {
    EmptyDescribes();
  }

  lemma EmptyDescribes()
    ensures Describes([], EMPTY) && OwnerHolds([], EMPTY)
  {
  }

  ghost predicate UniqueKeys(group: seq<Ingress>) {
    forall x, y :: x in group && y in group && x.Key() == y.Key() ==> x == y
  }

  lemma OwnStates(cluster: Cluster, group: seq<Ingress>, m: map<string, IngressState>)
    requires IngressesHold(cluster, group, m) && UniqueKeys(group)
    ensures forall ing :: ing in group ==> ing.Key() in m && m[ing.Key()] == OwnState(cluster, ing)
  {
    forall ing | ing in group ensures ing.Key() in m && m[ing.Key()] == OwnState(cluster, ing) {
      var i :| 0 <= i < |group| && group[i] == ing;
      assert Sorting.Map(KeyOf, group)[i] == ing.Key();
    }
  }

  // ---- Assembling ------------------------------------------------------------------------

  lemma {:induction false} MergeTargetsIff<K>(decode: string -> TlsPolicy.Document, keys: seq<K>,
                                              candidates: map<K, seq<TlsPolicy.Candidate>>, active: set<K>)
    requires forall k :: k in keys ==> k in candidates
    ensures MergeTargets(decode, keys, candidates, active).Ok? <==>
      forall k :: k in keys && k in active ==> TlsPolicy.AllParseAndAgree(decode, candidates[k])
    ensures MergeTargets(decode, keys, candidates, active).Ok? ==>
      var m := MergeTargets(decode, keys, candidates, active).value;
      forall k :: (k in m <==> k in keys && k in active && candidates[k] != [])
                  && (k in m ==> TlsPolicy.Merged(decode, candidates[k]) == Ok(Some(m[k])))
    decreases |keys|
  {
    if keys != [] {
      var n := |keys| - 1;
      assert keys == keys[..n] + [keys[n]];
      MergeTargetsIff(decode, keys[..n], candidates, active);
      MergedFacts(decode, candidates[keys[n]]);
    }
  }

  lemma MergedFacts(decode: string -> TlsPolicy.Document, cs: seq<TlsPolicy.Candidate>)
    ensures TlsPolicy.Merged(decode, cs).Ok? <==> TlsPolicy.AllParseAndAgree(decode, cs)
    ensures TlsPolicy.Merged(decode, cs).Ok? ==> (TlsPolicy.Merged(decode, cs).value.Some? <==> cs != [])
  {
    TlsPolicy.MergeSucceedsIff(decode, cs);
    TlsPolicy.MergeIsJoin(decode, cs, TlsPolicy.NO_POLICY);
  }

  lemma ImageOfPermutation<T, U>(f: T -> U, s: seq<T>, t: seq<T>, u: U)
    requires multiset(s) == multiset(t) && u in Sorting.Map(f, s)
    ensures u in Sorting.Map(f, t)
  {
    var i :| 0 <= i < |s| && Sorting.Map(f, s)[i] == u;
    Sorting.SameElements(s, t);
    assert s[i] in t;
    var j :| 0 <= j < |t| && t[j] == s[i];
    assert Sorting.Map(f, t)[j] == u;
  }

  /** The certificates of a listener: each artifact its candidates carry, once. */
  lemma ListenerTlsOf(xs: seq<TlsCandidate>)
    ensures Sorting.Elements(ListenerTlsConfigs(xs)) == Configs(xs)
    ensures Sorting.Distinct(ListenerTlsConfigs(xs))
    ensures ListenerTlsConfigs(xs) != [] <==> Configs(xs) != {}
  {
    var sorted := Sorting.Sort(TlsCandidateLess, xs);
    Sorting.SortPermutes(TlsCandidateLess, xs);
    var fs, fx, r := Sorting.Map(ConfigOf, sorted), Sorting.Map(ConfigOf, xs), ListenerTlsConfigs(xs);
    Dedupe.FirstOccurrencesElements(fs, {});
    forall c ensures c in r <==> c in fx {
      if c in fs { ImageOfPermutation(ConfigOf, sorted, xs, c); }
      if c in fx { ImageOfPermutation(ConfigOf, xs, sorted, c); }
    }
    if r != [] { assert r[0] in Configs(xs); }
  }

  lemma ListenerTlsDescribes(vs: seq<Visit>, m: map<int, seq<TlsCandidate>>, p: int)
    requires TlsCandidatesHold(vs, m)
    ensures var t := ListenerTlsMap(m);
      (p in t <==> Artifacts(vs, p) != {})
      && (p in t ==> Sorting.Elements(t[p]) == Artifacts(vs, p) && Sorting.Distinct(t[p]))
  {
    assert Configs(At(m, p)) == Artifacts(vs, p);
    if p in m {
      ListenerTlsOf(m[p]);
    } else {
      assert Configs([]) == {};
    }
  }

  /** Every listener that terminates TLS has mergeable policy annotations. */
  ghost predicate ListenerPoliciesAgree(cluster: Cluster, vs: seq<Visit>) {
    forall p: int :: Artifacts(vs, p) != {} ==>
      TlsPolicy.AllParseAndAgree(cluster.decode, PolicyNotes(vs, PortOf, p, ListenerCandidate))
  }

  /** The backend set of the path speaks TLS to its backends. */
  predicate UsesBackendTls(v: Visit) {
    BringsTls(v) && v.ing.notes.backendTls && Active(BackendInput(v))
  }

  ghost predicate BackendSetPoliciesAgree(cluster: Cluster, vs: seq<Visit>) {
    forall v :: v in vs && UsesBackendTls(v) ==>
      TlsPolicy.AllParseAndAgree(cluster.decode, PolicyNotes(vs, SetOf, v.bs, BackendSetCandidate))
  }

  /** What the finished class state says, in terms of the paths alone. */
  ghost predicate StateHolds(cluster: Cluster, group: seq<Ingress>, vs: seq<Visit>, c: ClassState) {
    c.backendSets == {DEFAULT_BACKEND_SET} + Sets(vs)
    && c.listeners == Ports(vs)
    && ProtocolsHold(vs, c.protocols)
    && DefaultsHold(vs, c.defaults)
    && c.idle.Keys == IdlePorts(vs)
    && (forall v :: v in vs && WantsIdle(v) ==> v.port in c.idle && IdleOf(v.ing) == Ok(Some(c.idle[v.port])))
    && PoliciesHold(vs, c.policies)
    && CheckersHold(vs, c.checkers)
    && c.checkers[DEFAULT_BACKEND_SET] == DefaultChecker(group)
    && SessionsHold(vs, c.sessions)
    && TlsConfigsHold(vs, c.backendTls)
    && ReachHolds(vs, c.reach)
    && ListenerTlsHolds(vs, c.listenerTls)
    && ListenerPoliciesHold(cluster, vs, c.listenerPolicies)
    && BackendSetPoliciesHold(cluster, vs, c.backendTls, c.backendSetPolicies)
  }

  ghost predicate ListenerTlsHolds(vs: seq<Visit>, m: map<int, seq<TlsConfig>>) {
    forall p: int :: (p in m <==> Artifacts(vs, p) != {})
      && (p in m ==> Sorting.Elements(m[p]) == Artifacts(vs, p) && Sorting.Distinct(m[p]))
  }

  ghost predicate ListenerPoliciesHold(cluster: Cluster, vs: seq<Visit>, m: map<int, TlsPolicy.ExplicitPolicy>) {
    forall p: int :: (p in m <==> Artifacts(vs, p) != {} && PolicyNotes(vs, PortOf, p, ListenerCandidate) != [])
      && (p in m ==> TlsPolicy.Merged(cluster.decode, PolicyNotes(vs, PortOf, p, ListenerCandidate)) == Ok(Some(m[p])))
  }

  ghost predicate BackendSetPoliciesHold(cluster: Cluster, vs: seq<Visit>, used: map<string, TlsConfig>,
                                         m: map<string, TlsPolicy.ExplicitPolicy>) {
    forall b: string :: (b in m <==> b in ActiveBackendSets(used) && PolicyNotes(vs, SetOf, b, BackendSetCandidate) != [])
      && (b in m ==> TlsPolicy.Merged(cluster.decode, PolicyNotes(vs, SetOf, b, BackendSetCandidate)) == Ok(Some(m[b])))
  }

  lemma NoNotesAgree(decode: string -> TlsPolicy.Document)
    ensures TlsPolicy.AllParseAndAgree(decode, [])
  {
  }

  lemma ListenerNotes(vs: seq<Visit>, b: Builder, p: int)
    requires TlsCandidatesHold(vs, b.tlsCandidates) && AnnotationsHold(vs, PortOf, ListenerCandidate, b.listenerPolicies)
    ensures p in ListenerTlsMap(b.tlsCandidates) <==> Artifacts(vs, p) != {}
    ensures p in b.listenerPolicies <==> PolicyNotes(vs, PortOf, p, ListenerCandidate) != []
    ensures p in b.listenerPolicies ==> b.listenerPolicies[p] == PolicyNotes(vs, PortOf, p, ListenerCandidate)
  {
    ListenerTlsDescribes(vs, b.tlsCandidates, p);
    assert At(b.listenerPolicies, p) == PolicyNotes(vs, PortOf, p, ListenerCandidate);
  }

  function MergeListeners(cluster: Cluster, b: Builder, ports: seq<int>): Result<map<int, TlsPolicy.ExplicitPolicy>, (int, TlsPolicy.MergeError)>
    requires forall p :: p in ports ==> p in b.listenerPolicies
  {
    MergeTargets(cluster.decode, ports, b.listenerPolicies, ListenerTlsMap(b.tlsCandidates).Keys)
  }

  lemma ListenerMerge(cluster: Cluster, vs: seq<Visit>, b: Builder)
    requires TlsCandidatesHold(vs, b.tlsCandidates) && AnnotationsHold(vs, PortOf, ListenerCandidate, b.listenerPolicies)
    ensures var r := MergeListeners(cluster, b, SortedPorts(b.listenerPolicies));
      (r.Ok? <==> ListenerPoliciesAgree(cluster, vs)) && (r.Ok? ==> ListenerPoliciesHold(cluster, vs, r.value))
  {
    var notes, active := b.listenerPolicies, ListenerTlsMap(b.tlsCandidates).Keys;
    var r := MergeListeners(cluster, b, SortedPorts(notes));
    MergeTargetsIff(cluster.decode, SortedPorts(notes), notes, active);
    if r.Ok? {
      forall p: int | Artifacts(vs, p) != {}
        ensures TlsPolicy.AllParseAndAgree(cluster.decode, PolicyNotes(vs, PortOf, p, ListenerCandidate))
      {
        ListenerNotes(vs, b, p);
        NoNotesAgree(cluster.decode);
      }
      forall p: int
        ensures p in r.value <==> Artifacts(vs, p) != {} && PolicyNotes(vs, PortOf, p, ListenerCandidate) != []
        ensures p in r.value ==> TlsPolicy.Merged(cluster.decode, PolicyNotes(vs, PortOf, p, ListenerCandidate)) == Ok(Some(r.value[p]))
      {
        ListenerNotes(vs, b, p);
      }
    }
    if ListenerPoliciesAgree(cluster, vs) {
      forall p | p in SortedPorts(notes) && p in active ensures TlsPolicy.AllParseAndAgree(cluster.decode, notes[p]) {
        ListenerNotes(vs, b, p);
      }
    }
  }

  lemma ActiveDescribes(vs: seq<Visit>, m: map<string, TlsConfig>, bs: string)
    requires TlsConfigsHold(vs, m)
    ensures bs in ActiveBackendSets(m) <==> exists v :: v in vs && v.bs == bs && UsesBackendTls(v)
  {
    KeysMember(vs, BringsTls, SetOf, bs);
    if bs in ActiveBackendSets(m) {
      var v :| v in vs && BringsTls(v) && SetOf(v) == bs;
      assert UsesBackendTls(v);
    }
  }

  lemma BackendSetMerge(cluster: Cluster, vs: seq<Visit>, b: Builder)
    requires TlsConfigsHold(vs, b.backendTlsConfigs) && AnnotationsHold(vs, SetOf, BackendSetCandidate, b.backendSetPolicies)
    ensures var r := MergeTargets(cluster.decode, SortedKeys(b.backendSetPolicies), b.backendSetPolicies, ActiveBackendSets(b.backendTlsConfigs));
      (r.Ok? <==> BackendSetPoliciesAgree(cluster, vs)) && (r.Ok? ==> BackendSetPoliciesHold(cluster, vs, b.backendTlsConfigs, r.value))
  {
    var candidates, active := b.backendSetPolicies, ActiveBackendSets(b.backendTlsConfigs);
    MergeTargetsIff(cluster.decode, SortedKeys(candidates), candidates, active);
    NoNotesAgree(cluster.decode);
    forall k: string
      ensures k in active <==> exists v :: v in vs && v.bs == k && UsesBackendTls(v)
      ensures At(candidates, k) == PolicyNotes(vs, SetOf, k, BackendSetCandidate)
    {
      ActiveDescribes(vs, b.backendTlsConfigs, k);
    }
  }

  /** The parts of the class state that are taken over from the builder. */
  predicate TakenOver(b: Builder, c: ClassState) {
    c.backendSets == b.backendSets && c.listeners == b.listeners && c.protocols == b.protocols && c.defaults == b.defaults
    && c.idle == (map p | p in b.idle :: b.idle[p].timeout)
    && c.reach == b.reach && c.checkers == b.checkers && c.policies == b.policies && c.sessions == b.sessions
    && c.backendTls == b.backendTlsConfigs && c.listenerTls == ListenerTlsMap(b.tlsCandidates)
  }

  lemma TakenOverHolds(cluster: Cluster, group: seq<Ingress>, vs: seq<Visit>, b: Builder, c: ClassState)
    requires Describes(vs, b) && OwnerHolds(group, b) && TakenOver(b, c)
    requires ListenerPoliciesHold(cluster, vs, c.listenerPolicies)
    requires BackendSetPoliciesHold(cluster, vs, b.backendTlsConfigs, c.backendSetPolicies)
    ensures StateHolds(cluster, group, vs, c)
  {
    ListenerTlsMapDescribes(vs, b.tlsCandidates);
  }

  lemma AssembleIs(cluster: Cluster, b: Builder)
    ensures var listeners := MergeListeners(cluster, b, SortedPorts(b.listenerPolicies));
      var sets := MergeTargets(cluster.decode, SortedKeys(b.backendSetPolicies), b.backendSetPolicies, ActiveBackendSets(b.backendTlsConfigs));
      (Assemble(cluster, b).Ok? <==> listeners.Ok? && sets.Ok?)
      && (Assemble(cluster, b).Ok? ==>
            var built := Assemble(cluster, b).value;
            TakenOver(b, built.group) && built.ingresses == b.ingresses
            && built.group.listenerPolicies == listeners.value && built.group.backendSetPolicies == sets.value)
  {
  }

  lemma AssembleDescribes(cluster: Cluster, group: seq<Ingress>, vs: seq<Visit>, b: Builder)
    requires Describes(vs, b) && OwnerHolds(group, b)
    ensures Assemble(cluster, b).Ok? <==> ListenerPoliciesAgree(cluster, vs) && BackendSetPoliciesAgree(cluster, vs)
    ensures Assemble(cluster, b).Ok? ==>
      StateHolds(cluster, group, vs, Assemble(cluster, b).value.group) && Assemble(cluster, b).value.ingresses == b.ingresses
  {
    ListenerMerge(cluster, vs, b);
    BackendSetMerge(cluster, vs, b);
    AssembleIs(cluster, b);
    if Assemble(cluster, b).Ok? {
      TakenOverHolds(cluster, group, vs, b, Assemble(cluster, b).value.group);
    }
  }

  lemma ListenerTlsMapDescribes(vs: seq<Visit>, m: map<int, seq<TlsCandidate>>)
    requires TlsCandidatesHold(vs, m)
    ensures ListenerTlsHolds(vs, ListenerTlsMap(m))
  {
    forall p: int
      ensures var t := ListenerTlsMap(m);
        (p in t <==> Artifacts(vs, p) != {})
        && (p in t ==> Sorting.Elements(t[p]) == Artifacts(vs, p) && Sorting.Distinct(t[p]))
    {
      ListenerTlsDescribes(vs, m, p);
    }
  }

  // ---- The main results ------------------------------------------------------------------

  /** The whole class is acceptable: stated about ingresses, paths and pairs of paths, with no
      mention of the maps or of the order in which they are filled (but for health checkers). */
  ghost predicate Acceptable(cluster: Cluster, group: seq<Ingress>) {
    OwnersOk(group)
    && GroupResolves(cluster, group)
    && Consistent(GroupVisits(cluster, group))
    && ListenerPoliciesAgree(cluster, GroupVisits(cluster, group))
    && BackendSetPoliciesAgree(cluster, GroupVisits(cluster, group))
  }

  /** The builder succeeds exactly on acceptable classes, and then every map holds what the
      paths call for. */
  lemma BuildRefinesSpecification(cluster: Cluster, ic: IngressClass, ings: seq<Ingress>)
    ensures var group := SortedGroup(ic, ings);
      (Build(cluster, ic, ings).Ok? <==> Acceptable(cluster, group))
      && (Build(cluster, ic, ings).Ok? ==>
            StateHolds(cluster, group, GroupVisits(cluster, group), Build(cluster, ic, ings).value.group)
            && (UniqueKeys(group) ==>
                  forall ing :: ing in group ==>
                    ing.Key() in Build(cluster, ic, ings).value.ingresses
                    && Build(cluster, ic, ings).value.ingresses[ing.Key()] == OwnState(cluster, ing)))
  {
    var group := SortedGroup(ic, ings);
    FoldGroupDescribes(cluster, group);
    var r := Folding.Fold(IngressStepper(cluster), EMPTY, group);
    assert Build(cluster, ic, ings) == match r case Err(e) => Err(e) case Ok(b) => Assemble(cluster, b);
    if r.Ok? {
      GroupAssembles(cluster, group, r.value);
    }
  }

  lemma GroupAssembles(cluster: Cluster, group: seq<Ingress>, b: Builder)
    requires GroupDone(cluster, group, b)
    ensures var r := Assemble(cluster, b);
      (r.Ok? <==> ListenerPoliciesAgree(cluster, GroupVisits(cluster, group)) && BackendSetPoliciesAgree(cluster, GroupVisits(cluster, group)))
      && (r.Ok? ==> StateHolds(cluster, group, GroupVisits(cluster, group), r.value.group))
      && (r.Ok? && UniqueKeys(group) ==>
            forall ing :: ing in group ==>
              ing.Key() in r.value.ingresses && r.value.ingresses[ing.Key()] == OwnState(cluster, ing))
  {
    AssembleDescribes(cluster, group, GroupVisits(cluster, group), b);
    if UniqueKeys(group) {
      OwnStates(cluster, group, b.ingresses);
    }
  }

  // ---- Order of the ingress list ---------------------------------------------------------

  ghost predicate UniqueNames(ings: set<Ingress>) {
    forall x, y :: x in ings && y in ings && x.namespace == y.namespace && x.name == y.name ==> x == y
  }

  lemma IngressTriple(a: Ingress, b: Ingress, c: Ingress)
    ensures !IngressLess(a, a)
    ensures IngressLess(a, b) && IngressLess(b, c) ==> IngressLess(a, c)
    ensures IngressLess(a, c) ==> IngressLess(a, b) || IngressLess(b, c)
    ensures !IngressLess(a, b) && !IngressLess(b, a) ==> a.namespace == b.namespace && a.name == b.name
  {
    Sorting.StringOrder({a.namespace, b.namespace, c.namespace});
    Sorting.StringOrder({a.name, b.name, c.name});
    assert Sorting.TiesAgree(Lt, (x: string) => x, {a.namespace, b.namespace, c.namespace});
    LtAsymmetric(a.namespace, b.namespace);
    LtAsymmetric(b.namespace, c.namespace);
    if a.namespace != b.namespace { LtConnected(a.namespace, b.namespace); }
    if b.namespace != c.namespace { LtConnected(b.namespace, c.namespace); }
    if a.name != b.name { LtConnected(a.name, b.name); }
  }

  lemma {:induction false} GroupPermutes(ic: IngressClass, ings: seq<Ingress>, ing: Ingress)
    ensures multiset(Group(ic, ings))[ing] == if Counts(ic, ing) then multiset(ings)[ing] else 0
  {
    if ings != [] {
      assert ings == [ings[0]] + ings[1..];
      GroupPermutes(ic, ings[1..], ing);
    }
  }

  /** The outcome, error included, depends only on which ingresses there are. */
  lemma BuildIgnoresOrder(cluster: Cluster, ic: IngressClass, ings: seq<Ingress>, jngs: seq<Ingress>)
    requires multiset(ings) == multiset(jngs)
    requires UniqueNames(Sorting.Elements(Group(ic, ings)))
    ensures SortedGroup(ic, ings) == SortedGroup(ic, jngs)
    ensures Build(cluster, ic, ings) == Build(cluster, ic, jngs)
  {
    var g, h := Group(ic, ings), Group(ic, jngs);
    assert multiset(g) == multiset(h) by {
      forall ing ensures multiset(g)[ing] == multiset(h)[ing] {
        GroupPermutes(ic, ings, ing);
        GroupPermutes(ic, jngs, ing);
      }
    }
    var dom := Sorting.Elements(g);
    Sorting.SameElements(g, h);
    forall a, b, c | a in dom && b in dom && c in dom
      ensures !IngressLess(a, a)
      ensures IngressLess(a, b) && IngressLess(b, c) ==> IngressLess(a, c)
      ensures IngressLess(a, c) ==> IngressLess(a, b) || IngressLess(b, c)
      ensures !IngressLess(a, b) && !IngressLess(b, a) ==> a == b
    {
      IngressTriple(a, b, c);
    }
    Sorting.SortPermutes(IngressLess, g);
    Sorting.SortPermutes(IngressLess, h);
    Sorting.SameElements(Sorting.Sort(IngressLess, g), g);
    Sorting.SortSorts(IngressLess, g, dom);
    Sorting.SortSorts(IngressLess, h, dom);
    Sorting.SortedUnique(IngressLess, Sorting.Sort(IngressLess, g), Sorting.Sort(IngressLess, h), dom);
  }
}
