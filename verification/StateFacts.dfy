/** What the fold computes, said about the set of paths instead of about the loop. */
module StateFacts {
  import opened Wrappers
  import opened Text
  import opened Ingresses
  import opened StateBuilder
  import Dedupe
  import Sorting
  import TlsPolicy

  // ---- Declarative side: valid paths and compatible pairs ---------------------------------

  function CheckerOf(v: Visit): Decoded<HealthChecker> { v.ing.notes.healthChecker }

  /** A path is valid on its own. */
  predicate Valid(v: Visit) {
    IdleOf(v.ing).Ok? && v.ing.notes.healthChecker.Ok? && SessionOf(v.ing).Ok?
    && v.bs != DEFAULT_BACKEND_SET
  }

  /** Two paths of one listener. */
  predicate PortCompatible(u: Visit, v: Visit)
    requires Valid(u) && Valid(v)
  {
    Protocol(u.ing) == Protocol(v.ing)
    && DefaultOf(u) == DefaultOf(v)
    && (IdleOf(u.ing).value.Some? && IdleOf(v.ing).value.Some? ==> IdleOf(u.ing) == IdleOf(v.ing))
  }

  /** Two paths of one backend set, `u` processed before `v`: the health checkers are the one
      clause that is not symmetric. */
  predicate BackendCompatible(u: Visit, v: Visit)
    requires Valid(u) && Valid(v)
  {
    BackendPolicy(u.ing) == BackendPolicy(v.ing)
    && (CheckerOf(v).value == DEFAULT_CHECKER || CheckerOf(u) == CheckerOf(v))
    && u.ing.notes.backendTls == v.ing.notes.backendTls
    && (v.ing.notes.backendTls && u.tls != [] && v.tls != [] ==> BackendInput(u) == BackendInput(v))
  }

  predicate Compatible(u: Visit, v: Visit)
    requires Valid(u) && Valid(v)
  {
    (u.port == v.port ==> PortCompatible(u, v)) && (u.bs == v.bs ==> BackendCompatible(u, v))
  }

  /** All paths are valid and no two conflict. */
  ghost predicate Consistent(vs: seq<Visit>) {
    (forall v :: v in vs ==> Valid(v))
    && forall i, j :: 0 <= i < j < |vs| ==> Compatible(vs[i], vs[j])
  }

  lemma ConsistentExtend(vs: seq<Visit>, v: Visit)
    ensures Consistent(vs + [v]) <==> Consistent(vs) && Valid(v) && forall u :: u in vs ==> Compatible(u, v)
  {
    var ws := vs + [v];
    if Consistent(ws) {
      forall u | u in vs ensures u in ws {}
      forall i, j | 0 <= i < j < |vs| ensures Compatible(vs[i], vs[j]) {
        assert ws[i] == vs[i] && ws[j] == vs[j];
      }
      forall u | u in vs ensures Compatible(u, v) {
        var i :| 0 <= i < |vs| && vs[i] == u;
        assert Compatible(ws[i], ws[|vs|]);
      }
      assert v in ws;
    }
    if Consistent(vs) && Valid(v) && forall u :: u in vs ==> Compatible(u, v) {
      forall i, j | 0 <= i < j < |ws| ensures Compatible(ws[i], ws[j]) {
        assert ws[i] == vs[i] && vs[i] in vs;
        if j < |vs| { assert ws[j] == vs[j]; }
      }
    }
  }

  lemma {:induction false} ConsistentPrefix(vs: seq<Visit>, ws: seq<Visit>)
    requires Consistent(vs + ws)
    ensures Consistent(vs)
    decreases |ws|
  {
    if ws == [] {
      assert vs + ws == vs;
    } else {
      assert vs + ws == (vs + ws[..|ws| - 1]) + [ws[|ws| - 1]];
      ConsistentExtend(vs + ws[..|ws| - 1], ws[|ws| - 1]);
      ConsistentPrefix(vs, ws[..|ws| - 1]);
    }
  }

  // ---- What each map holds after the paths `vs` -------------------------------------------

  function Init(vs: seq<Visit>): seq<Visit>
    requires vs != []
  {
    vs[..|vs| - 1]
  }

  function Last(vs: seq<Visit>): Visit
    requires vs != []
  {
    vs[|vs| - 1]
  }

  /** The values of `key` over the paths that meet a condition. */
  function Keys<K>(vs: seq<Visit>, meets: Visit -> bool, key: Visit -> K): set<K>
    decreases |vs|
  {
    if vs == [] then {}
    else Keys(Init(vs), meets, key) + (if meets(Last(vs)) then {key(Last(vs))} else {})
  }

  predicate Any(v: Visit) { true }
  predicate WantsIdle(v: Visit) { IdleOf(v.ing).Ok? && IdleOf(v.ing).value.Some? }
  predicate BringsTls(v: Visit) { v.tls != [] }
  function PortOf(v: Visit): int { v.port }
  function SetOf(v: Visit): string { v.bs }

  function Ports(vs: seq<Visit>): set<int> { Keys(vs, Any, PortOf) }
  function Sets(vs: seq<Visit>): set<string> { Keys(vs, Any, SetOf) }
  function IdlePorts(vs: seq<Visit>): set<int> { Keys(vs, WantsIdle, PortOf) }
  function TlsSets(vs: seq<Visit>): set<string> { Keys(vs, BringsTls, SetOf) }

  lemma {:induction false} KeysMember<K>(vs: seq<Visit>, meets: Visit -> bool, key: Visit -> K, k: K)
    ensures k in Keys(vs, meets, key) <==> exists v :: v in vs && meets(v) && key(v) == k
    decreases |vs|
  {
    if vs != [] {
      assert vs == Init(vs) + [Last(vs)];
      KeysMember(Init(vs), meets, key, k);
      if exists v :: v in Init(vs) && meets(v) && key(v) == k {
        var v :| v in Init(vs) && meets(v) && key(v) == k;
        assert v in vs;
      }
      assert Last(vs) in vs;
    }
  }

  ghost predicate ProtocolsHold(vs: seq<Visit>, m: map<int, string>) {
    m.Keys == Ports(vs) && forall v :: v in vs ==> v.port in m && m[v.port] == Protocol(v.ing)
  }

  ghost predicate DefaultsHold(vs: seq<Visit>, m: map<int, string>) {
    m.Keys == Ports(vs) && forall v :: v in vs ==> v.port in m && m[v.port] == DefaultOf(v)
  }

  /** The entry comes from this path. */
  predicate Recorded(v: Visit, port: int, t: IdleTimeout) {
    v.port == port && IdleOf(v.ing) == Ok(Some(t.timeout)) && v.ing.namespace == t.namespace && v.ing.name == t.name
  }

  ghost predicate IdleHolds(vs: seq<Visit>, m: map<int, IdleTimeout>) {
    m.Keys == IdlePorts(vs)
    && forall v :: v in vs && WantsIdle(v) ==> v.port in m && IdleOf(v.ing) == Ok(Some(m[v.port].timeout))
  }

  ghost predicate IdleRecorded(vs: seq<Visit>, m: map<int, IdleTimeout>) {
    forall p :: p in m ==> exists v :: v in vs && Recorded(v, p, m[p])
  }

  ghost predicate PoliciesHold(vs: seq<Visit>, m: map<string, string>) {
    m.Keys == {DEFAULT_BACKEND_SET} + Sets(vs)
    && m[DEFAULT_BACKEND_SET] == DEFAULT_POLICY
    && forall v :: v in vs ==> v.bs in m && m[v.bs] == BackendPolicy(v.ing)
  }

  /** The last path of a backend set decides its health checker. */
  function LastChecker(vs: seq<Visit>, bs: string): Option<Decoded<HealthChecker>>
    decreases |vs|
  {
    if vs == [] then None
    else if Last(vs).bs == bs then Some(CheckerOf(Last(vs)))
    else LastChecker(Init(vs), bs)
  }

  ghost predicate CheckersHold(vs: seq<Visit>, m: map<string, HealthChecker>) {
    m.Keys == {DEFAULT_BACKEND_SET} + Sets(vs)
    && forall b :: b in m && b != DEFAULT_BACKEND_SET ==> LastChecker(vs, b) == Some(Ok(m[b]))
  }

  function LbOf(v: Visit): Option<LbCookie> {
    if SessionOf(v.ing).Ok? then SessionOf(v.ing).value.lb else None
  }

  function AppOf(v: Visit): Option<string> {
    if SessionOf(v.ing).Ok? then SessionOf(v.ing).value.app else None
  }

  /** The first cookie of a kind asked for by a path of the backend set. */
  function First<C>(vs: seq<Visit>, bs: string, cookie: Visit -> Option<C>): Option<C>
    decreases |vs|
  {
    if vs == [] then None
    else if First(Init(vs), bs, cookie).Some? then First(Init(vs), bs, cookie)
    else if Last(vs).bs == bs then cookie(Last(vs)) else None
  }

  /** First load balancer cookie, else first application cookie, else none. */
  function Preferred(vs: seq<Visit>, bs: string): Session {
    if First(vs, bs, LbOf).Some? then Session(None, First(vs, bs, LbOf)) else Session(First(vs, bs, AppOf), None)
  }

  ghost predicate SessionsHold(vs: seq<Visit>, m: map<string, Session>) {
    m.Keys == Sets(vs) && forall b :: b in m ==> m[b] == Preferred(vs, b)
  }

  ghost predicate BackendTlsHolds(vs: seq<Visit>, m: map<string, BackendTls>) {
    m.Keys == Sets(vs)
    && (forall v :: v in vs ==> v.bs in m && m[v.bs].enabled == v.ing.notes.backendTls)
    && (forall b :: b in m ==> (m[b].hasInput <==> b in TlsSets(vs)))
    && forall v :: v in vs && BringsTls(v) && v.ing.notes.backendTls ==> v.bs in m && m[v.bs].config == BackendInput(v)
  }

  ghost predicate TlsConfigsHold(vs: seq<Visit>, m: map<string, TlsConfig>) {
    m.Keys == TlsSets(vs)
    && forall v :: v in vs && BringsTls(v) ==>
      v.bs in m && m[v.bs] == if v.ing.notes.backendTls then BackendInput(v) else NO_TLS
  }

  /** The backend sets a listener reaches through its paths and its default. */
  function Reach(vs: seq<Visit>, p: int): set<string>
    decreases |vs|
  {
    if vs == [] then {}
    else Reach(Init(vs), p) + (if Last(vs).port == p then {Last(vs).bs, DefaultOf(Last(vs))} else {})
  }

  ghost predicate ReachHolds(vs: seq<Visit>, m: map<int, set<string>>) {
    m.Keys == Ports(vs) && forall p :: p in m ==> m[p] == Reach(vs, p)
  }

  /** The TLS artifacts the paths of a listener bring. */
  function Artifacts(vs: seq<Visit>, p: int): set<TlsConfig>
    decreases |vs|
  {
    if vs == [] then {}
    else Artifacts(Init(vs), p) + (if Last(vs).port == p then Sorting.Elements(Last(vs).tls) else {})
  }

  function Configs(xs: seq<TlsCandidate>): set<TlsConfig> {
    Sorting.Elements(Sorting.Map(ConfigOf, xs))
  }

  function At<K, V>(m: map<K, seq<V>>, k: K): seq<V> {
    if k in m then m[k] else []
  }

  ghost predicate TlsCandidatesHold(vs: seq<Visit>, m: map<int, seq<TlsCandidate>>) {
    (forall p :: p in m ==> m[p] != []) && forall p :: Configs(At(m, p)) == Artifacts(vs, p)
  }

  /** The TLS policy annotations of the paths of one target, in order. */
  function PolicyNotes<K(==)>(vs: seq<Visit>, key: Visit -> K, k: K, candidate: Ingress -> seq<TlsPolicy.Candidate>): seq<TlsPolicy.Candidate>
    decreases |vs|
  {
    if vs == [] then []
    else PolicyNotes(Init(vs), key, k, candidate) + (if key(Last(vs)) == k then candidate(Last(vs).ing) else [])
  }

  ghost predicate AnnotationsHold<K(!new)>(vs: seq<Visit>, key: Visit -> K, candidate: Ingress -> seq<TlsPolicy.Candidate>,
                                     m: map<K, seq<TlsPolicy.Candidate>>) {
    (forall k :: k in m ==> m[k] != []) && forall k :: At(m, k) == PolicyNotes(vs, key, k, candidate)
  }

  ghost predicate SetsHold(vs: seq<Visit>, b: Builder) {
    b.backendSets == {DEFAULT_BACKEND_SET} + Sets(vs) && b.listeners == Ports(vs)
  }

  ghost predicate MainMapsHold(vs: seq<Visit>, b: Builder) {
    SetsHold(vs, b)
    && ProtocolsHold(vs, b.protocols)
    && DefaultsHold(vs, b.defaults)
    && IdleHolds(vs, b.idle) && IdleRecorded(vs, b.idle)
    && PoliciesHold(vs, b.policies)
    && CheckersHold(vs, b.checkers)
    && SessionsHold(vs, b.sessions)
    && ReachHolds(vs, b.reach)
  }

  ghost predicate TlsMapsHold(vs: seq<Visit>, b: Builder) {
    BackendTlsHolds(vs, b.backendTls)
    && TlsConfigsHold(vs, b.backendTlsConfigs)
    && TlsCandidatesHold(vs, b.tlsCandidates)
    && AnnotationsHold(vs, PortOf, ListenerCandidate, b.listenerPolicies)
    && AnnotationsHold(vs, SetOf, BackendSetCandidate, b.backendSetPolicies)
  }

  /** The builder describes exactly the paths `vs`. */
  ghost predicate Describes(vs: seq<Visit>, b: Builder) {
    Consistent(vs) && MainMapsHold(vs, b) && TlsMapsHold(vs, b)
  }

  // ---- One step --------------------------------------------------------------------------

  ghost predicate FitsProtocol(vs: seq<Visit>, v: Visit) {
    forall u :: u in vs && u.port == v.port ==> Protocol(u.ing) == Protocol(v.ing)
  }

  ghost predicate FitsDefault(vs: seq<Visit>, v: Visit) {
    forall u :: u in vs && u.port == v.port ==> DefaultOf(u) == DefaultOf(v)
  }

  ghost predicate FitsIdle(vs: seq<Visit>, v: Visit) {
    forall u :: u in vs && u.port == v.port && WantsIdle(u) && WantsIdle(v) ==> IdleOf(u.ing) == IdleOf(v.ing)
  }

  ghost predicate FitsPolicy(vs: seq<Visit>, v: Visit) {
    forall u :: u in vs && u.bs == v.bs ==> BackendPolicy(u.ing) == BackendPolicy(v.ing)
  }

  ghost predicate FitsChecker(vs: seq<Visit>, v: Visit) {
    CheckerOf(v).Ok? ==>
      forall u :: u in vs && u.bs == v.bs ==> CheckerOf(v).value == DEFAULT_CHECKER || CheckerOf(u) == CheckerOf(v)
  }

  ghost predicate FitsBackendTls(vs: seq<Visit>, v: Visit) {
    forall u :: u in vs && u.bs == v.bs ==>
      u.ing.notes.backendTls == v.ing.notes.backendTls
      && (v.ing.notes.backendTls && u.tls != [] && v.tls != [] ==> BackendInput(u) == BackendInput(v))
  }

  lemma KeysExtend<K>(vs: seq<Visit>, v: Visit, meets: Visit -> bool, key: Visit -> K)
    ensures Keys(vs + [v], meets, key) == Keys(vs, meets, key) + (if meets(v) then {key(v)} else {})
  {
    assert Init(vs + [v]) == vs && Last(vs + [v]) == v;
  }

  lemma ProtocolStep(vs: seq<Visit>, m: map<int, string>, v: Visit)
    requires ProtocolsHold(vs, m)
    ensures CheckProtocol(m, v).Ok? <==> FitsProtocol(vs, v)
    ensures CheckProtocol(m, v).Ok? ==> ProtocolsHold(vs + [v], CheckProtocol(m, v).value)
  {
    KeysMember(vs, Any, PortOf, v.port);
    KeysExtend(vs, v, Any, PortOf);
  }

  lemma DefaultStep(vs: seq<Visit>, m: map<int, string>, v: Visit)
    requires DefaultsHold(vs, m)
    ensures CheckDefault(m, v).Ok? <==> FitsDefault(vs, v)
    ensures CheckDefault(m, v).Ok? ==> DefaultsHold(vs + [v], CheckDefault(m, v).value)
  {
    KeysMember(vs, Any, PortOf, v.port);
    KeysExtend(vs, v, Any, PortOf);
  }

  lemma IdleStep(vs: seq<Visit>, m: map<int, IdleTimeout>, v: Visit)
    requires IdleHolds(vs, m)
    ensures CheckIdle(m, v).Ok? <==> IdleOf(v.ing).Ok? && FitsIdle(vs, v)
    ensures CheckIdle(m, v).Ok? ==> IdleHolds(vs + [v], CheckIdle(m, v).value)
  {
    KeysMember(vs, WantsIdle, PortOf, v.port);
    KeysExtend(vs, v, WantsIdle, PortOf);
  }

  lemma IdleOrigins(vs: seq<Visit>, m: map<int, IdleTimeout>, v: Visit)
    requires CheckIdle(m, v).Ok? && IdleRecorded(vs, m)
    ensures IdleRecorded(vs + [v], CheckIdle(m, v).value)
  {
    var m' := CheckIdle(m, v).value;
    forall p | p in m' ensures exists u :: u in vs + [v] && Recorded(u, p, m'[p]) {
      if p in m && m'[p] == m[p] {
        var u :| u in vs && Recorded(u, p, m[p]);
        assert u in vs + [v];
      } else {
        assert v in vs + [v] && Recorded(v, p, m'[p]);
      }
    }
  }

  lemma PolicyStep(vs: seq<Visit>, m: map<string, string>, v: Visit)
    requires PoliciesHold(vs, m) && v.bs != DEFAULT_BACKEND_SET
    ensures CheckPolicy(m, v).Ok? <==> FitsPolicy(vs, v)
    ensures CheckPolicy(m, v).Ok? ==> PoliciesHold(vs + [v], CheckPolicy(m, v).value)
  {
    KeysMember(vs, Any, SetOf, v.bs);
    KeysExtend(vs, v, Any, SetOf);
  }

  /** In a consistent list the last checker of a backend set is the default, or everybody's. */
  lemma {:induction false} LastCheckerDecides(vs: seq<Visit>, bs: string)
    requires Consistent(vs)
    ensures LastChecker(vs, bs).Some? <==> exists u :: u in vs && u.bs == bs
    ensures LastChecker(vs, bs).Some? ==> LastChecker(vs, bs).value.Ok?
    ensures LastChecker(vs, bs).Some? ==> exists u :: u in vs && u.bs == bs && LastChecker(vs, bs) == Some(CheckerOf(u))
    ensures forall u :: u in vs && u.bs == bs ==>
      LastChecker(vs, bs) == Some(Ok(DEFAULT_CHECKER)) || LastChecker(vs, bs) == Some(CheckerOf(u))
    decreases |vs|
  {
    if vs != [] {
      assert vs == Init(vs) + [Last(vs)];
      ConsistentExtend(Init(vs), Last(vs));
      LastCheckerDecides(Init(vs), bs);
      assert Last(vs) in vs;
    }
  }

  /** The checkers of one backend set in a consistent list: first equal custom ones, from some path on the
      default ones. */
  lemma {:induction false} CustomThenDefault(vs: seq<Visit>, bs: string) returns (n: nat, custom: Decoded<HealthChecker>)
    requires Consistent(vs)
    ensures n <= |vs|
    ensures forall i :: 0 <= i < n && vs[i].bs == bs ==> CheckerOf(vs[i]) == custom != Ok(DEFAULT_CHECKER)
    ensures forall i :: n <= i < |vs| && vs[i].bs == bs ==> CheckerOf(vs[i]) == Ok(DEFAULT_CHECKER)
    decreases |vs|
  {
    if vs == [] {
      n, custom := 0, Err("");
    } else {
      var v := Last(vs);
      assert vs == Init(vs) + [v];
      ConsistentExtend(Init(vs), v);
      n, custom := CustomThenDefault(Init(vs), bs);
      if v.bs == bs && CheckerOf(v) != Ok(DEFAULT_CHECKER) {
        forall i | 0 <= i < |vs| - 1 && vs[i].bs == bs ensures CheckerOf(vs[i]) == CheckerOf(v) {
          assert vs[i] == Init(vs)[i] && vs[i] in Init(vs);
          assert Compatible(vs[i], v);
        }
        n, custom := |vs|, CheckerOf(v);
      }
    }
  }

  lemma CheckerStep(vs: seq<Visit>, m: map<string, HealthChecker>, v: Visit)
    requires CheckersHold(vs, m) && Consistent(vs) && v.bs != DEFAULT_BACKEND_SET
    ensures CheckHealthChecker(m, v).Ok? <==> CheckerOf(v).Ok? && FitsChecker(vs, v)
    ensures CheckHealthChecker(m, v).Ok? ==> CheckersHold(vs + [v], CheckHealthChecker(m, v).value)
  {
    LastCheckerDecides(vs, v.bs);
    KeysMember(vs, Any, SetOf, v.bs);
    KeysExtend(vs, v, Any, SetOf);
    assert Init(vs + [v]) == vs && Last(vs + [v]) == v;
  }

  lemma {:induction false} NoCookieOutside<C>(vs: seq<Visit>, bs: string, cookie: Visit -> Option<C>)
    requires forall v :: v in vs ==> v.bs != bs
    ensures First(vs, bs, cookie).None?
    decreases |vs|
  {
    if vs != [] {
      NoCookieOutside(Init(vs), bs, cookie);
      assert Last(vs) in vs;
    }
  }

  lemma PreferredExtend(vs: seq<Visit>, v: Visit, bs: string)
    requires SessionOf(v.ing).Ok?
    ensures v.bs != bs ==> Preferred(vs + [v], bs) == Preferred(vs, bs)
    ensures v.bs == bs ==> Preferred(vs + [v], bs) == Reconciled(Preferred(vs, bs), SessionOf(v.ing).value)
    ensures v.bs == bs && bs !in Sets(vs) ==> Preferred(vs + [v], bs) == SessionOf(v.ing).value
  {
    assert Init(vs + [v]) == vs && Last(vs + [v]) == v;
    if v.bs == bs && bs !in Sets(vs) {
      KeysMember(vs, Any, SetOf, bs);
      assert forall u :: u in vs ==> Any(u) && SetOf(u) != bs;
      NoCookieOutside(vs, bs, LbOf);
      NoCookieOutside(vs, bs, AppOf);
    }
  }

  lemma SessionStep(vs: seq<Visit>, m: map<string, Session>, v: Visit)
    requires SessionsHold(vs, m)
    ensures CheckSession(m, v).Ok? <==> SessionOf(v.ing).Ok?
    ensures CheckSession(m, v).Ok? ==> SessionsHold(vs + [v], CheckSession(m, v).value)
  {
    if CheckSession(m, v).Ok? {
      var m' := CheckSession(m, v).value;
      KeysExtend(vs, v, Any, SetOf);
      forall b | b in m' ensures m'[b] == Preferred(vs + [v], b) {
        PreferredExtend(vs, v, b);
      }
    }
  }

  lemma BackendTlsFits(vs: seq<Visit>, m: map<string, BackendTls>, v: Visit)
    requires BackendTlsHolds(vs, m)
    ensures CheckBackendTls(m, v).Ok? <==> FitsBackendTls(vs, v)
  {
    KeysMember(vs, Any, SetOf, v.bs);
    KeysMember(vs, BringsTls, SetOf, v.bs);
  }

  lemma BackendTlsStep(vs: seq<Visit>, m: map<string, BackendTls>, v: Visit)
    requires BackendTlsHolds(vs, m)
    ensures CheckBackendTls(m, v).Ok? <==> FitsBackendTls(vs, v)
    ensures CheckBackendTls(m, v).Ok? ==> BackendTlsHolds(vs + [v], CheckBackendTls(m, v).value)
  {
    BackendTlsFits(vs, m, v);
    KeysMember(vs, Any, SetOf, v.bs);
    KeysMember(vs, BringsTls, SetOf, v.bs);
    KeysExtend(vs, v, Any, SetOf);
    KeysExtend(vs, v, BringsTls, SetOf);
  }

  lemma TlsConfigStep(vs: seq<Visit>, m: map<string, TlsConfig>, v: Visit)
    requires TlsConfigsHold(vs, m) && FitsBackendTls(vs, v)
    ensures TlsConfigsHold(vs + [v], UsedBackendTls(m, v))
  {
    KeysExtend(vs, v, BringsTls, SetOf);
  }

  lemma ReachStep(vs: seq<Visit>, m: map<int, set<string>>, v: Visit)
    requires ReachHolds(vs, m)
    ensures ReachHolds(vs + [v], Reaching(Reaching(m, v.port, v.bs), v.port, DefaultOf(v)))
  {
    KeysExtend(vs, v, Any, PortOf);
    assert Init(vs + [v]) == vs && Last(vs + [v]) == v;
    if v.port !in m {
      ReachOutside(vs, v.port);
    }
  }

  lemma {:induction false} ReachOutside(vs: seq<Visit>, p: int)
    requires p !in Ports(vs)
    ensures Reach(vs, p) == {}
    decreases |vs|
  {
    if vs != [] {
      ReachOutside(Init(vs), p);
    }
  }

  lemma ConfigsConcat(xs: seq<TlsCandidate>, ys: seq<TlsCandidate>)
    ensures Configs(xs + ys) == Configs(xs) + Configs(ys)
  {
    var fx, fy, f := Sorting.Map(ConfigOf, xs), Sorting.Map(ConfigOf, ys), Sorting.Map(ConfigOf, xs + ys);
    assert f == fx + fy;
  }

  lemma TlsCandidateStep(vs: seq<Visit>, m: map<int, seq<TlsCandidate>>, v: Visit, order: nat)
    requires TlsCandidatesHold(vs, m)
    ensures TlsCandidatesHold(vs + [v], Appended(m, v.port, Numbered(v.ing.Key(), order, v.tls)))
  {
    var added := Numbered(v.ing.Key(), order, v.tls);
    var m' := Appended(m, v.port, added);
    assert Init(vs + [v]) == vs && Last(vs + [v]) == v;
    assert Sorting.Map(ConfigOf, added) == v.tls;
    forall p ensures Configs(At(m', p)) == Artifacts(vs + [v], p) {
      assert Configs(At(m, p)) == Artifacts(vs, p);
      if p == v.port {
        ConfigsConcat(At(m, p), added);
        assert At(m', p) == At(m, p) + added;
      }
    }
  }

  lemma AnnotationStep<K(!new)>(vs: seq<Visit>, key: Visit -> K, candidate: Ingress -> seq<TlsPolicy.Candidate>,
                          m: map<K, seq<TlsPolicy.Candidate>>, v: Visit)
    requires AnnotationsHold(vs, key, candidate, m)
    ensures AnnotationsHold(vs + [v], key, candidate, Appended(m, key(v), candidate(v.ing)))
  {
    var m' := Appended(m, key(v), candidate(v.ing));
    assert Init(vs + [v]) == vs && Last(vs + [v]) == v;
    forall k ensures At(m', k) == PolicyNotes(vs + [v], key, k, candidate) {
      assert At(m, k) == PolicyNotes(vs, key, k, candidate);
      assert At(m', k) == At(m, k) + if k == key(v) then candidate(v.ing) else [];
    }
  }

  /** The conditions under which the step for `v` goes through, stated about the earlier paths. */
  ghost predicate Fits(vs: seq<Visit>, v: Visit) {
    Valid(v) && forall u :: u in vs ==> Valid(u) && Compatible(u, v)
  }

  lemma FitsSplits(vs: seq<Visit>, v: Visit)
    requires forall u :: u in vs ==> Valid(u)
    ensures Fits(vs, v) <==>
      Valid(v) && FitsProtocol(vs, v) && FitsDefault(vs, v) && FitsIdle(vs, v)
      && FitsPolicy(vs, v) && FitsChecker(vs, v) && FitsBackendTls(vs, v)
  {
  }

  lemma ChecksSplit(b: Builder, v: Visit)
    ensures VisitStep(b, v).Ok? <==>
      CheckProtocol(b.protocols, v).Ok? && CheckDefault(b.defaults, v).Ok? && CheckIdle(b.idle, v).Ok?
      && CheckHealthChecker(b.checkers, v).Ok? && CheckPolicy(b.policies, v).Ok?
      && CheckSession(b.sessions, v).Ok? && CheckBackendTls(b.backendTls, v).Ok?
  {
  }

  /** The maps after an accepted path, one by one. */
  predicate Stepped(b: Builder, v: Visit, b': Builder) {
    CheckProtocol(b.protocols, v) == Ok(b'.protocols)
    && CheckDefault(b.defaults, v) == Ok(b'.defaults)
    && CheckIdle(b.idle, v) == Ok(b'.idle)
    && CheckHealthChecker(b.checkers, v) == Ok(b'.checkers)
    && CheckPolicy(b.policies, v) == Ok(b'.policies)
    && CheckSession(b.sessions, v) == Ok(b'.sessions)
    && CheckBackendTls(b.backendTls, v) == Ok(b'.backendTls)
    && b'.reach == Reaching(Reaching(b.reach, v.port, v.bs), v.port, DefaultOf(v))
    && b'.backendTlsConfigs == UsedBackendTls(b.backendTlsConfigs, v)
    && b'.tlsCandidates == Appended(b.tlsCandidates, v.port, Numbered(v.ing.Key(), b.order, v.tls))
    && b'.listenerPolicies == Appended(b.listenerPolicies, v.port, ListenerCandidate(v.ing))
    && b'.backendSetPolicies == Appended(b.backendSetPolicies, v.bs, BackendSetCandidate(v.ing))
    && b'.backendSets == b.backendSets + {v.bs} && b'.listeners == b.listeners + {v.port}
  }

  lemma StepMaps(b: Builder, v: Visit)
    requires VisitStep(b, v).Ok?
    ensures Stepped(b, v, VisitStep(b, v).value)
  {
  }

  /** The checks of one path against maps that describe the earlier paths. */
  ghost predicate ChecksFit(vs: seq<Visit>, b: Builder, v: Visit) {
    (CheckProtocol(b.protocols, v).Ok? <==> FitsProtocol(vs, v))
    && (CheckDefault(b.defaults, v).Ok? <==> FitsDefault(vs, v))
    && (CheckIdle(b.idle, v).Ok? <==> IdleOf(v.ing).Ok? && FitsIdle(vs, v))
    && (CheckHealthChecker(b.checkers, v).Ok? <==> CheckerOf(v).Ok? && FitsChecker(vs, v))
    && (CheckPolicy(b.policies, v).Ok? <==> FitsPolicy(vs, v))
    && (CheckSession(b.sessions, v).Ok? <==> SessionOf(v.ing).Ok?)
    && (CheckBackendTls(b.backendTls, v).Ok? <==> FitsBackendTls(vs, v))
  }

  lemma DescribedChecksFit(vs: seq<Visit>, b: Builder, v: Visit)
    requires Describes(vs, b) && v.bs != DEFAULT_BACKEND_SET
    ensures ChecksFit(vs, b, v)
  {
    ProtocolStep(vs, b.protocols, v);
    DefaultStep(vs, b.defaults, v);
    IdleStep(vs, b.idle, v);
    CheckerStep(vs, b.checkers, v);
    PolicyStep(vs, b.policies, v);
    SessionStep(vs, b.sessions, v);
    BackendTlsStep(vs, b.backendTls, v);
  }

  lemma ChecksFitAccepts(vs: seq<Visit>, b: Builder, v: Visit)
    requires ChecksFit(vs, b, v) && v.bs != DEFAULT_BACKEND_SET
    requires forall u :: u in vs ==> Valid(u)
    ensures VisitStep(b, v).Ok? <==> Fits(vs, v)
  {
    ChecksSplit(b, v);
    FitsSplits(vs, v);
  }

  lemma StepKeepsMain(vs: seq<Visit>, b: Builder, v: Visit, b': Builder)
    requires Consistent(vs) && MainMapsHold(vs, b) && v.bs != DEFAULT_BACKEND_SET && Stepped(b, v, b')
    ensures MainMapsHold(vs + [v], b')
  {
    ProtocolStep(vs, b.protocols, v);
    DefaultStep(vs, b.defaults, v);
    IdleStep(vs, b.idle, v);
    IdleOrigins(vs, b.idle, v);
    PolicyStep(vs, b.policies, v);
    CheckerStep(vs, b.checkers, v);
    SessionStep(vs, b.sessions, v);
    ReachStep(vs, b.reach, v);
    KeysExtend(vs, v, Any, SetOf);
    KeysExtend(vs, v, Any, PortOf);
  }

  lemma StepKeepsTls(vs: seq<Visit>, b: Builder, v: Visit, b': Builder)
    requires TlsMapsHold(vs, b) && Stepped(b, v, b') && FitsBackendTls(vs, v)
    ensures TlsMapsHold(vs + [v], b')
  {
    BackendTlsStep(vs, b.backendTls, v);
    TlsConfigStep(vs, b.backendTlsConfigs, v);
    TlsCandidateStep(vs, b.tlsCandidates, v, b.order);
    AnnotationStep(vs, PortOf, ListenerCandidate, b.listenerPolicies, v);
    AnnotationStep(vs, SetOf, BackendSetCandidate, b.backendSetPolicies, v);
  }

  /** A step is refused exactly when the path is invalid or conflicts with an earlier one;
      otherwise the maps describe one path more. */
  lemma StepDescribes(vs: seq<Visit>, b: Builder, v: Visit)
    requires Describes(vs, b) && v.bs != DEFAULT_BACKEND_SET
    ensures VisitStep(b, v).Ok? <==> Consistent(vs + [v])
    ensures VisitStep(b, v).Ok? ==> Describes(vs + [v], VisitStep(b, v).value)
  {
    DescribedChecksFit(vs, b, v);
    ChecksFitAccepts(vs, b, v);
    ConsistentExtend(vs, v);
    if VisitStep(b, v).Ok? {
      StepMaps(b, v);
      FitsSplits(vs, v);
      StepKeepsMain(vs, b, v, VisitStep(b, v).value);
      StepKeepsTls(vs, b, v, VisitStep(b, v).value);
    }
  }
}
