/** Bringing one listener or one backend set to its desired state. */
module Reconcile {
  import opened Wrappers
  import opened Text
  import opened Ingresses
  import opened LoadBalancers
  import opened TlsPolicy
  import Dedupe
  import Sorting

  // ---- Certificates of a listener --------------------------------------------------------

  /** The certificate a secret was imported as; "" when there is none. */
  type CertificateOf = TlsConfig -> string

  function ResolvedId(certificate: CertificateOf, config: TlsConfig): string {
    if config.kind == CERTIFICATE then config.artifact
    else if config.kind == SECRET && config.artifact != "" then certificate(config)
    else ""
  }

  function ResolvedIds(certificate: CertificateOf, configs: seq<TlsConfig>): seq<string> {
    if configs == [] then [] else [ResolvedId(certificate, configs[0])] + ResolvedIds(certificate, configs[1..])
  }

  function Calculated(ids: seq<string>): Option<Ssl> {
    if ids == [] then None else Some(Ssl(ids, None, []))
  }

  /** The TLS configuration of a listener before its policy is resolved: each certificate once, in
      order of first appearance. */
  function ListenerSsl(certificate: CertificateOf, configs: seq<TlsConfig>): Option<Ssl> {
    Calculated(Dedupe.FirstOccurrences(ResolvedIds(certificate, configs), {""}))
  }

  method GetSslConfigForListener(certificate: CertificateOf, configs: seq<TlsConfig>) returns (r: Option<Ssl>)
    ensures r == ListenerSsl(certificate, configs)
  {
    if |configs| == 0 {
      return None;
    }
    var ids: seq<string> := [];
    var seen: set<string> := {};
    assert configs[0..] == configs && seen + {""} == {""};
    for i := 0 to |configs|
      invariant Dedupe.FirstOccurrences(ResolvedIds(certificate, configs), {""})
             == ids + Dedupe.FirstOccurrences(ResolvedIds(certificate, configs[i..]), seen + {""})
    {
      assert configs[i..][0] == configs[i] && configs[i..][1..] == configs[i + 1..];
      ghost var all := ResolvedIds(certificate, configs[i..]);
      var id := "";
      if configs[i].kind == CERTIFICATE {
        id := configs[i].artifact;
      } else if configs[i].kind == SECRET {
        if configs[i].artifact == "" {
          assert all[1..] == ResolvedIds(certificate, configs[i + 1..]);
          continue;
        }
        id := certificate(configs[i]);
      } else {
        assert all[1..] == ResolvedIds(certificate, configs[i + 1..]);
        continue;
      }
      assert all[0] == id && all[1..] == ResolvedIds(certificate, configs[i + 1..]);
      if id == "" || id in seen {
        continue;
      }
      assert seen + {""} + {id} == (seen + {id}) + {""};
      seen := seen + {id};
      ids := ids + [id];
    }
    assert ResolvedIds(certificate, configs[|configs|..]) == [];
    assert ids == Dedupe.FirstOccurrences(ResolvedIds(certificate, configs), {""});
    return Calculated(ids);
  }

  // ---- TLS policy of a listener or backend set --------------------------------------------

  predicate ProtocolsEqual(a: seq<string>, b: seq<string>) {
    |a| == |b| && Sorting.Sort(Lt, a) == Sorting.Sort(Lt, b)
  }

  /** Comparing sorted copies compares protocol lists up to order. */
  lemma ProtocolsEqualIff(a: seq<string>, b: seq<string>)
    ensures ProtocolsEqual(a, b) <==> multiset(a) == multiset(b)
  {
    Sorting.SortPermutes(Lt, a);
    Sorting.SortPermutes(Lt, b);
    if multiset(a) == multiset(b) {
      var dom := Sorting.Elements(a);
      Sorting.SameElements(a, b);
      Sorting.SameElements(Sorting.Sort(Lt, a), a);
      Sorting.StringOrder(dom);
      Sorting.SortSorts(Lt, a, dom);
      Sorting.SortSorts(Lt, b, dom);
      Sorting.SortedUnique(Lt, Sorting.Sort(Lt, a), Sorting.Sort(Lt, b), dom);
    }
  }

  function Applied(ssl: Ssl, policy: Policy): Ssl {
    Ssl(ssl.ids, Some(policy.cipher), policy.protocols)
  }

  datatype Resolution = Resolution(ssl: Option<Ssl>, policy: Option<Policy>)

  /** An explicit policy wins; a new configuration gets the locked default; otherwise the policy in
      place is kept. */
  function Resolved(resource: Resource, ssl: Option<Ssl>, explicit: Option<ExplicitPolicy>, create: bool, current: Option<Ssl>)
    : Result<Resolution, UpdateError>
  {
    if ssl.None? then Ok(Resolution(None, None))
    else if explicit.Some? then
      match Overlay(resource, explicit.value)
      case Err(e) => Err(UpdateError.Resolve(e))
      case Ok(p) => Ok(Resolution(Some(Applied(ssl.value, p)), Some(p)))
    else if create then
      var p := LockedDefault(resource);
      Ok(Resolution(Some(Applied(ssl.value, p)), Some(p)))
    else
      var kept :- PreservedPolicy(ssl, current);
      Ok(Resolution(kept, None))
  }

  predicate PolicyMatches(current: Option<Ssl>, policy: Policy) {
    current.Some? && current.value.cipher == Some(policy.cipher) && ProtocolsEqual(current.value.protocols, policy.protocols)
  }

  /** A listener that changes protocol family takes the new family's default if it still carries
      the old one's. */
  predicate TransitionToDefault(currentProtocol: string, protocol: string, current: Option<Ssl>) {
    if protocol == "" || currentProtocol == protocol then false
    else if Http2Family(protocol) then PolicyMatches(current, LockedDefault(ListenerResource(false)))
    else if protocol == HTTP && Http2Family(currentProtocol) then PolicyMatches(current, LockedDefault(ListenerResource(true)))
    else false
  }

  predicate PolicyDiffers(calculated: Ssl, current: Ssl) {
    current.cipher != calculated.cipher || !ProtocolsEqual(current.protocols, calculated.protocols)
  }

  predicate HasArtifacts(current: Option<Ssl>) {
    current.Some? && current.value.ids != []
  }

  predicate ListenerSslNeedsUpdate(calculated: Option<Ssl>, current: Option<Ssl>, comparePolicy: bool) {
    if calculated.None? then HasArtifacts(current)
    else current.None? || current.value.ids != calculated.value.ids
         || (comparePolicy && PolicyDiffers(calculated.value, current.value))
  }

  predicate BackendSetSslNeedsUpdate(calculated: Option<Ssl>, current: Option<Ssl>, comparePolicy: bool) {
    if calculated.None? then current.Some?
    else current.None? || current.value.ids != calculated.value.ids
         || (comparePolicy && PolicyDiffers(calculated.value, current.value))
  }

  // ---- Listeners -------------------------------------------------------------------------

  /** What the state store wants of a listener. */
  datatype ListenerGoal = ListenerGoal(
    port: int, ssl: Option<Ssl>, explicit: Option<ExplicitPolicy>, protocol: string, defaultBs: string, idle: Option<int>)

  function ConnectionFor(idle: Option<int>, current: Option<Connection>): Option<Connection> {
    if idle.None? then None
    else if current.None? then Some(Connection(idle, None, []))
    else Some(Connection(idle, current.value.proxyVersion, current.value.proxyOptions))
  }

  function ResolvedFor(goal: ListenerGoal, l: Listener): Result<Resolution, UpdateError> {
    Resolved(ListenerResource(Http2Family(goal.protocol)), goal.ssl, goal.explicit,
             l.ssl.None? || TransitionToDefault(l.protocol, goal.protocol, l.ssl), l.ssl)
  }

  predicate ListenerNeedsUpdate(goal: ListenerGoal, r: Resolution, l: Listener) {
    ListenerSslNeedsUpdate(r.ssl, l.ssl, r.policy.Some?)
    || (goal.protocol != "" && goal.protocol != l.protocol)
    || goal.defaultBs != l.defaultBs
    || (goal.idle.Some? && (l.connection.None? || l.connection.value.idle != goal.idle))
  }

  /** The update a listener needs, if any. */
  function ListenerSync(goal: ListenerGoal, l: Listener): Result<Option<Listener>, UpdateError> {
    var r :- ResolvedFor(goal, l);
    if !ListenerNeedsUpdate(goal, r, l) then Ok(None)
    else
      var connection := ConnectionFor(goal.idle, l.connection);
      var sent :-
        if r.ssl.None? && HasArtifacts(l.ssl) then ClearedDetails(l, l.policy, connection, goal.protocol, goal.defaultBs)
        else ListenerDetails(l, l.policy, r.ssl, connection, goal.protocol, goal.defaultBs, true);
      Ok(Some(sent))
  }

  /** The listener as it is created. */
  function ListenerCreate(goal: ListenerGoal): Result<Listener, UpdateError> {
    var r :- Resolved(ListenerResource(Http2Family(goal.protocol)), goal.ssl, goal.explicit, true, None);
    if TlsIsRequired(goal.protocol) && r.ssl.None? then Err(TlsRequired(goal.protocol))
    else Ok(Listener(goal.port, goal.protocol, goal.defaultBs, r.ssl, ConnectionFor(goal.idle, None), None))
  }

  /** A listener that meets its goal: no update is called for. */
  predicate ListenerSynced(goal: ListenerGoal, l: Listener) {
    ListenerSync(goal, l) == Ok(None)
  }

  /** A listener that has been updated needs no further update, whichever way its TLS policy was
      chosen: explicit, default, kept, taken over in a protocol transition, or cleared. The one
      exception is a goal without a default backend set. */
  lemma ListenerFixpointIff(goal: ListenerGoal, l: Listener)
    requires ListenerSync(goal, l).Ok? && ListenerSync(goal, l).value.Some?
    ensures ListenerSynced(goal, ListenerSync(goal, l).value.value) <==> goal.defaultBs != "" || l.defaultBs == ""
  {
  }

  lemma CreatedListenerIsSynced(goal: ListenerGoal)
    requires ListenerCreate(goal).Ok?
    ensures ListenerSynced(goal, ListenerCreate(goal).value)
  {
  }

  predicate SameProxy(before: Option<Connection>, after: Option<Connection>) {
    before.Some? ==>
      after.Some? && after.value.proxyVersion == before.value.proxyVersion && after.value.proxyOptions == before.value.proxyOptions
  }

  /** Updates never touch the port and the routing policy, nor the proxy protocol settings. */
  lemma ListenerSyncFrame(goal: ListenerGoal, l: Listener)
    requires ListenerSync(goal, l).Ok? && ListenerSync(goal, l).value.Some?
    ensures var l' := ListenerSync(goal, l).value.value;
      l'.port == l.port && l'.policy == l.policy
      && SameProxy(l.connection, l'.connection)
  {
  }

  /** What meeting the goal amounts to. */
  ghost predicate ListenerMeets(goal: ListenerGoal, l: Listener) {
    (goal.protocol != "" ==> l.protocol == goal.protocol)
    && l.defaultBs == goal.defaultBs
    && (goal.idle.Some? ==> l.connection.Some? && l.connection.value.idle == goal.idle)
    && (goal.ssl.None? ==> !HasArtifacts(l.ssl))
    && (goal.ssl.Some? ==> l.ssl.Some? && l.ssl.value.ids == goal.ssl.value.ids)
    && (goal.ssl.Some? && goal.explicit.Some? ==>
          var p := Overlay(ListenerResource(Http2Family(goal.protocol)), goal.explicit.value);
          p.Ok? && l.ssl.value.cipher == Some(p.value.cipher) && multiset(l.ssl.value.protocols) == multiset(p.value.protocols))
  }

  /** A listener needs no update exactly when it meets the goal, and, where its policy is merely
      kept, that policy can be sent back. */
  lemma ListenerSyncedIff(goal: ListenerGoal, l: Listener)
    requires goal.ssl.Some? ==> goal.ssl.value.cipher.None? && goal.ssl.value.protocols == []
    ensures ListenerSynced(goal, l) <==>
      ListenerMeets(goal, l) && (goal.ssl.Some? && goal.explicit.None? ==> !Customized(l.ssl))
  {
    if goal.ssl.Some? && l.ssl.Some? && goal.explicit.Some? && Overlay(ListenerResource(Http2Family(goal.protocol)), goal.explicit.value).Ok? {
      ProtocolsEqualIff(l.ssl.value.protocols, Overlay(ListenerResource(Http2Family(goal.protocol)), goal.explicit.value).value.protocols);
    }
  }

  // ---- Backend sets ----------------------------------------------------------------------

  datatype BackendSetGoal = BackendSetGoal(
    ssl: Option<Ssl>, explicit: Option<ExplicitPolicy>, checker: HealthChecker, policy: string,
    app: Option<string>, lb: Option<LbCookie>)

  predicate SameTcpCheck(a: HealthChecker, b: HealthChecker) {
    a.port == b.port && a.intervalMillis == b.intervalMillis && a.timeoutMillis == b.timeoutMillis && a.retries == b.retries
  }

  /** Checkers of any protocol but TCP and HTTP always count as different. */
  predicate SameChecker(desired: HealthChecker, current: HealthChecker) {
    desired.protocol == current.protocol
    && (if current.protocol == TCP then SameTcpCheck(desired, current)
        else current.protocol == HTTP && SameTcpCheck(desired, current)
             && desired.urlPath == current.urlPath && desired.returnCode == current.returnCode
             && desired.responseRegex == current.responseRegex && desired.plainText == current.plainText)
  }

  function ResolvedSet(goal: BackendSetGoal, bs: BackendSet): Result<Resolution, UpdateError> {
    Resolved(BackendSetResource, goal.ssl, goal.explicit, bs.ssl.None?, bs.ssl)
  }

  predicate BackendSetNeedsUpdate(goal: BackendSetGoal, r: Resolution, bs: BackendSet) {
    BackendSetSslNeedsUpdate(r.ssl, bs.ssl, r.policy.Some?)
    || !SameChecker(goal.checker, bs.checker)
    || (goal.policy != "" && goal.policy != bs.policy)
    || bs.app != goal.app || bs.lb != goal.lb
  }

  /** The update a backend set needs, if any, and whether it is one of TLS settings. */
  function BackendSetSync(goal: BackendSetGoal, bs: BackendSet): Result<Option<(BackendSet, bool)>, UpdateError> {
    var r :- ResolvedSet(goal, bs);
    if !BackendSetNeedsUpdate(goal, r, bs) then Ok(None)
    else
      var sent :- WithDetails(bs, BackendSetDetails(goal.policy, goal.checker, r.ssl, goal.app, goal.lb));
      Ok(Some((sent, BackendSetSslNeedsUpdate(r.ssl, bs.ssl, r.policy.Some?))))
  }

  function BackendSetCreate(goal: BackendSetGoal, backends: seq<Backend>): Result<BackendSet, UpdateError> {
    var r :- Resolved(BackendSetResource, goal.ssl, goal.explicit, true, None);
    Ok(BackendSet(goal.policy, goal.checker, r.ssl, backends, goal.app, goal.lb))
  }

  predicate BackendSetSynced(goal: BackendSetGoal, bs: BackendSet) {
    BackendSetSync(goal, bs) == Ok(None)
  }

  predicate Checkable(checker: HealthChecker) {
    checker.protocol == TCP || checker.protocol == HTTP
  }

  /** A backend set that has been updated needs no further update exactly when its health checker is
      of a protocol the comparison knows. */
  lemma BackendSetFixpointIff(goal: BackendSetGoal, bs: BackendSet)
    requires BackendSetSync(goal, bs).Ok? && BackendSetSync(goal, bs).value.Some?
    requires goal.ssl.Some? && goal.explicit.Some? ==> Requestable(goal.explicit.value)
    ensures BackendSetSynced(goal, BackendSetSync(goal, bs).value.value.0) <==> Checkable(goal.checker)
  {
    if goal.ssl.Some? && goal.explicit.Some? {
      RequestableResolves(BackendSetResource, goal.explicit.value);
    }
  }

  lemma CreatedBackendSetIsSynced(goal: BackendSetGoal, backends: seq<Backend>)
    requires BackendSetCreate(goal, backends).Ok? && Checkable(goal.checker)
    ensures BackendSetSynced(goal, BackendSetCreate(goal, backends).value)
  {
  }

  lemma BackendSetSyncKeepsBackends(goal: BackendSetGoal, bs: BackendSet)
    requires BackendSetSync(goal, bs).Ok? && BackendSetSync(goal, bs).value.Some?
    ensures BackendSetSync(goal, bs).value.value.0.backends == bs.backends
  {
  }

  /** The backend set meets the TLS part of its goal. */
  ghost predicate TlsInPlace(goal: BackendSetGoal, ssl: Option<Ssl>) {
    if goal.ssl.None? then ssl.None?
    else ssl.Some? && ssl.value.ids == goal.ssl.value.ids
         && (goal.explicit.Some? ==> PolicyInPlace(goal.explicit.value, ssl.value))
  }

  ghost predicate PolicyInPlace(explicit: ExplicitPolicy, ssl: Ssl) {
    var p := Overlay(BackendSetResource, explicit);
    p.Ok? && ssl.cipher == Some(p.value.cipher) && multiset(ssl.protocols) == multiset(p.value.protocols)
  }

  /** A backend set needs no update exactly when its TLS settings are in place, its checker, policy and
      session persistence are the desired ones, and, where its TLS policy is merely kept, that policy
      can be sent back. */
  lemma BackendSetSyncedIff(goal: BackendSetGoal, bs: BackendSet)
    requires goal.ssl.Some? ==> goal.ssl.value.cipher.None? && goal.ssl.value.protocols == []
    ensures BackendSetSynced(goal, bs) <==>
      TlsInPlace(goal, bs.ssl) && SameChecker(goal.checker, bs.checker) && (goal.policy != "" ==> bs.policy == goal.policy)
      && bs.app == goal.app && bs.lb == goal.lb
      && (goal.ssl.Some? && goal.explicit.None? ==> !Customized(bs.ssl))
  {
    if goal.ssl.Some? && bs.ssl.Some? && goal.explicit.Some? && Overlay(BackendSetResource, goal.explicit.value).Ok? {
      ProtocolsEqualIff(bs.ssl.value.protocols, Overlay(BackendSetResource, goal.explicit.value).value.protocols);
    }
  }

  /** Where the TLS policy of a listener with certificates comes from: the explicit one, or the locked
      default when TLS is new or the protocol family changes away from its own default, or else the
      policy it had. */
  lemma ListenerPolicyAfterSync(goal: ListenerGoal, l: Listener)
    requires goal.ssl.Some? && goal.ssl.value.cipher.None? && goal.ssl.value.protocols == []
    requires ListenerSync(goal, l).Ok?
    ensures var l' := if ListenerSync(goal, l).value.Some? then ListenerSync(goal, l).value.value else l;
      var family := ListenerResource(Http2Family(goal.protocol));
      l'.ssl.Some? && l'.ssl.value.ids == goal.ssl.value.ids
      && (goal.explicit.Some? ==>
            Overlay(family, goal.explicit.value).Ok?
            && l'.ssl.value.cipher == Some(Overlay(family, goal.explicit.value).value.cipher)
            && multiset(l'.ssl.value.protocols) == multiset(Overlay(family, goal.explicit.value).value.protocols))
      && (goal.explicit.None? && (l.ssl.None? || TransitionToDefault(l.protocol, goal.protocol, l.ssl)) ==>
            l'.ssl.value == Applied(goal.ssl.value, LockedDefault(family)))
      && (goal.explicit.None? && l.ssl.Some? && !TransitionToDefault(l.protocol, goal.protocol, l.ssl) ==>
            l'.ssl.value == l.ssl.value.(ids := goal.ssl.value.ids))
  {
    if goal.explicit.Some? && l.ssl.Some? && Overlay(ListenerResource(Http2Family(goal.protocol)), goal.explicit.value).Ok? {
      ProtocolsEqualIff(l.ssl.value.protocols, Overlay(ListenerResource(Http2Family(goal.protocol)), goal.explicit.value).value.protocols);
    }
  }

  /** A listener keeps the default policy of its family when it changes family, in both directions. */
  lemma TransitionFollowsTheDefault(l: Listener, goal: ListenerGoal, from: Resource)
    requires goal.ssl.Some? && goal.explicit.None? && goal.protocol != l.protocol
    requires from == ListenerResource(Http2Family(l.protocol)) && (Http2Family(goal.protocol) || goal.protocol == HTTP)
    requires Http2Family(goal.protocol) != Http2Family(l.protocol)
    requires l.ssl.Some? && l.ssl.value.cipher == Some(LockedDefault(from).cipher)
    requires multiset(l.ssl.value.protocols) == multiset(LockedDefault(from).protocols)
    ensures ResolvedFor(goal, l).Ok?
    ensures ResolvedFor(goal, l).value.ssl == Some(Applied(goal.ssl.value, LockedDefault(ListenerResource(Http2Family(goal.protocol)))))
  {
    ProtocolsEqualIff(l.ssl.value.protocols, LockedDefault(from).protocols);
  }
}
