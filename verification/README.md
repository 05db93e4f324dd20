# Verified model of the OCI native ingress controller

The controller compiles the Ingress objects of an ingress class into a desired load balancer and drives
the real load balancer to it. This project models that reconciler in Dafny and proves what it is for:
the compiler means what its annotations say, the two compilers (listeners and routing rules) agree,
concurrent controllers do not overwrite each other, requests are sent in a safe order even when they
fail, and repeated reconciliation converges to exactly the desired load balancer.

`dafny verify dfyconfig.toml` checks everything.

## Layout

| files | part of the program |
|---|---|
| `Basics.dfy` | strings, sorting, de-duplication and loops that stop at the first error |
| `TlsPolicy.dfy` | TLS policy annotations: parsing, merging, resolution |
| `Ingresses.dfy`, `StateBuilder.dfy`, `StateStore.dfy` | ingress values, the state builder as a fold, and as the loops of the store |
| `StateFacts.dfy`, `StateTheorems.dfy`, `StateErrors.dfy` | the builder against a specification about pairs of paths; the causes of its errors; independence of order |
| `RoutingRules.dfy`, `RoutingAgreement.dfy` | the routing rule compiler, and its agreement with the state builder |
| `LoadBalancers.dfy`, `Reconcile.dfy`, `Interleaving.dfy` | update bodies, per-object reconciliation, interleavings of controllers |
| `DesiredState.dfy`, `Obstacles.dfy` | the desired load balancer, and what can keep an object from getting there |
| `LoadBalancerClient.dfy`, `IngressController.dfy`, `RoutingController.dfy` | one run of each controller, against a server that may refuse anything or only what would break a reference |
| `Convergence.dfy`, `ClassConvergence.dfy` | repeated runs and passes over a class |
| `FoldedMaps.dfy`, `TagRules.dfy`, `Tags.dfy` | defined tags |
| `CertificateCleanup.dfy`, `CertificateTask.dfy`, `CertificatePruning.dfy` | certificate lifecycle: the cleanup protocol as a state machine, its loops, version pruning |

Loops and state of the program are methods and classes; each is proved equal to a function or relation,
and the properties are proved of those.

## Results where the program does less than one might expect

- The path comparison is not an order for every set of hosts. `RoutingRules.LessOrdersIff` gives the exact
  condition, `RoutingRules.MixedCaseIsNotAnOrder` a cycle; lower-case hosts are fine.
- A more specific wildcard host is not always tried before a wider one (`RoutingRules.WiderWildcardCanWin`):
  `RoutingRules.NarrowWildcardFirstIff` says exactly when it is.
- The two updates of a backend set do not always commute: `LoadBalancers.UpdatesCommuteIff`.
- A cached load balancer can be replaced by an older one (`Interleaving.CacheCanGoBack`), exactly at the
  stores described by `Interleaving.GoesBackIff`.
- A class does not converge if something is blocked: a listener that must speak TLS and has no certificate,
  one whose certificates would have to be cleared, or a TLS policy to be kept that is the read-only one.
  `ClassConvergence.ConvergeClass` shows that these are the only obstacles.
- The tag annotation can be patched a second time (`Tags.VariableIsPatchedAgain`). It is stable for every
  server exactly under the condition of `Tags.AnnotationStaysForEveryServerIff`.
- Cleanup cannot notice a restoration between listing and deletion (`CertificateCleanup.RestoredTooLate`):
  `CertificateCleanup.DeletedUnrestoredIff` says exactly which deletions are unaffected.
- Marking does not refresh the certificate cache, so that a use within the lifetime of a cached entry
  leaves the mark: `CertificateTask.Cleaner.EnsureCertificate`, `CertificateTask.MarkBehindTheCache`.
- Pruning is not idempotent: `CertificatePruning.IdempotentIff`.
- With a protocol outside HTTP, HTTP2, GRPC and TCP the two compilers can disagree about a port:
  `RoutingAgreement.PortsAgreeIff`.

## Hypotheses

- Ingresses have unique names (Kubernetes guarantees this), and unique namespace/name keys.
- Backend set names are an uninterpreted function of namespace, service and port. Where rule names matter
  the backend sets of one listener are assumed to name one service each.
- Certificates and certificate authorities are stable functions of the TLS artifact.
- Health checkers decode to TCP or HTTP ones, and the protocol and policy annotations are not empty
  strings (`DesiredState.GoodAnnotations`).
- Solo runs start from an empty or current cache, and may fail at any request.
- Convergence: the server answers every read and refuses a request only if it would leave a reference to
  something missing (`Client.dependable`); listeners are named after their ports, carry no policy or the
  existing one of their own name, and have no customized suite without a certificate
  (`IngressController.Ready`). A new load balancer is like that, and both controllers keep it so, however
  their runs end (`EvolutionKeepsReady`, `RoutingKeepsObstacles`).
- Tags: no two namespaces or keys that differ in case only, no empty namespaces; the server may resolve
  values with tag variables in any way.
- Cleanup: passes do not overlap and list a resource once; no resource appears with a readable mark.

## Model

| member | source | states |
|---|---|---|
| `TlsPolicy.NormalizeProtocols` | pkg/tlspolicy/tls_policy.go:214-241 | the loop over a protocol list equals its specification: first blank or unknown entry is the error, else the canonical list |
| `TlsPolicy.NormalizedAccepts` | pkg/tlspolicy/tls_policy.go:214-241 | a protocol list is accepted exactly when it is non-empty and names only TLS 1.2 and 1.3; the result names the same protocols |
| `TlsPolicy.NormalizedComparesSets` | pkg/tlspolicy/tls_policy.go:227-240 | two accepted lists normalize alike exactly when they are equal as sets |
| `TlsPolicy.ParseExplicitTlsPolicy` | pkg/tlspolicy/tls_policy.go:77-155 | the field loop equals its specification, errors and their order included |
| `TlsPolicy.ParseAccepts` | pkg/tlspolicy/tls_policy.go:77-155 | an annotation is accepted exactly when all its fields are acceptable and have a common upper bound; the policy read is the least one |
| `TlsPolicy.MergeExplicitTlsPolicyCandidates` | pkg/state/ingressstate.go:771-828 | the sorted merge loop with its owners and its set of seen candidates equals its specification |
| `TlsPolicy.MergeIgnoresOrder` | pkg/state/ingressstate.go:771-784 | the merge result, conflict with its owners and values included, does not depend on the order of discovery |
| `TlsPolicy.MergeIsJoin` | pkg/state/ingressstate.go:771-828 | merging computes the least upper bound of the parsed candidates, and nothing without candidates |
| `TlsPolicy.MergeSucceedsIff` | pkg/state/ingressstate.go:771-828 | merging succeeds exactly when all candidates parse and no two disagree on a field |
| `TlsPolicy.MergedIsRequestable` | pkg/state/ingressstate.go:771-828 | a merged policy never names the read-only cipher suite and has canonical protocols |
| `TlsPolicy.RequestableResolves` | pkg/controllers/ingress/tls_policy.go:147-187 | a requestable policy always resolves, and the resolved policy keeps everything it states |
| `TlsPolicy.MergedPoliciesResolve` | pkg/controllers/ingress/tls_policy.go:147-192 | the error for protocols without a known suite cannot be reached by a merged policy |
| `Ingresses.GetListenerTlsCertificateOcids` | pkg/util/util.go:372-389 | the certificate id loop keeps first occurrences and drops blanks |
| `Ingresses.ListenerNameInjective` | pkg/util/util.go:683-685 | listener names identify ports |
| `Ingresses.GeneratedIsNotDefault` | pkg/util/util.go:673-681 | no generated backend set name is the shared default one |
| `Dedupe.FirstOccurrencesElements` | pkg/state/ingressstate.go:846-857 | the seen-set loops lose nothing, add nothing and leave no repeats |
| `StateStore.CollectTlsHosts` | pkg/state/ingressstate.go:207-220 | the loops over spec.tls collect the hosts, and for each host the secret of the last entry that names it |
| `StateStore.RecordPath` | pkg/state/ingressstate.go:250-291 | one path: refused exactly when it is invalid or conflicts with an earlier one, and otherwise the maps describe one path more; errors in the order of the checks |
| `StateStore.AddIngress` | pkg/state/ingressstate.go:187-306 | one ingress: owner of the default health check, rules, paths, and its own recorded state |
| `StateStore.BuildListenerTlsConfigMap` | pkg/state/ingressstate.go:688-718 | the certificates of every listener, sorted and without repeats |
| `StateStore.MergeSortedTargets` | pkg/state/ingressstate.go:720-769 | targets are merged in sorted order, inactive ones skipped, the first failure reported |
| `StateStore.StateStore.BuildState` | pkg/state/ingressstate.go:142-340 | the whole computation equals the specification function; a failure leaves the class state alone, and per-ingress states only grow |
| `StateStore.StateStore.constructor` | pkg/state/ingressstate.go:129-140 | a new store has recorded no ingress |
| `StateFacts.StepDescribes` | pkg/state/ingressstate.go:342-558 | one path is refused exactly when it is invalid or conflicts with an earlier one; otherwise all maps describe one path more |
| `StateFacts.LastCheckerDecides` | pkg/state/ingressstate.go:419-432 | the last path of a backend set decides its health checker, which is the default one or everybody's |
| `StateFacts.CustomThenDefault` | pkg/state/ingressstate.go:419-432 | the accepted health checkers of a backend set are equal custom ones followed by default ones |
| `StateFacts.PreferredExtend` | pkg/state/ingressstate.go:445-503 | the reconciled session persistence is the first load balancer cookie, else the first application cookie, else none |
| `StateFacts.BackendTlsStep` | pkg/state/ingressstate.go:386-417 | backend TLS conflicts are reported exactly when two paths of the backend set disagree |
| `StateTheorems.FoldPathsDescribes` | pkg/state/ingressstate.go:222-297 | the paths of one ingress are accepted exactly when they resolve and fit with all earlier ones |
| `StateTheorems.MergeTargetsIff` | pkg/state/ingressstate.go:720-769 | policy maps hold the merge of every active target, and building them fails exactly when some active target does not merge |
| `StateTheorems.ListenerTlsDescribes` | pkg/state/ingressstate.go:688-718 | a listener has exactly the TLS artifacts its paths bring, each once |
| `StateTheorems.BuildRefinesSpecification` | pkg/state/ingressstate.go:142-340 | the builder succeeds exactly on acceptable classes, stated about pairs of paths; then every map holds what the paths call for and every ingress its own part |
| `StateErrors.ErrorsHaveCauses` | pkg/state/ingressstate.go:142-340 | whenever the builder fails, its error has a cause: a path that does not resolve, a faulty annotation, two paths of the named target that differ in what is complained of, two owners of the default health check, or TLS policy annotations of an active target that do not merge |
| `StateTheorems.BuildIgnoresOrder` | pkg/state/ingressstate.go:148-164 | the outcome, error included, is the same for every order of the ingress list |
| `RoutingRules.LessOrdersIff` | pkg/controllers/routingpolicy/util.go:38-64 | the comparison is a strict weak order on all paths over a set of hosts, nil entries included, exactly when no host lies between two that differ in case only |
| `RoutingRules.MixedCaseIsNotAnOrder` | pkg/controllers/routingpolicy/util.go:53-59 | three mixed-case hosts that the comparison puts in a cycle with a tie |
| `RoutingRules.LowerCaseIsConvex` | pkg/controllers/routingpolicy/util.go:53-59 | lower-case hosts meet the condition |
| `RoutingRules.ConditionMeans` | pkg/controllers/routingpolicy/util.go:68-92 | the generated condition holds for exactly the requests the path is for |
| `RoutingRules.BuildRoutingRules` | pkg/controllers/routingpolicy/routingpolicy.go:241-264 | the rules are those of a sorted permutation of the paths, one for each usable path, and every request goes to the backend set of a best matching path |
| `RoutingRules.RulesIgnoreOrder` | pkg/controllers/routingpolicy/routingpolicy.go:241-264 | the rules depend only on the multiset of paths, whatever the sorting algorithm does with ties |
| `RoutingRules.FirstMatchIsBest` | pkg/controllers/routingpolicy/util.go:38-92 | in every sorted arrangement the first matching path is a best one: longest path, exact before prefix, precise host before wildcard before none |
| `RoutingRules.RequestsReachTheBestPath` | pkg/controllers/routingpolicy/routingpolicy.go:241-264 | a request is routed to the backend set of a best matching path, and to none exactly when no path matches |
| `RoutingRules.WiderWildcardCanWin` | pkg/controllers/routingpolicy/util.go:53-59 | a pair for which the wider one is tried first |
| `RoutingRules.NarrowWildcardFirstIff` | pkg/controllers/routingpolicy/util.go:53-59 | of two wildcards of one path that a request matches both, the narrower is tried first exactly when its host is the greater string, in every sorted arrangement |
| `RoutingRules.NarrowestIsReachedIff` | pkg/controllers/routingpolicy/util.go:53-59 | among any number of matching wildcards the narrowest one is reached exactly when it is the greatest of them |
| `RoutingAgreement.FilterIngressesForRoutingPolicy` | pkg/controllers/routingpolicy/util.go:145-162 | the ingresses of the class that are neither TCP nor being deleted, in order |
| `RoutingAgreement.ProcessRoutingPolicy` | pkg/controllers/routingpolicy/util.go:94-143 | the nested loops equal their specification; desired policies are the names with paths |
| `RoutingAgreement.RoutesCollect` | pkg/controllers/routingpolicy/util.go:94-143 | processing fails exactly when some path does not resolve, and collects for each listener exactly its paths in order |
| `RoutingAgreement.RulesIgnoreLister` | pkg/controllers/routingpolicy/util.go:94-143 | in whatever order ingresses are listed, each policy gets the same rules |
| `RoutingAgreement.EntriesAreVisits` | pkg/controllers/routingpolicy/util.go:94-143 | the entries of a listener are exactly the non-TCP paths the state builder sees on its port |
| `RoutingAgreement.CompilersAgree` | pkg/state/ingressstate.go:222-299 | for accepted protocols: policies are named after exactly the non-TCP listeners, and every rule forwards to a backend set reachable from its listener, hence to a declared one |
| `RoutingAgreement.DefaultsAreOwn` | pkg/state/ingressstate.go:517-529 | the default backend set of every port of an ingress is among its own backend sets |
| `RoutingAgreement.PortsAgreeIff` | pkg/util/util.go:1147-1169 | exactly when the two compilers bind a path to the same port, for any protocol |
| `RoutingAgreement.UnknownProtocolSplitsThem` | pkg/state/ingressstate.go:211-220 | an unknown protocol for which they do not |
| `LoadBalancers.UpdatesCommuteIff` | pkg/loadbalancer/loadbalancer.go:578-655 | the two ways of updating a backend set commute exactly when endpoints are unchanged, the details fail, or the customized suite is neither removed nor brought in |
| `LoadBalancers.RequestableUpdatesCommute` | pkg/loadbalancer/loadbalancer.go:578-655 | with requestable suites they always commute, and each keeps the fields of the other |
| `LoadBalancers.CustomizedSuiteBreaksTheTie` | pkg/loadbalancer/loadbalancer.go:743-772 | a case in which they do not commute |
| `Interleaving.NoLostUpdate` | pkg/loadbalancer/loadbalancer.go:82-92 | in every interleaving of reads, late cache stores, preparations and sends, an accepted update changes only the fields it owns |
| `Interleaving.RequestOwnsItsChanges` | pkg/loadbalancer/loadbalancer.go:578-907 | every request body, made from a load balancer as read, keeps what it does not own |
| `Interleaving.OvertakenUpdatesAreRefused` | pkg/loadbalancer/loadbalancer.go:657-693 | an update prepared before another change reached the server is never accepted |
| `Interleaving.CacheCanGoBack` | pkg/loadbalancer/loadbalancer.go:76-92 | a run in which racing refreshes replace a cached pair by an older one |
| `Interleaving.GoesBackIff` | pkg/loadbalancer/loadbalancer.go:63-92 | exactly when a store makes the cached etag smaller: when its answer was read before the cached pair and the server changed in between |
| `Interleaving.OrderedStoresKeepFreshness` | pkg/loadbalancer/loadbalancer.go:63-92 | so cached etags never go back if answers are stored in the order in which they were read |
| `Reconcile.GetSslConfigForListener` | pkg/controllers/ingress/util.go:242-296 | the certificate list of a listener: unknown and empty artifacts skipped, first occurrences kept |
| `Reconcile.ProtocolsEqualIff` | pkg/controllers/ingress/tls_policy.go:267-281 | comparing sorted protocol lists is comparing multisets |
| `Reconcile.ListenerFixpointIff` | pkg/controllers/ingress/ingress.go:726-805 | an updated listener needs no further update, for every way its TLS policy was chosen, unless the goal has no default backend set |
| `Reconcile.CreatedListenerIsSynced` | pkg/controllers/ingress/ingress.go:524-544 | a listener just created needs no update |
| `Reconcile.ListenerSyncFrame` | pkg/loadbalancer/loadbalancer.go:838-882 | updates keep port, routing policy and proxy protocol settings |
| `Reconcile.ListenerSyncedIff` | pkg/controllers/ingress/ingress.go:746-786 | a listener needs no update exactly when it meets its goal |
| `Reconcile.ListenerPolicyAfterSync` | pkg/controllers/ingress/tls_policy.go:104-131 | where the TLS policy of a synced listener comes from: explicit, locked default when new or in a protocol transition, else the one in place |
| `Reconcile.TransitionFollowsTheDefault` | pkg/controllers/ingress/ingress.go:819-837 | a listener on the default policy of its protocol family gets that of the new family when it changes family |
| `Reconcile.BackendSetSyncedIff` | pkg/controllers/ingress/ingress.go:839-924 | a backend set needs no update exactly when it meets its goal |
| `Reconcile.BackendSetFixpointIff` | pkg/controllers/ingress/ingress.go:839-924 | an updated backend set needs no further update exactly when its checker is TCP or HTTP |
| `Reconcile.CreatedBackendSetIsSynced` | pkg/controllers/ingress/ingress.go:449-483 | a backend set just created needs no update |
| `Reconcile.BackendSetSyncKeepsBackends` | pkg/loadbalancer/loadbalancer.go:628-655 | syncing details keeps the backends |
| `DesiredState.BuiltIsWellFormed` | pkg/state/ingressstate.go:300-330 | everything a successful build asks for is well formed: known checkers, resolvable policies, defaults among reachable backend sets, no certificates on TCP |
| `Obstacles.SetSyncFailsIff` | pkg/controllers/ingress/ingress.go:839-924 | exactly when the sync of a backend set fails: its TLS policy is to be kept and is the read-only one; once synced it is not blocked any more |
| `Obstacles.ListenerSyncFailsIff` | pkg/loadbalancer/loadbalancer.go:804-882 | exactly when the sync of a listener fails, and with which error: TLS to be cleared from a protocol that needs it, or a policy to be kept that is the read-only one |
| `Obstacles.ListenerCreateFailsIff` | pkg/loadbalancer/loadbalancer.go:916-940 | exactly when a listener cannot be created: its protocol needs TLS and there is no certificate |
| `LoadBalancerClient.SyncBringsTlsInPlace` | pkg/controllers/ingress/ingress.go:862-905 | syncing a backend set brings its TLS settings in place, and a change of them is reported |
| `LoadBalancerClient.Client.GetLoadBalancer` | pkg/loadbalancer/loadbalancer.go:213-226 | a cached pair differs from the server only where the run has written; with a dependable server it is current |
| `LoadBalancerClient.Client.SyncBackendSet` | pkg/controllers/ingress/ingress.go:839-924 | one sync: new server state, staging flag, what is sent, and when it cannot fail |
| `LoadBalancerClient.Client.SyncListener` | pkg/controllers/ingress/ingress.go:726-805 | one sync: new server state, what is sent, the default backend set and the routing policy it names, and when it cannot fail |
| `LoadBalancerClient.Client.CreateListener` | pkg/loadbalancer/loadbalancer.go:916-968 | one creation: new server state, what is sent, and when it cannot fail |
| `LoadBalancerClient.Client.CreateBackendSet` | pkg/loadbalancer/loadbalancer.go:420-472 | one creation, skipped if the cache has the set and harmless if the server has |
| `LoadBalancerClient.Client.DeleteListener` | pkg/loadbalancer/loadbalancer.go:384-418 | one deletion, which a dependable server lets go |
| `LoadBalancerClient.Client.DeleteBackendSet` | pkg/loadbalancer/loadbalancer.go:339-382 | one deletion, which a dependable server refuses only while something refers to the backend set |
| `LoadBalancerClient.Client.UpdateRoutingPolicyRules` | pkg/loadbalancer/loadbalancer.go:508-575 | the rules of a policy are replaced only if they differ, under the etag they were read with |
| `IngressController.BuildManagedMultiCertBackendSets` | pkg/controllers/ingress/ingress.go:694-724 | the backend sets behind all multi-certificate listeners |
| `IngressController.ValidateActiveTlsPolicies` | pkg/controllers/ingress/ingress.go:642-688 | validation succeeds exactly when every explicit policy resolves |
| `IngressController.WellFormedPoliciesResolve` | pkg/controllers/ingress/ingress.go:642-688 | which is always so after a successful build |
| `IngressController.EnsuredIsStaged` | pkg/controllers/ingress/ingress.go:424-483 | after the staging phase every backend set to stage exists with its desired TLS settings |
| `IngressController.StageBackendSets` | pkg/controllers/ingress/ingress.go:432-491 | sync, create, and read again if anything was staged |
| `IngressController.EnsureListeners` | pkg/controllers/ingress/ingress.go:493-544 | the ingress's listeners are synced or created, and nothing else changes; with a dependable server this fails only if a sync or creation does |
| `IngressController.DeleteStale` | pkg/controllers/ingress/ingress.go:546-563 | deletions only remove what the class does not want, listeners first; a dependable server lets the listeners go, and the backend sets unless one of them is still referred to |
| `IngressController.EvolutionLasts` | pkg/controllers/ingress/ingress.go:409-564 | every single change that a run makes keeps routing policies and their attachment, and neither adds nor removes an obstacle |
| `IngressController.EvolutionKeepsOwnPolicies` | pkg/controllers/ingress/ingress.go:774-800 | however a run ends, listeners carry no policy or the existing one of their own name if they did before |
| `IngressController.ObstaclesStay` | pkg/controllers/ingress/ingress.go:409-564 | however a run ends, exactly the same backend sets and ports are blocked as before |
| `IngressController.UnblockedCanRun` | pkg/controllers/ingress/ingress.go:409-544 | if nothing of the ingress is blocked, no request but a deletion need fail |
| `IngressController.EnsuredIsUnblocked` | pkg/controllers/ingress/ingress.go:409-544 | and only then |
| `IngressController.EnsureDesired` | pkg/controllers/ingress/ingress.go:409-564 | whatever fails: no listener write before staging is complete, a fresh read in between, no listener pointed at a missing backend set, and listeners sent with the routing policies they have; when only deletions are left the load balancer is exactly the synced one, which with a dependable server is so exactly when nothing was blocked; deletions are then refused for integrity only; nothing is sent if nothing is to do |
| `IngressController.EnsureIngress` | pkg/controllers/ingress/ingress.go:384-564 | the same from ingress objects on; a class that cannot be built causes no request |
| `IngressController.RecordedIsOwned` | pkg/state/ingressstate.go:301-305 | what is recorded for an ingress is closed under default backend sets |
| `RoutingController.EnsureRoutingPolicy` | pkg/loadbalancer/loadbalancer.go:474-506 | create, attach, update: afterwards the listener carries its policy with the rules, and nothing else has changed |
| `RoutingController.EnsurePolicies` | pkg/controllers/routingpolicy/routingpolicy.go:172-186 | every policy whose requests were accepted is in place, whichever others failed; the first error is kept; with a dependable server none fails |
| `RoutingController.RemovePolicy` | pkg/controllers/routingpolicy/routingpolicy.go:204-231 | detached before it is deleted |
| `RoutingController.EnsureRoutingRules` | pkg/controllers/routingpolicy/routingpolicy.go:149-239 | on success, which a dependable server grants to policies that can be attached, the policies are exactly the desired ones, each on its own listener and on no other; at every moment listeners carry no policy or the existing one of their own name |
| `Convergence.RunSettles` | pkg/controllers/ingress/ingress.go:384-564 | a complete run leaves nothing to do for the next one |
| `Convergence.RunTwice` | pkg/controllers/ingress/ingress.go:384-564 | a second run on the same inputs sends no request and changes nothing, and with a dependable server succeeds |
| `Convergence.RunKeepsPolicies` | pkg/controllers/ingress/ingress.go:774-800 | runs that reach their deletions keep routing policies and their attachment |
| `Convergence.PassSyncsAll` | pkg/controllers/ingress/ingress.go:384-564 | a pass over all ingresses syncs the whole class even if deletions are refused |
| `Convergence.ClassConverges` | pkg/controllers/ingress/ingress.go:384-564 | passes that go through, with a routing pass in between, lead to exactly the desired listeners, backend sets and routing policies |
| `Convergence.ConvergedMeans` | pkg/controllers/ingress/ingress.go:384-564 | what convergence means for each listener and each backend set: protocol, default backend set, certificates, timeouts, TLS policy, health check, balancing policy, session persistence |
| `Convergence.SyncedIsRoutable` | pkg/controllers/routingpolicy/routingpolicy.go:149-239 | once the class is synced, its routing policies can be attached |
| `Convergence.SyncedIsUnblocked` | pkg/controllers/ingress/ingress.go:726-924 | what is synced is not blocked |
| `ClassConvergence.IngressesCoverTheClass` | pkg/state/ingressstate.go:187-306 | the parts of the ingresses make up the class, in whatever order they have their turns |
| `ClassConvergence.RoutesAreGood` | pkg/controllers/routingpolicy/routingpolicy.go:149-168 | desired policies belong to desired listeners and forward to desired backend sets |
| `ClassConvergence.EnsureRoutesOf` | pkg/controllers/routingpolicy/routingpolicy.go:149-239 | the routing policy controller from ingress objects on; a class that cannot be compiled causes no request |
| `ClassConvergence.RunPass` | pkg/controllers/ingress/ingress.go:384-564 | a pass of the ingress controller over the ingresses in any order: all runs go through unless something was blocked, and exactly the same is blocked afterwards |
| `ClassConvergence.BlockedDoesNotConverge` | pkg/controllers/ingress/ingress.go:384-564 | what is blocked at the start is not synced at the end |
| `ClassConvergence.ConvergeClass` | pkg/controllers/ingress/ingress.go:384-564 | for every class of ingresses the builder accepts, with a server that refuses only what would break a reference: pass, routing pass, pass lead to exactly the desired listeners, backend sets and routing policies if and only if nothing was blocked at the start |
| `ClassConvergence.PlainClassIsUnblocked` | pkg/controllers/ingress/ingress.go:384-564 | an ingress without annotations and TLS is a class that the builder accepts and in which nothing is ever blocked, so that it converges from every load balancer the controllers can leave behind |
| `FoldedMaps.FoldNested` | pkg/controllers/ingressclass/util.go:144-155 | lower-casing of a tag map |
| `FoldedMaps.FoldedSame` | pkg/controllers/ingressclass/util.go:144-155 | lower-casing changes nothing under lower-case keys |
| `FoldedMaps.FoldedEqual` | pkg/controllers/ingressclass/util.go:30-32 | the equality test is equality of what is found under lower-case keys, up to empty namespaces |
| `TagRules.GetUpdatedDefinedAndImplicitDefaultTags` | pkg/controllers/ingressclass/util.go:61-126 | every tag and every default after the computation, by lower-case key |
| `TagRules.TagsAreConserved` | pkg/controllers/ingressclass/util.go:93-121 | the new tags are exactly the supplied ones and the recorded defaults still there; defaults keep their values |
| `TagRules.TagFixpoint` | pkg/controllers/ingressclass/util.go:61-126 | after one application the next computation changes no tag, however the server resolved variables |
| `TagRules.AnnotationStaysIff` | pkg/controllers/ingressclass/util.go:61-126 | the next computation keeps the annotation too, whatever the server makes of the tags, exactly when no kept default has a value with a tag variable |
| `TagRules.DefaultsSurviveIff` | pkg/controllers/ingressclass/util.go:61-126 | exactly then the kept defaults survive every server |
| `TagRules.MigrationFixpoint` | pkg/controllers/ingressclass/util.go:80-88 | taking over a load balancer without annotations is stable |
| `TagRules.GetImplicitDefaultTagsForNewLoadBalancer` | pkg/controllers/ingressclass/util.go:42-58 | the tags beyond the supplied ones |
| `TagRules.FirstReconcileIff` | pkg/controllers/ingressclass/ingressclass.go:372-377 | the first reconciliation keeps the annotation, and keeps the tags exactly when the supplied ones are all there |
| `Tags.TagState.CheckTags` | pkg/controllers/ingressclass/ingressclass.go:427-462 | one reconciliation: when an update and when a patch is made, and what is left |
| `Tags.CheckTwice` | pkg/controllers/ingressclass/ingressclass.go:427-462 | the second reconciliation sends no update, and no patch if the first had nothing to update or no kept default has a variable |
| `Tags.AnnotationStaysForEveryServerIff` | pkg/controllers/ingressclass/ingressclass.go:427-462 | which is exactly when the annotation stays for every server |
| `Tags.VariableIsPatchedAgain` | pkg/controllers/ingressclass/ingressclass.go:427-462 | a default with a variable for which the second reconciliation patches the annotation again |
| `Tags.CheckAfterCreation` | pkg/controllers/ingressclass/ingressclass.go:372-377 | the first reconciliation after creation |
| `CertificateCleanup.ClassifyPages` | pkg/task/certificatecleanup/util.go:122-170 | the paging loops classify every listed resource |
| `CertificateCleanup.FilterOutAssociated` | pkg/task/certificatecleanup/util.go:235-256 | the association filter |
| `CertificateCleanup.DeadlineIsClose` | pkg/task/certificatecleanup/util.go:87-89 | a deletion time is at most one second short of the grace period |
| `CertificateCleanup.DeletionIsJustified` | pkg/task/certificatecleanup/util.go:25-256 | along every run, a deletion is requested only for a resource that an earlier pass found free and marked, that was not restored until the current pass listed it as expired, after more than the grace period less one second |
| `CertificateCleanup.DeletedUnrestoredIff` | pkg/task/certificatecleanup/certificate_cleanup.go:191-201 | a deletion is of a resource not restored since its mark exactly when no restoration falls between its listing and its deletion |
| `CertificateCleanup.MarkStaysIff` | pkg/task/certificatecleanup/certificate_cleanup.go:191-201 | between its listing and its deletion a resource keeps its mark exactly as long as nobody restores or removes it |
| `CertificateCleanup.MarkedLacksHash` | pkg/controllers/ingress/util.go:325-335 | a marked resource has no hash, along every run |
| `CertificateCleanup.NoPassMarksAndDeletes` | pkg/task/certificatecleanup/certificate_cleanup.go:179-201 | no pass both marks and deletes a resource |
| `CertificateCleanup.RestoredTooLate` | pkg/task/certificatecleanup/certificate_cleanup.go:191-201 | a run in which a resource restored after its pass has listed it is deleted all the same |
| `CertificateTask.Cleaner.GetToBeMarkedOrCleanedUp` | pkg/task/certificatecleanup/util.go:122-182 | listing, classification and association filter of a pass, with the rest of the world acting in between |
| `CertificateTask.Cleaner.CleanUp` | pkg/task/certificatecleanup/certificate_cleanup.go:191-201 | a whole pass takes steps of the state machine only, and requests exactly the marks and deletions that follow from what it listed |
| `CertificateTask.Cleaner.DeletionsAreJustified` | pkg/task/certificatecleanup/util.go:122-256 | so every deletion the task requests is justified |
| `CertificateTask.Cleaner.EnsureCertificate` | pkg/controllers/ingress/util.go:320-335 | a use restores the hash exactly when what it reads has none or another one; a mark survives an accepted use exactly when the use is served cached tags that still have the hash of its content |
| `CertificateTask.MarkBehindTheCache` | pkg/controllers/ingress/certificate_util.go:26-36 | a run in which a mark is set while the cached tags still have their hash |
| `CertificatePruning.Certificate.Prune` | pkg/controllers/ingress/certificate_util.go:187-218 | the loop asks for exactly the specified versions; refused requests are skipped |
| `CertificatePruning.PruneExactly` | pkg/controllers/ingress/certificate_util.go:204-215 | which versions are asked for, without reference to the counter |
| `CertificatePruning.PruneIsSafe` | pkg/controllers/ingress/certificate_util.go:204-215 | never a current, newer or scheduled version; a sound one only when enough earlier ones stay |
| `CertificatePruning.SecondPassAsks` | pkg/controllers/ingress/certificate_util.go:204-215 | which versions a second pass asks for in addition |
| `CertificatePruning.IdempotentIff` | pkg/controllers/ingress/certificate_util.go:204-215 | exactly when pruning twice is pruning once |
| `CertificatePruning.PruningTwiceGoesFurther` | pkg/controllers/ingress/certificate_util.go:204-215 | a list for which it is not |

## Left out

- OCI and HTTP calls, work request polling, sleeps, informers, queues, leader election, events and metrics: the server is an abstract one that accepts or refuses.
- JSON and YAML decoding, SHA-256, PEM and string-to-number conversion: decoded values and an uninterpreted digest take their place.
- Creation and update of certificates and CA bundles behind TLS artifacts: a stable function from artifact to id.
- Fields the program does not send (host names, rule sets, path route sets, certificate names, verification depth): absent from the records.
- Absent protocol and default backend set of a listener on the server: the API always returns them, so they are plain strings.
- Unicode: case folding covers ASCII letters, and strings are compared by character.
- SSL configurations changed through a pointer argument (resolveTLSPolicy and the preserve helpers): the new value is returned instead, so aliasing of the argument is not modelled.
- The cleanup of an ingress that is being deleted (handleIngressDelete), and the walk of the cleanup task over classes and compartments: they only call what is modelled.
- Finalizers, deletion of the load balancer, shapes, network security groups, WAF, private addresses, node and endpoint lookup: plumbing or single checks.
- Interleaving.NoLostUpdate: says nothing about deletions and creations, which carry no etag.
- StateStore.StateStore.BuildState: on failure it says which per-ingress states survive only as a set of keys, because no caller reads them then.
- Tags.CheckTwice: speaks of tag maps without empty namespaces, because the server does not return any.
- CertificateCleanup.DeletionIsJustified: guarantees the absence of a restoration only until the listing, because the program does not look again; DeletedUnrestoredIff says exactly when it extends to the deletion.
- CertificateTask.Cleaner.CleanUp: reads a resource and the clock it is compared with at one moment.
- IngressController.ValidateActiveTlsPolicies: leaves the test for active targets to the state builder, which records explicit policies for those only.
