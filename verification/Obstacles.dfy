/** What can keep a backend set or a listener from being brought to its desired state, even by a server
    that accepts everything. */
module Obstacles {
  import opened Wrappers
  import opened Ingresses
  import opened LoadBalancers
  import opened Reconcile
  import opened DesiredState
  import TlsPolicy

  /** The TLS policy of the backend set is to be kept, and cannot be sent back. */
  predicate SetBlocked(goal: BackendSetGoal, bs: BackendSet) {
    goal.ssl.Some? && goal.explicit.None? && Customized(bs.ssl)
  }

  /** A listener that must speak TLS without certificates can be neither created nor cleared of the ones
      it has; and a TLS policy to be kept may be one that cannot be sent back. */
  predicate ListenerBlocked(goal: ListenerGoal, l: Option<Listener>) {
    if goal.ssl.None? then TlsIsRequired(goal.protocol) && (l.None? || HasArtifacts(l.value.ssl))
    else goal.explicit.None? && l.Some? && Customized(l.value.ssl)
  }

  /** A customized suite without certificates, which the API has no use for. */
  predicate Bare(l: Listener) {
    Customized(l.ssl) && !HasArtifacts(l.ssl)
  }

  lemma DefaultsAreRequestable(resource: TlsPolicy.Resource)
    ensures TlsPolicy.LockedDefault(resource).cipher != TlsPolicy.CUSTOMIZED_CIPHER
  {
    TlsPolicy.RequestableResolves(resource, TlsPolicy.NO_POLICY);
  }

  /** Exactly when a backend set cannot be synced; once synced it is not blocked any more. */
  lemma SetSyncFailsIff(goal: BackendSetGoal, bs: BackendSet)
    requires GoodSetGoal(goal)
    ensures BackendSetSync(goal, bs).Err? <==> SetBlocked(goal, bs)
    ensures BackendSetSync(goal, bs).Err? ==> BackendSetSync(goal, bs).error == CannotPreserve
    ensures BackendSetSync(goal, bs).Ok? && BackendSetSync(goal, bs).value.Some? ==>
      !SetBlocked(goal, BackendSetSync(goal, bs).value.value.0)
  {
    if goal.explicit.Some? {
      TlsPolicy.RequestableResolves(TlsPolicy.BackendSetResource, goal.explicit.value);
    }
    DefaultsAreRequestable(TlsPolicy.BackendSetResource);
  }

  lemma SetCreateSucceeds(goal: BackendSetGoal, backends: seq<Backend>)
    requires GoodSetGoal(goal)
    ensures BackendSetCreate(goal, backends).Ok? && !SetBlocked(goal, BackendSetCreate(goal, backends).value)
  {
    if goal.explicit.Some? {
      TlsPolicy.RequestableResolves(TlsPolicy.BackendSetResource, goal.explicit.value);
    }
    DefaultsAreRequestable(TlsPolicy.BackendSetResource);
  }

  /** A goal that can be met. */
  ghost predicate Reachable(goal: ListenerGoal) {
    goal.protocol != "" && Uncommitted(goal.ssl) && (goal.explicit.Some? ==> TlsPolicy.Requestable(goal.explicit.value))
  }

  /** Exactly when a listener cannot be synced; once synced it is not blocked any more. */
  lemma ListenerSyncFailsIff(goal: ListenerGoal, l: Listener)
    requires Reachable(goal)
    ensures !Bare(l) ==> (ListenerSync(goal, l).Err? <==> ListenerBlocked(goal, Some(l)))
    ensures !Bare(l) && ListenerSync(goal, l).Err? ==>
      ListenerSync(goal, l).error == if goal.ssl.None? then CannotClearTls(goal.protocol) else CannotPreserve
    ensures ListenerSync(goal, l).Ok? ==> !ListenerBlocked(goal, Some(l))
    ensures ListenerSync(goal, l).Ok? && ListenerSync(goal, l).value.Some? ==>
      !Bare(ListenerSync(goal, l).value.value) && !ListenerBlocked(goal, Some(ListenerSync(goal, l).value.value))
  {
    var family := TlsPolicy.ListenerResource(Http2Family(goal.protocol));
    if goal.explicit.Some? {
      TlsPolicy.RequestableResolves(family, goal.explicit.value);
    }
    DefaultsAreRequestable(family);
    DefaultsAreRequestable(TlsPolicy.ListenerResource(true));
    DefaultsAreRequestable(TlsPolicy.ListenerResource(false));
  }

  /** Exactly when a listener cannot be created. */
  lemma ListenerCreateFailsIff(goal: ListenerGoal)
    requires Reachable(goal)
    ensures ListenerCreate(goal).Err? <==> ListenerBlocked(goal, None)
    ensures ListenerCreate(goal).Err? ==> ListenerCreate(goal).error == TlsRequired(goal.protocol)
    ensures ListenerCreate(goal).Ok? ==>
      !Bare(ListenerCreate(goal).value) && !ListenerBlocked(goal, Some(ListenerCreate(goal).value))
  {
    var family := TlsPolicy.ListenerResource(Http2Family(goal.protocol));
    if goal.explicit.Some? {
      TlsPolicy.RequestableResolves(family, goal.explicit.value);
    }
    DefaultsAreRequestable(family);
  }
}
