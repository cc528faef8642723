/**
 What holds of the agent between any two events: its flags, read against the calls in flight and the
 messages it sent. Every state of every run satisfies Valid, by RunAgent.
 */
module AgentGuarantees {
  import opened AgentProtocol
  import opened AgentSafety
  import Client = AgentClient

  /**
   A lease is pending or active, never both, and never forgotten: the last lease message to this owner
   was a registration exactly while the flag says so, and then an intent or an operation needs it.
   */
  lemma LeaseIsNeverLeaked(a: Client.AgentVpnClient)
    requires a.Valid()
    ensures a.lease.mayExist == (a.lease.pending || a.lease.active) && !(a.lease.pending && a.lease.active)
    ensures a.lease.mayExist <==> exists r :: RegisteredAt(a.trace.log, r, |a.trace.log|)
    ensures a.lease.mayExist ==> a.link.available && a.link.destination.Pinned?
    ensures a.lease.mayExist ==> a.pending.Queued() || !a.completion.phase.Idle?
  {
    LeaseMeansRegistered(a.trace.views, a.trace.log, |a.trace.log|);
  }

  datatype Kind = Preferences | Authorizations | Registrations(ticket: nat) {
    predicate Of(c: Client.Call) {
      match this
      case Preferences => c.PreferenceCall?
      case Authorizations => c.AuthorizeCall?
      case Registrations(ticket) => c.LeaseCall? && c.lease == ticket
    }
  }

  /** The calls in flight that count, of one kind: those stamped with the present owner's generation. */
  function LiveCalls(a: Client.AgentVpnClient, kind: Kind): set<nat>
    reads a
  {
    set id | id in a.bus.calls && kind.Of(a.bus.calls[id])
             && !a.bus.calls[id].InitialDiscovery? && a.bus.calls[id].generation == a.link.generation
  }

  /** One preference call is out while the flag says so; an applied preference is the latest choice, acknowledged. */
  lemma PreferenceIsLinearized(a: Client.AgentVpnClient)
    requires a.Valid()
    ensures |LiveCalls(a, Preferences)| == if a.preference.pending then 1 else 0
    ensures a.preference.enabled == LatestChoice(a.trace.log)
    ensures a.preference.applied ==>
              !a.preference.pending && exists s, r :: Acquainted(a.trace.log, s, r, |a.trace.log|)
  {
    var live := LiveCalls(a, Preferences);
    var (views, log) := (a.trace.views, a.trace.log);
    if a.preference.pending {
      assert live == {a.trace.seen.preference.call.id};
    } else {
      assert live == {};
    }
    WantedIsLatestChoice(views, log, |log|);
    assert log[..|log|] == log;
    if a.preference.applied {
      var s, r := AppliedIsLatestChoice(views, log, |log|);
    }
  }

  /**
   One authorization is out while the flag says so, and none once the owner authorized this client; the
   backend counts as available exactly when its present owner answered an authorization with success.
   */
  lemma AuthorizationIsExact(a: Client.AgentVpnClient)
    requires a.Valid()
    ensures |LiveCalls(a, Authorizations)| == if a.link.authorizationPending then 1 else 0
    ensures a.link.available ==> !a.link.authorizationPending && a.link.destination.Pinned?
    ensures a.link.available <==> exists s, r :: AuthorizedBy(a.trace.log, s, r, |a.trace.log|)
  {
    var live := LiveCalls(a, Authorizations);
    if a.link.authorizationPending {
      assert live == {a.trace.seen.owner.call.id};
    } else {
      assert live == {};
    }
    AuthorizedExactly(a.trace.views, a.trace.log, |a.trace.log|);
  }

  /** One registration that still counts is out while the flag says so. */
  lemma RegistrationIsExact(a: Client.AgentVpnClient)
    requires a.Valid()
    ensures |LiveCalls(a, Registrations(a.lease.generation))| == if a.lease.pending then 1 else 0
  {
    var live := LiveCalls(a, Registrations(a.lease.generation));
    if a.lease.pending {
      assert live == {a.trace.seen.lease.id};
    } else {
      assert live == {};
    }
  }
}
