/** Client admission of connection actions (src/ConnectionAction.h) and the state it reads. */
module ConnectionAction {

  datatype VpnState =
    | Unavailable
    | Disconnected
    | Connecting
    | Connected
    | Disconnecting
    | Error
    | OtherState(name: string)

  datatype AuthState =
    | SignedIn
    | SignedInDegraded
    | SignedOut
    | OtherAuth(name: string)

  datatype Capabilities = Capabilities(
    connect: bool,
    disconnect: bool,
    activate: bool,
    primaryDisconnects: bool,
    waitForDisconnect: bool,
    idleDisconnected: bool)

  predicate PrimaryActionDisconnects(state: VpnState) {
    state.Connected? || state.Connecting? || state.Disconnecting? || state.Error?
  }

  predicate AccountAllowsConnection(auth: AuthState) {
    auth.SignedIn? || auth.SignedInDegraded?
  }

  function ConnectionCapabilities(available: bool, ready: bool, healthy: bool, loggedIn: bool, busy: bool,
                                  state: VpnState, auth: AuthState, allowActivation: bool): Capabilities
  {
    if !available then
      Capabilities(false, false, allowActivation, false, false, false)
    else if !ready || !healthy then
      Capabilities(false, false, false, PrimaryActionDisconnects(state), false, false)
    else
      Capabilities(
        loggedIn && AccountAllowsConnection(auth) && !busy
          && (state.Disconnected? || state.Connected? || state.Error?),
        state.Connected? || state.Connecting? || state.Error? || (state.Disconnected? && busy),
        false,
        PrimaryActionDisconnects(state),
        state.Disconnecting?,
        !busy && state.Disconnected?)
  }

  /** When each action is admitted: busy never admits a connection, and a backend out of reach admits only activation. */
  lemma AdmissionExactly(available: bool, ready: bool, healthy: bool, loggedIn: bool, busy: bool,
                         state: VpnState, auth: AuthState, allowActivation: bool)
    ensures var (can, sound) := (ConnectionCapabilities(available, ready, healthy, loggedIn, busy, state, auth, allowActivation),
                                 available && ready && healthy);
            && (can.connect <==> sound && loggedIn && !busy && (auth == SignedIn || auth == SignedInDegraded)
                                 && (state == Disconnected || state == Connected || state == Error))
            && (can.disconnect <==> sound && (state == Connected || state == Connecting || state == Error
                                              || (state == Disconnected && busy)))
            && (can.activate <==> !available && allowActivation)
            && (can.primaryDisconnects <==> available && (state == Connected || state == Connecting || state == Disconnecting
                                                          || state == Error))
            && (can.waitForDisconnect <==> sound && state == Disconnecting)
            && (can.idleDisconnected <==> sound && !busy && state == Disconnected)
  {
  }

  /** The connection target given at launch, empty if the agent owns startup: it is served at most once. */
  class StartupTarget {
    const launched: string
    var pending: string
    ghost var taken: seq<string>

    ghost predicate Valid()
      reads this
    {
      && (pending == "" || pending == launched)
      && (taken == [] || (taken == [launched] && pending == "" && launched != ""))
    }

    constructor (target: string)
      ensures Valid() && launched == target && pending == target && taken == []
    {
      launched, pending, taken := target, target, [];
    }

    /** Readiness alone does not use the target up; a session it cannot serve does. */
    method Take(ready: bool, loggedIn: bool, state: VpnState, canConnect: bool) returns (target: string)
      requires Valid()
      modifies this
      ensures Valid() && taken == old(taken) + if target == "" then [] else [target]
      ensures target == if ready && loggedIn && state.Disconnected? && canConnect then old(pending) else ""
      ensures pending == if !ready || (loggedIn && state.Disconnected? && !canConnect) then old(pending) else ""
    {
      target := "";
      if !ready || pending == "" {
        return;
      }
      if !loggedIn || !state.Disconnected? {
        pending := "";
        return;
      }
      if canConnect {
        target, pending := pending, "";
        taken := taken + [target];
      }
    }
  }
}
