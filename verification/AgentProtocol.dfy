/**
 The agent's conversation with one backend owner, as a monitor over the events an outside
 observer sees: user calls, messages sent, replies received and readings adopted. It names every
 reply by the call it answers and knows none of the client's generations or flags. The monitor is
 a product of six small automata: calls, owner, preference, intent, lease and readings.
 */
module AgentProtocol {
  import opened ConnectionAction
  import Features

  /** What a user asked to connect to: a target text, or a server group. */
  datatype Goal =
    | Target(text: string)
    | ServerGroup(country: string, kind: string, name: string)

  datatype Intent = Intent(goal: Goal, interactive: bool, onlyWhenDisconnected: bool)

  /** The connect methods of the backend interface. */
  datatype ConnectCall =
    | ConnectGroup(country: string, kind: string, name: string)
    | ConnectFastest
    | ConnectFastestWithFeatures(features: seq<string>)
    | ConnectServer(server: string)
    | ConnectCountry(code: string)

  const FASTEST := "FASTEST"

  /** What a connect message asks for. */
  function Requested(call: ConnectCall): Goal {
    match call
    case ConnectGroup(country, kind, name) => ServerGroup(country, kind, name)
    case ConnectFastest => Target(FASTEST)
    case ConnectFastestWithFeatures(_) => Target(FASTEST)
    case ConnectServer(server) => Target(server)
    case ConnectCountry(code) => Target(code)
  }

  datatype Message =
    | Authorize
    | Register
    | Unregister
    | SetReconnection(enabled: bool)
    | GetSnapshot
    | Connect(call: ConnectCall)
    | Disconnect
  {
    predicate Operation() {
      Connect? || Disconnect?
    }
  }

  /** The fields of an accepted snapshot that steer the agent. */
  datatype Reading = Reading(ready: bool, loggedIn: bool, auth: AuthState, busy: bool, state: VpnState)

  /** The latest reading, or none when it was unreadable, unsupported, incomplete or refused. */
  datatype Health = Unhealthy | Healthy(reading: Reading)

  datatype Source = FromRead(id: nat) | FromSignal(sender: nat)

  /** How an asynchronous call ended: a transport deadline proves neither success nor refusal. */
  datatype Outcome = Succeeded | Transient | Refused

  datatype Event =
    | OwnerAppeared
    | OwnerLost
    | OwnerTrusted(name: nat)
    | PreferenceChosen(enabled: bool)
    | FeaturesChosen(features: seq<string>)
    | IntentQueued(intent: Intent)
    | DisconnectRequested
    | IntentTaken
    | IntentWithdrawn
    | ControlCenterRequested
    | ReadingAdopted(source: Source, health: Health)
    | Sent(id: nat, to: nat, message: Message)
    | Replied(id: nat, outcome: Outcome)

  datatype Owner = NoOwner | Pinned(name: nat)
  datatype Slot = Free | Awaiting(id: nat)
  datatype Queue = Empty | Holding(intent: Intent)

  // ---- Owner and authorization ----

  /** rejected: the owner refused to authorize this client. */
  datatype OwnerView = OwnerView(owner: Owner, call: Slot, authorized: bool, rejected: bool)

  function NextOwner(v: OwnerView, e: Event): OwnerView {
    match e
    case OwnerAppeared => OwnerView(NoOwner, Free, false, false)
    case OwnerLost => OwnerView(NoOwner, Free, false, false)
    case OwnerTrusted(name) => v.(owner := Pinned(name))
    case Sent(id, _, Authorize) => v.(call := Awaiting(id))
    case Replied(id, outcome) =>
      if v.call == Awaiting(id) then
        v.(call := Free, authorized := v.authorized || outcome.Succeeded?, rejected := outcome.Refused?)
      else v
    case _ => v
  }

  // ---- Reconnection preference ----

  /** What this owner has acknowledged and not been asked to change since. */
  datatype Known = Unknown | Acknowledged(value: bool)

  datatype PreferenceView = PreferenceView(wanted: bool, call: Slot, sent: bool, known: Known)

  function NextPreference(v: PreferenceView, e: Event): PreferenceView {
    match e
    case OwnerAppeared => v.(call := Free, known := Unknown)
    case OwnerLost => v.(call := Free, known := Unknown)
    case PreferenceChosen(enabled) => v.(wanted := enabled)
    case Sent(id, _, SetReconnection(enabled)) => v.(call := Awaiting(id), sent := enabled, known := Unknown)
    case Replied(id, outcome) =>
      if v.call == Awaiting(id) then v.(call := Free, known := if outcome.Succeeded? then Acknowledged(v.sent) else Unknown) else v
    case _ => v
  }

  // ---- Connect intent ----

  /** taken: consumed by the event just before. abandoned: the latest withdrawal, until a newer user request. */
  datatype IntentView = IntentView(current: Queue, taken: Queue, abandoned: Queue)

  function NextIntent(v: IntentView, e: Event): IntentView {
    match e
    case IntentQueued(intent) => IntentView(Holding(intent), Empty, Empty)
    case DisconnectRequested => IntentView(Empty, Empty, Empty)
    case IntentTaken => IntentView(Empty, v.current, Empty)
    case IntentWithdrawn => IntentView(Empty, Empty, v.current)
    case _ => v.(taken := Empty)
  }

  // ---- Transient lease ----

  /** Doubtful: the registration failed, but it is not known to have been refused. */
  datatype Lease = NoLease | Asked(id: nat) | Held | Doubtful

  function NextLease(v: Lease, e: Event): Lease {
    match e
    case OwnerAppeared => NoLease
    case OwnerLost => NoLease
    case Sent(id, _, Register) => Asked(id)
    case Sent(_, _, Unregister) => NoLease
    case Replied(id, outcome) => if v == Asked(id) then if outcome.Succeeded? then Held else Doubtful else v
    case _ => v
  }

  // ---- Readings ----

  /**
   operation: the latest connect or disconnect, until it is answered. busy: the owner is at work, as far as the
   latest healthy reading and what was sent and answered since tell.
   */
  datatype ReadingView = ReadingView(calls: set<nat>, health: Health, operation: Slot, busy: bool)

  function NextReading(v: ReadingView, e: Event): ReadingView {
    match e
    case OwnerAppeared => ReadingView({}, Unhealthy, Free, true)
    case OwnerLost => ReadingView({}, Unhealthy, Free, true)
    case ReadingAdopted(_, health) => v.(health := health, busy := if health.Healthy? then health.reading.busy else v.busy)
    case Sent(id, _, message) =>
      if message.GetSnapshot? then v.(calls := v.calls + {id})
      else if message.Operation() then v.(operation := Awaiting(id), busy := true)
      else v
    case Replied(id, outcome) =>
      if v.operation == Awaiting(id) then v.(operation := Free, busy := BusyAfter(v.busy, outcome)) else v
    case _ => v
  }

  /** A refused operation is over; one whose outcome is unknown may be under way. */
  function BusyAfter(busy: bool, outcome: Outcome): bool {
    match outcome
    case Succeeded => busy
    case Transient => true
    case Refused => false
  }

  // ---- Calls ----

  /** The calls sent and not answered yet. */
  function NextOpen(v: set<nat>, e: Event): set<nat> {
    match e
    case Sent(id, _, _) => v + {id}
    case Replied(id, _) => v - {id}
    case _ => v
  }

  // ---- The product ----

  /** chosen: the server features the user asked for last, as they were asked for. */
  datatype View = View(nextId: nat, open: set<nat>, chosen: seq<string>, owner: OwnerView, preference: PreferenceView, intent: IntentView,
                       lease: Lease, reading: ReadingView)

  const START := View(0, {}, [], OwnerView(NoOwner, Free, false, false), PreferenceView(true, Free, true, Unknown),
                      IntentView(Empty, Empty, Empty), NoLease, ReadingView({}, Unhealthy, Free, true))

  function Next(v: View, e: Event): View {
    View(if e.Sent? then e.id + 1 else v.nextId, NextOpen(v.open, e),
         if e.FeaturesChosen? then e.features else v.chosen,
         NextOwner(v.owner, e), NextPreference(v.preference, e), NextIntent(v.intent, e),
         NextLease(v.lease, e), NextReading(v.reading, e))
  }

  /** The connect method that serves a goal. */
  ghost predicate Serves(call: ConnectCall, goal: Goal, chosen: seq<string>) {
    match goal
    case ServerGroup(country, kind, name) => call == ConnectGroup(country, kind, name)
    case Target(text) =>
      if text == FASTEST then
        if Features.Selection(chosen, []) then call == ConnectFastest
        else call.ConnectFastestWithFeatures? && Features.Selection(chosen, call.features)
      else call == if '#' in text then ConnectServer(text) else ConnectCountry(text)
  }

  /** Everything that must hold at the moment a connect message leaves the agent. */
  ghost predicate ConnectPermitted(v: View, call: ConnectCall) {
    && v.intent.taken.Holding? && v.intent.taken.intent.goal == Requested(call) && Serves(call, v.intent.taken.intent.goal, v.chosen)
    && v.lease.Held?
    && v.preference.call.Free? && v.preference.known == Acknowledged(v.preference.wanted)
    && v.reading.health.Healthy? && !v.reading.busy
    && ReadingPermits(v.reading.health.reading, v.intent.taken.intent.onlyWhenDisconnected)
  }

  predicate ReadingPermits(r: Reading, onlyWhenDisconnected: bool) {
    && r.ready && r.loggedIn && AccountAllowsConnection(r.auth)
    && (r.state.Disconnected? || r.state.Connected? || r.state.Error?)
    && (onlyWhenDisconnected ==> r.state.Disconnected?)
  }

  ghost predicate SendPermitted(v: View, message: Message) {
    match message
    case Authorize => v.owner.call.Free? && !v.owner.authorized && !v.owner.rejected
    case Register => v.owner.authorized && v.lease.NoLease? && v.intent.current.Holding?
    case Unregister => v.owner.authorized && !v.lease.NoLease?
    case SetReconnection(enabled) => v.owner.authorized && v.preference.call.Free? && enabled == v.preference.wanted
    case GetSnapshot => v.owner.authorized
    case Connect(call) => v.owner.authorized && ConnectPermitted(v, call)
    case Disconnect =>
      v.owner.authorized && v.reading.health.Healthy? && v.reading.health.reading.ready && v.intent.current.Empty?
  }

  /** What the agent may do, and which readings it may believe, after a given history. */
  ghost predicate Allowed(v: View, e: Event) {
    match e
    case Sent(id, to, message) => v.nextId <= id && v.owner.owner == Pinned(to) && SendPermitted(v, message)
    case Replied(id, _) => id in v.open
    case ReadingAdopted(FromRead(id), _) => id in v.reading.calls
    case ReadingAdopted(FromSignal(sender), _) => v.owner.owner == Pinned(sender)
    case IntentTaken => v.intent.current.Holding?
    case ControlCenterRequested => v.intent.abandoned.Holding? && v.intent.abandoned.intent.interactive
    case _ => true
  }

  /** The i-th event was allowed when it happened, and moved the monitor as it should. */
  ghost predicate Step(views: seq<View>, log: seq<Event>, i: nat)
    requires |views| == |log| + 1 && i < |log|
  {
    Allowed(views[i], log[i]) && views[i + 1] == Next(views[i], log[i])
  }

  /** A history and the monitor's states along it. */
  ghost predicate Run(views: seq<View>, log: seq<Event>) {
    && |views| == |log| + 1
    && views[0] == START
    && forall i: nat {:trigger Step(views, log, i)} :: i < |log| ==> Step(views, log, i)
  }

  lemma Extend(views: seq<View>, log: seq<Event>, e: Event)
    requires Run(views, log) && Allowed(views[|log|], e)
    ensures Run(views + [Next(views[|log|], e)], log + [e])
  {
    var longerViews, longerLog := views + [Next(views[|log|], e)], log + [e];
    forall i: nat | i < |longerLog|
      ensures Step(longerViews, longerLog, i)
    {
      if i < |log| {
        assert Step(views, log, i);
      }
    }
  }
}
