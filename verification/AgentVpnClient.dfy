/**
 The resident agent's backend client (src/AgentVpnClient.cpp): discovery, identity, authorization,
 the reconnection preference, the transient lease, one queued connect intent and the operation it
 becomes. Every public method is one event of the main loop; replies may arrive in any order.
 */
module AgentClient {
  import opened ConnectionAction
  import opened OperationCompletions
  import opened Histories
  import opened AgentProtocol
  import Text
  import ServerGroups
  import Features

  /** A snapshot as it arrives: readable and supported, or one of the three rejections. */
  datatype Payload = Unparsable | UnsupportedVersion | Incomplete | Accepted(reading: Reading)

  /** A call in flight with the stamps captured when it was sent. */
  datatype Call =
    | InitialDiscovery
    | Discovery(generation: nat)
    | Identity(generation: nat)
    | AuthorizeCall(generation: nat, destination: nat)
    | LeaseCall(generation: nat, destination: nat, lease: nat, intent: nat)
    | PreferenceCall(generation: nat, destination: nat, request: nat)
    | SnapshotCall(generation: nat, destination: nat, operation: nat)
    | OperationCall(generation: nat, destination: nat, operation: nat)
  {
    /** A message to the owner, not a look-up on the bus. */
    predicate ToOwner() {
      !InitialDiscovery? && !Discovery? && !Identity?
    }
  }

  const MAX_TARGET := 128
  const MAX_RECOVERY_READS := 3

  predicate ValidTarget(text: string) {
    text != "" && |text| <= MAX_TARGET && !Text.HasBreak(text)
  }

  // ---- The client's fields, grouped as the source groups them ----

  /** The calls in flight, by id. */
  datatype Bus = Bus(calls: map<nat, Call>, next: nat) {
    function Add(call: Call): Bus {
      Bus(calls[next := call], next + 1)
    }

    function Skip(): Bus {
      Bus(calls, next + 1)
    }

    function Remove(id: nat): Bus {
      Bus(calls - {id}, next)
    }

    predicate Has(id: nat, call: Call) {
      id in calls && calls[id] == call
    }
  }

  datatype Recovery = Recovery(timerActive: bool, retries: nat)

  datatype Link = Link(
    generation: nat, destination: Owner, available: bool, discoveryPending: bool, identityPending: bool,
    authorizationPending: bool, rejected: bool)

  datatype Projection = Projection(ready: bool, healthy: bool, loggedIn: bool, busy: bool, state: VpnState, auth: AuthState)

  datatype Preference = Preference(enabled: bool, applied: bool, pending: bool, generation: nat)

  datatype LeaseFlags = LeaseFlags(pending: bool, active: bool, mayExist: bool, generation: nat)

  datatype GroupSlot = NoGroup | Chosen(country: string, kind: string, name: string)

  datatype PendingConnection = PendingConnection(
    target: string, group: GroupSlot, interactive: bool, onlyWhenDisconnected: bool, generation: nat)
  {
    predicate Queued() {
      target != "" || group.Chosen?
    }

    function Goal(): Goal {
      if group.Chosen? then ServerGroup(group.country, group.kind, group.name) else Target(target)
    }

    function Queue(): Queue {
      if Queued() then Holding(Intent(Goal(), interactive, onlyWhenDisconnected)) else Empty
    }

    function Clear(): PendingConnection {
      PendingConnection("", NoGroup, false, false, generation + 1)
    }
  }

  /** Ghost: the history, the monitor's run along it and its present state. */
  datatype Trace = Trace(log: seq<Event>, views: seq<View>, seen: View) {
    ghost predicate Recorded() {
      Run(views, log) && seen == views[|log|]
    }
  }

  /** Ghost: which calls the pending flags stand for, as far as the monitor does not know it. */
  datatype Outstanding = Outstanding(lookupId: nat, leaseIntent: nat, preferenceRequest: nat)

  // ---- What the fields and the history say of each other ----

  /** What a call in flight is read against. */
  datatype Standing = Standing(link: Link, leaseTicket: nat, lookupId: nat, view: OnOwner)

  /** What the monitor says is asked and not answered yet. */
  datatype OnOwner = OnOwner(open: set<nat>, authorization: Slot, lease: Lease, preference: Slot, reading: set<nat>, operation: Slot)

  function AskedIn(v: View): OnOwner {
    OnOwner(v.open, v.owner.call, v.lease, v.preference.call, v.reading.calls, v.reading.operation)
  }

  /**
   What the stamps of a call in flight say: a call stamped with the current generation goes to the
   pinned owner, and it is the one its pending flag stands for.
   */
  ghost predicate CallTracked(id: nat, call: Call, s: Standing, latest: nat) {
    && (!call.InitialDiscovery? ==> call.generation <= s.link.generation)
    && (call.ToOwner() ==> id in s.view.open)
    && (call.LeaseCall? ==> call.lease <= s.leaseTicket)
    && (call.SnapshotCall? || call.OperationCall? ==> call.operation <= latest)
    && (!call.InitialDiscovery? && call.generation == s.link.generation ==>
          match call
          case Discovery(_) => s.link.discoveryPending && s.lookupId == id
          case Identity(_) => s.link.identityPending && s.lookupId == id
          case AuthorizeCall(_, to) => s.link.destination == Pinned(to) && s.view.authorization == Awaiting(id)
          case LeaseCall(_, to, ticket, _) =>
            s.link.destination == Pinned(to) && (ticket == s.leaseTicket ==> s.view.lease == Lease.Asked(id))
          case PreferenceCall(_, to, _) => s.link.destination == Pinned(to) && s.view.preference == Awaiting(id)
          case SnapshotCall(_, to, _) => s.link.destination == Pinned(to) && s.link.available && id in s.view.reading
          case OperationCall(_, to, number) =>
            s.link.destination == Pinned(to) && (number == latest ==> s.view.operation == Awaiting(id)))
  }

  ghost predicate CallsTracked(bus: Bus, s: Standing, latest: nat) {
    forall id :: id in bus.calls ==> id < bus.next && CallTracked(id, bus.calls[id], s, latest)
  }

  /** What is waited for is in flight, to the present owner and with the stamps that make its answer count. */
  ghost predicate InFlight(bus: Bus, s: Standing, request: nat, intent: nat) {
    && (s.link.discoveryPending ==> bus.Has(s.lookupId, Discovery(s.link.generation)))
    && (s.link.identityPending ==> bus.Has(s.lookupId, Identity(s.link.generation)))
    && (s.link.destination.NoOwner? ==>
          s.view.authorization.Free? && s.view.preference.Free? && !s.view.lease.Asked?)
    && (s.link.destination.Pinned? ==>
          var to := s.link.destination.name;
          && (s.view.authorization.Awaiting? ==> bus.Has(s.view.authorization.id, AuthorizeCall(s.link.generation, to)))
          && (s.view.preference.Awaiting? ==> bus.Has(s.view.preference.id, PreferenceCall(s.link.generation, to, request)))
          && (s.view.lease.Asked? ==> bus.Has(s.view.lease.id, LeaseCall(s.link.generation, to, s.leaseTicket, intent))))
  }

  /** The latest operation is awaited while its call is in flight. */
  ghost predicate OperationInFlight(bus: Bus, link: Link, operation: Slot, latest: nat) {
    operation.Awaiting? ==>
      link.available && link.destination.Pinned? && bus.Has(operation.id, OperationCall(link.generation, link.destination.name, latest))
  }

  /** What is awaited after an answer: the same, except what waited for it. */
  ghost predicate Answered(before: OnOwner, after: OnOwner, id: nat) {
    && after.open == before.open - {id} && after.reading == before.reading
    && (if before.authorization == Awaiting(id) then after.authorization.Free? else after.authorization == before.authorization)
    && (if before.lease == Lease.Asked(id) then !after.lease.Asked? else after.lease == before.lease)
    && (if before.preference == Awaiting(id) then after.preference.Free? else after.preference == before.preference)
    && (if before.operation == Awaiting(id) then after.operation.Free? else after.operation == before.operation)
  }

  /** An answer takes its call out of flight and leaves everything else as it was. */
  lemma AnswerLeavesRest(bus: Bus, before: Standing, after: Standing, latest: nat, request: nat, intent: nat, id: nat)
    requires CallsTracked(bus, before, latest) && InFlight(bus, before, request, intent)
    requires OperationInFlight(bus, before.link, before.view.operation, latest)
    requires after == before.(view := after.view) && Answered(before.view, after.view, id)
    requires id in bus.calls && bus.calls[id].ToOwner()
    ensures CallsTracked(bus.Remove(id), after, latest) && InFlight(bus.Remove(id), after, request, intent)
    ensures OperationInFlight(bus.Remove(id), after.link, after.view.operation, latest)
  {
  }

  /** What is awaited after a message: the same, or the message itself where nothing of its kind was awaited. */
  ghost predicate Messaged(before: OnOwner, after: OnOwner, id: nat) {
    && after.open == before.open + {id} && before.reading <= after.reading
    && (after.authorization == before.authorization || (before.authorization.Free? && after.authorization == Awaiting(id)))
    && (after.lease == before.lease || (before.lease.NoLease? && after.lease == Lease.Asked(id)))
    && (after.preference == before.preference || (before.preference.Free? && after.preference == Awaiting(id)))
    && after.operation == before.operation
  }

  /** A message other than an operation puts its call in flight and leaves everything else as it was. */
  lemma MessageLeavesRest(bus: Bus, before: Standing, after: Standing, latest: nat, call: Call,
                          request: nat, newRequest: nat, intent: nat, newIntent: nat)
    requires CallsTracked(bus, before, latest) && InFlight(bus, before, request, intent)
    requires OperationInFlight(bus, before.link, before.view.operation, latest)
    requires after == before.(view := after.view, leaseTicket := after.leaseTicket, link := after.link)
    requires before.leaseTicket <= after.leaseTicket && before.link.destination.Pinned?
    requires after.link == before.link.(authorizationPending := after.link.authorizationPending)
    requires Messaged(before.view, after.view, bus.next) && CallTracked(bus.next, call, after, latest)
    requires after.view.authorization == Awaiting(bus.next) ==> call == AuthorizeCall(after.link.generation, after.link.destination.name)
    requires if after.view.preference == Awaiting(bus.next)
             then call == PreferenceCall(after.link.generation, after.link.destination.name, newRequest) else request == newRequest
    requires if after.view.lease == Lease.Asked(bus.next)
             then call == LeaseCall(after.link.generation, after.link.destination.name, after.leaseTicket, newIntent)
             else intent == newIntent && after.leaseTicket == before.leaseTicket
    ensures CallsTracked(bus.Add(call), after, latest) && InFlight(bus.Add(call), after, newRequest, newIntent)
    ensures OperationInFlight(bus.Add(call), after.link, after.view.operation, latest)
  {
  }

  /** What was asked of an earlier owner is still in flight, but nothing waits for it. */
  lemma EarlierCallsAreStale(bus: Bus, before: Standing, after: Standing, latest: nat, newLatest: nat, request: nat, intent: nat)
    requires CallsTracked(bus, before, latest) && latest <= newLatest
    requires before.link.generation < after.link.generation && before.leaseTicket <= after.leaseTicket
    requires !after.link.discoveryPending && !after.link.identityPending && after.link.destination.NoOwner?
    requires after.view.open == before.view.open
    requires after.view.authorization.Free? && after.view.preference.Free? && after.view.lease.NoLease?
    ensures CallsTracked(bus, after, newLatest) && InFlight(bus, after, request, intent)
  {
  }

  lemma OperationKeepsCalls(bus: Bus, before: Standing, after: Standing, latest: nat, call: Call)
    requires CallsTracked(bus, before, latest) && NoneStamped(bus, latest)
    requires after == before.(view := before.view.(open := before.view.open + {bus.next}, operation := Awaiting(bus.next)))
    requires call.OperationCall? && CallTracked(bus.next, call, after, latest)
    ensures CallsTracked(bus.Add(call), after, latest)
  {
  }

  /** No call is stamped with the operation just begun. */
  ghost predicate NoneStamped(bus: Bus, latest: nat) {
    forall id :: id in bus.calls && bus.calls[id].OperationCall? ==> bus.calls[id].operation < latest
  }

  /** While the owner is being looked up none is known. */
  ghost predicate LookupTracked(link: Link) {
    link.discoveryPending || link.identityPending ==> link.destination.NoOwner?
  }

  /** An authorization is pending only while unauthorized. */
  ghost predicate AuthorizationTracked(v: OwnerView, link: Link) {
    && link.destination == v.owner
    && link.available == v.authorized && link.rejected == v.rejected
    && (link.available ==> link.destination.Pinned? && !link.authorizationPending)
    && link.authorizationPending == v.call.Awaiting?
    && (v.call.Awaiting? ==> !v.rejected)
  }

  /** An applied preference is the acknowledged current value. */
  ghost predicate PreferenceTracked(v: PreferenceView, preference: Preference, request: nat, available: bool) {
    && preference.enabled == v.wanted
    && preference.pending == v.call.Awaiting?
    && (v.call.Awaiting? ==>
          available && request <= preference.generation && (request == preference.generation ==> v.sent == preference.enabled))
    && (preference.applied ==> !preference.pending && v.known == Acknowledged(preference.enabled))
  }

  /** A lease flag is the last lease message's effect. */
  ghost predicate LeaseTracked(v: Lease, lease: LeaseFlags, intent: nat, pending: PendingConnection, available: bool) {
    && lease.mayExist == !v.NoLease?
    && lease.pending == v.Asked?
    && lease.active == v.Held?
    && (lease.mayExist ==> available)
    && (v.Asked? ==> intent <= pending.generation && (intent == pending.generation ==> pending.Queued()))
  }

  ghost predicate IntentTracked(current: Queue, pending: PendingConnection) {
    && (pending.group.Chosen? ==> pending.target == "")
    && (pending.interactive ==> pending.Queued())
    && current == pending.Queue()
  }

  /** A healthy client shows the latest reading. */
  ghost predicate ReadingTracked(v: Health, projection: Projection) {
    && projection.healthy == v.Healthy?
    && (v.Healthy? ==>
          && projection.ready == v.reading.ready && projection.loggedIn == v.reading.loggedIn
          && projection.auth == v.reading.auth && projection.state == v.reading.state)
  }

  /** A connect call that fits the target and the features in force serves the goal for the features asked for. */
  lemma ConnectServes(call: ConnectCall, goal: Goal, chosen: seq<string>, features: seq<string>)
    requires Features.Selection(chosen, features)
    requires match goal
             case ServerGroup(country, kind, name) => call == ConnectCall.ConnectGroup(country, kind, name)
             case Target(text) =>
               call == if text == FASTEST then if features == [] then ConnectFastest else ConnectFastestWithFeatures(features)
                       else if '#' in text then ConnectServer(text) else ConnectCountry(text)
    ensures Serves(call, goal, chosen) && Requested(call) == goal
  {
    if Features.Selection(chosen, []) {
      Features.SelectionIsUnique(chosen, chosen, features, []);
    }
  }

  // ---- What serving a queued intent adds to the history ----

  /** What the client knows when it may serve a queued intent. */
  datatype Situation = Situation(
    link: Link, projection: Projection, lease: LeaseFlags, preference: Preference, pending: PendingConnection,
    features: seq<string>, next: nat)
  {
    /** A message to the pinned owner, under a number. */
    function To(id: nat, message: Message): seq<Event>
      requires link.destination.Pinned?
    {
      [Sent(id, link.destination.name, message)]
    }

    predicate GatesOpen() {
      link.available && projection.ready && projection.healthy && lease.active && preference.applied && !projection.busy
    }

    /** The intent is given up, and its lease with it; an interactive user may be asked to look. */
    ghost predicate Abandons(ask: bool, added: seq<Event>) {
      && (lease.mayExist ==> link.destination.Pinned?)
      && added == [IntentWithdrawn] + (if lease.mayExist then To(next, Unregister) else [])
                  + (if ask && pending.interactive then [ControlCenterRequested] else [])
    }

    /** The intent is used up by one connect message that serves it. */
    ghost predicate Connects(added: seq<Event>) {
      && link.destination.Pinned? && |added| == 2 && added[0] == IntentTaken
      && added[1].Sent? && added[1].id == next && added[1].to == link.destination.name && added[1].message.Connect?
      && Carries(added[1].message.call)
    }

    ghost predicate Carries(call: ConnectCall) {
      if pending.group.Chosen? then
        call == ConnectCall.ConnectGroup(pending.group.country, pending.group.kind, pending.group.name)
      else if '#' in pending.target then call == ConnectServer(pending.target)
      else if pending.target != "FASTEST" then call == ConnectCountry(pending.target)
      else if features == [] then call == ConnectFastest
      else call == ConnectFastestWithFeatures(features)
    }

    /** With every gate open the intent is sent, or given up if the account or the state does not admit it. */
    ghost predicate Dispatches(added: seq<Event>) {
      if !pending.Queued() || !GatesOpen() then added == []
      else if !projection.loggedIn || !(projection.auth.SignedIn? || projection.auth.SignedInDegraded?) then Abandons(true, added)
      else if projection.state.Disconnected? then Connects(added)
      else if pending.onlyWhenDisconnected then Abandons(false, added)
      else if projection.state.Connected? || projection.state.Error? then Connects(added)
      else added == []
    }

    /**
     A newly queued intent: out of reach it makes the client ask for authorization, unhealthy it makes it read;
     otherwise its lease and the preference are asked for, and with every gate open it is dispatched.
     */
    ghost predicate Starts(busNamed: bool, added: seq<Event>) {
      if !link.available then
        if link.destination.Pinned? && busNamed && !link.rejected && !link.authorizationPending then added == To(next, Authorize)
        else added == []
      else if !link.destination.Pinned? then added == []
      else if !projection.healthy then added == To(next, GetSnapshot)
      else if GatesOpen() then Dispatches(added)
      else
        var asks := busNamed && !lease.pending && !lease.active;
        added == (if asks then To(next, Register) else [])
                 + (if !preference.applied && !preference.pending
                    then To(if asks then next + 1 else next, SetReconnection(preference.enabled)) else [])
    }

    /** What a fresh authorization asks of the owner: the preference, a read, and the lease of an intent that waited for it. */
    function Greeting(busNamed: bool): seq<Event> {
      if link.destination.NoOwner? then []
      else
        To(next, SetReconnection(preference.enabled)) + To(next + 1, GetSnapshot)
        + if pending.Queued() && busNamed then To(next + 2, Register) else []
    }

    /** A reading is adopted; a rejected one makes the client give up, an accepted one serves it. */
    ghost predicate Adopts(source: Source, payload: Payload, reconciling: bool, added: seq<Event>) {
      && |added| > 0
      && match payload
         case Accepted(r) =>
           && added[0] == ReadingAdopted(source, Healthy(r))
           && this.(projection := Projection(r.ready, true, r.loggedIn, r.busy, r.state, r.auth)).Served(reconciling, added[1..])
         case _ => added[0] == ReadingAdopted(source, Unhealthy) && Abandons(false, added[1..])
    }

    /** The lease a queued intent still lacks is asked for first; then the reading is adopted. */
    ghost predicate TakesReading(busNamed: bool, source: Source, payload: Payload, reconciling: bool, added: seq<Event>) {
      if pending.Queued() && link.generation != 0 && link.available && link.destination.Pinned? && busNamed
         && !lease.pending && !lease.active
      then
        && |added| > 0 && added[..1] == To(next, Register)
        && this.(lease := LeaseFlags(true, false, true, lease.generation + 1), next := next + 1)
             .Adopts(source, payload, reconciling, added[1..])
      else Adopts(source, payload, reconciling, added)
    }

    /** A queued intent is dispatched; without one, an idle reading ends the operation that waited for it, and its lease. */
    ghost predicate Served(reconciling: bool, added: seq<Event>) {
      if reconciling && projection.ready && !projection.busy && !pending.Queued() then
        added == if lease.mayExist && link.destination.Pinned? then To(next, Unregister) else []
      else Dispatches(added)
    }

    /** A client without a lease asks for one, if it can. */
    ghost predicate Registers(busNamed: bool, added: seq<Event>) {
      if link.available && link.destination.Pinned? && busNamed && !lease.pending && !lease.active then added == To(next, Register)
      else added == []
    }

    /** The preference in force is sent, unless it was or is being. */
    ghost predicate Prefers(id: nat, added: seq<Event>) {
      if link.available && link.destination.Pinned? && !preference.pending then added == To(id, SetReconnection(preference.enabled))
      else added == []
    }
  }

  class AgentVpnClient {
    const busNamed: bool                      // the session bus gave this process a unique name
    const completion: OperationCompletion
    var recovery: Recovery
    var link: Link
    var projection: Projection
    var preference: Preference
    var lease: LeaseFlags
    var pending: PendingConnection
    var fastestFeatures: seq<string>
    var bus: Bus
    ghost var trace: Trace
    ghost var outstanding: Outstanding

    // ---- Invariants ----

    /** What every step keeps, also in the middle of an event. */
    ghost predicate Consistent()
      reads this, completion
    {
      && Sound() && OperationInFlight(bus, link, trace.seen.reading.operation, completion.generation)
      && (completion.phase == AwaitingReply ==> trace.seen.reading.operation.Awaiting?)
      && (projection.healthy ==> projection.busy == trace.seen.reading.busy)
    }

    ghost function Now(): Standing
      reads `link, `lease, `outstanding, `trace
    {
      Standing(link, lease.generation, outstanding.lookupId, AskedIn(trace.seen))
    }

    /** The part of it that does not depend on the operation under way. */
    ghost predicate Sound()
      reads this, completion`generation
    {
      && trace.Recorded() && trace.seen.nextId <= bus.next
      && CallsTracked(bus, Now(), completion.generation) && InFlight(bus, Now(), outstanding.preferenceRequest, outstanding.leaseIntent)
      && LookupTracked(link)
      && AuthorizationTracked(trace.seen.owner, link)
      && PreferenceTracked(trace.seen.preference, preference, outstanding.preferenceRequest, link.available)
      && LeaseTracked(trace.seen.lease, lease, outstanding.leaseIntent, pending, link.available) && (lease.mayExist ==> busNamed)
      && IntentTracked(trace.seen.intent.current, pending)
      && ReadingTracked(trace.seen.reading.health, projection)
      && recovery.retries <= MAX_RECOVERY_READS
      && Features.Selection(trace.seen.chosen, fastestFeatures)
    }

    /** A lease is there for a reason: a queued intent, or an operation not settled yet. */
    ghost predicate LeaseJustified()
      reads `lease, `pending, completion
    {
      lease.mayExist ==> pending.Queued() || completion.phase != Idle
    }

    ghost predicate Valid()
      reads this, completion
    {
      Consistent() && LeaseJustified() && !trace.seen.lease.Doubtful?
    }

    // ---- Recording ----

    ghost method Note(e: Event)
      requires trace.Recorded() && Allowed(trace.seen, e)
      modifies `trace
      ensures trace.Recorded() && trace.log == old(trace.log) + [e]
      ensures trace.seen.nextId == if e.Sent? then e.id + 1 else old(trace.seen.nextId)
      ensures trace.seen.open == NextOpen(old(trace.seen.open), e)
      ensures trace.seen.owner == NextOwner(old(trace.seen.owner), e)
      ensures trace.seen.preference == NextPreference(old(trace.seen.preference), e)
      ensures trace.seen.intent == NextIntent(old(trace.seen.intent), e)
      ensures trace.seen.lease == NextLease(old(trace.seen.lease), e)
      ensures trace.seen.reading == NextReading(old(trace.seen.reading), e)
      ensures trace.seen.chosen == if e.FeaturesChosen? then e.features else old(trace.seen.chosen)
    {
      var seen := Next(trace.seen, e);
      Extend(trace.views, trace.log, e);
      trace := Trace(trace.log + [e], trace.views + [seen], seen);
    }

    constructor (busNamed: bool)
      ensures Valid() && trace.log == [] && fresh(completion)
      ensures !lease.mayExist && !pending.Queued() && !link.available
    {
      this.busNamed := busNamed;
      completion := new OperationCompletion();
      recovery := Recovery(false, 0);
      link := Link(0, NoOwner, false, false, false, false, false);
      projection := Projection(false, false, false, false, Unavailable, SignedOut);
      preference := Preference(true, false, false, 0);
      lease := LeaseFlags(false, false, false, 0);
      pending := PendingConnection("", NoGroup, false, false, 0);
      fastestFeatures := [];
      bus := Bus(map[0 := InitialDiscovery], 1);
      trace := Trace([], [START], START);
      outstanding := Outstanding(0, 0, 0);
    }

    // ---- Queries ----

    function Here(): Situation
      reads `link, `projection, `lease, `preference, `pending, `fastestFeatures, `bus
    {
      Situation(link, projection, lease, preference, pending, fastestFeatures, bus.next)
    }

    /** What was added to the history. */
    ghost function Since(oldLog: seq<Event>): seq<Event>
      reads `trace
      requires oldLog <= trace.log
    {
      trace.log[|oldLog|..]
    }

    function Capabilities(): Capabilities
      reads `link, `projection
    {
      ConnectionCapabilities(link.available, projection.ready, projection.healthy, projection.loggedIn,
                             projection.busy, projection.state, projection.auth, true)
    }

    // ---- Steps shared by the events ----

    method ClearPendingConnection(ghost why: Event)
      requires Consistent()
      requires why == IntentWithdrawn || why == DisconnectRequested || (why == IntentTaken && pending.Queued())
      modifies `pending, `trace
      ensures Consistent() && !pending.Queued() && pending.generation == old(pending.generation) + 1
      ensures trace.log == old(trace.log) + [why]
      ensures trace.seen.intent == NextIntent(old(trace.seen.intent), why)
      ensures trace.seen.owner == old(trace.seen.owner) && trace.seen.preference == old(trace.seen.preference)
      ensures trace.seen.lease == old(trace.seen.lease) && trace.seen.reading == old(trace.seen.reading)
      ensures pending == PendingConnection("", NoGroup, false, false, old(pending.generation) + 1)
      ensures trace.seen.chosen == old(trace.seen.chosen)
    {
      Note(why);
      pending := pending.Clear();
    }

    method ReleaseTransientLease()
      requires Consistent()
      modifies `lease, `bus, `trace
      ensures Consistent() && !lease.mayExist
      ensures trace.seen.owner == old(trace.seen.owner) && trace.seen.preference == old(trace.seen.preference)
      ensures trace.seen.intent.current == old(trace.seen.intent.current) && trace.seen.reading == old(trace.seen.reading)
      ensures trace.seen.intent.abandoned == old(trace.seen.intent.abandoned)
      ensures old(lease.mayExist) ==> trace.log == old(trace.log) + [Sent(old(bus.next), link.destination.name, Unregister)]
      ensures !old(lease.mayExist) ==> trace.log == old(trace.log)
      ensures bus.next == old(bus.next) + (if old(lease.mayExist) then 1 else 0) && bus.calls == old(bus.calls)
      ensures if old(lease.mayExist) then lease == LeaseFlags(false, false, false, old(lease.generation) + 1) else lease == old(lease)
    {
      hide Run, PreferenceTracked, IntentTracked;
      if !lease.mayExist && !lease.pending && !lease.active {
        return;
      }
      lease := LeaseFlags(false, false, false, lease.generation + 1);
      if !busNamed || !link.available || link.destination.NoOwner? {
        return;
      }
      Note(Sent(bus.next, link.destination.name, Unregister));
      bus := bus.Skip();
    }

    /** Gives up the queued intent together with its lease; an interactive user may be asked to look. */
    method AbandonIntent(ask: bool)
      requires Consistent()
      modifies `lease, `pending, `bus, `trace
      ensures old(trace.log) <= trace.log
      ensures Valid() && !pending.Queued() && !lease.mayExist
      ensures trace.seen.preference == old(trace.seen.preference)
      ensures old(Here()).Abandons(ask, Since(old(trace.log)))
    {
      hide Run, LookupTracked, PreferenceTracked, ReadingTracked, OperationInFlight, ConnectPermitted, CallsTracked, InFlight,
           CallTracked, SendPermitted, Allowed;
      var interactive := ask && pending.interactive;
      ClearPendingConnection(IntentWithdrawn);
      ReleaseTransientLease();
      if interactive {
        RequestControlCenter();
      }
    }

    method RequestControlCenter()
      requires Valid() && Allowed(trace.seen, ControlCenterRequested)
      modifies `trace
      ensures trace.log == old(trace.log) + [ControlCenterRequested]
      ensures Valid() && trace.seen.preference == old(trace.seen.preference)
    {
      Note(ControlCenterRequested);
    }

    method AcquireTransientLease()
      requires Consistent() && pending.Queued() && !trace.seen.lease.Doubtful?
      modifies `lease, `bus, `trace, `outstanding
      ensures old(trace.log) <= trace.log
      ensures Consistent() && !trace.seen.lease.Doubtful?
      ensures lease.active == old(lease.active) && (lease.active ==> lease == old(lease))
      ensures link.available && busNamed ==> lease.mayExist
      ensures trace.seen.owner == old(trace.seen.owner) && trace.seen.preference == old(trace.seen.preference)
      ensures trace.seen.intent.current == old(trace.seen.intent.current) && trace.seen.reading == old(trace.seen.reading)
      ensures old(Here()).Registers(busNamed, Since(old(trace.log)))
      ensures if Since(old(trace.log)) == [] then lease == old(lease) && bus == old(bus)
              else
                && link.destination.Pinned? && lease == LeaseFlags(true, false, true, old(lease.generation) + 1)
                && bus == old(bus).Add(LeaseCall(link.generation, link.destination.name, lease.generation, pending.generation))
    {
      hide Run, LookupTracked, PreferenceTracked, ReadingTracked, OperationInFlight, ConnectPermitted;
      if !link.available || lease.pending || lease.active {
        return;
      }
      if !busNamed {
        return;
      }
      ghost var (before, asked) := (Now(), outstanding);
      lease := LeaseFlags(true, false, true, lease.generation + 1);
      Note(Sent(bus.next, link.destination.name, Register));
      outstanding := outstanding.(leaseIntent := pending.generation);
      MessageLeavesRest(bus, before, Now(), completion.generation,
                        LeaseCall(link.generation, link.destination.name, lease.generation, pending.generation),
                        asked.preferenceRequest, outstanding.preferenceRequest, asked.leaseIntent, outstanding.leaseIntent);
      bus := bus.Add(LeaseCall(link.generation, link.destination.name, lease.generation, pending.generation));
    }

    /** The pinned owner may be asked for authorization. */
    predicate AuthorizationDue()
      reads `link
    {
      link.destination.Pinned? && busNamed && !link.rejected
    }

    /** One message was sent, and its call is in flight. */
    ghost predicate AskedFor(message: Message, call: Call, oldBus: Bus, oldLog: seq<Event>)
      reads `link, `bus, `trace
    {
      && link.destination.Pinned? && bus == oldBus.Add(call)
      && trace.log == oldLog + [Sent(oldBus.next, link.destination.name, message)]
    }

    method AuthorizeClient()
      requires Consistent() && !link.available
      modifies `link, `bus, `trace
      ensures old(trace.log) <= trace.log
      ensures Consistent() && link == old(link).(authorizationPending := link.authorizationPending)
      ensures link.authorizationPending == (old(link.authorizationPending) || AuthorizationDue())
      ensures if old(link.authorizationPending) || !AuthorizationDue() then trace == old(trace) && bus == old(bus)
              else AskedFor(Authorize, AuthorizeCall(link.generation, link.destination.name), old(bus), old(trace.log))
      ensures trace.seen.preference == old(trace.seen.preference) && trace.seen.lease == old(trace.seen.lease)
      ensures trace.seen.intent.current == old(trace.seen.intent.current) && trace.seen.reading == old(trace.seen.reading)
    {
      hide Run, PreferenceTracked, LeaseTracked, IntentTracked, ReadingTracked, OperationInFlight, ConnectPermitted;
      if link.authorizationPending || link.rejected || link.destination.NoOwner? {
        return;
      }
      if !busNamed {
        return;
      }
      ghost var (before, asked) := (Now(), outstanding);
      link := link.(authorizationPending := true);
      Note(Sent(bus.next, link.destination.name, Authorize));
      MessageLeavesRest(bus, before, Now(), completion.generation, AuthorizeCall(link.generation, link.destination.name),
                        asked.preferenceRequest, outstanding.preferenceRequest, asked.leaseIntent, outstanding.leaseIntent);
      bus := bus.Add(AuthorizeCall(link.generation, link.destination.name));
    }

    method ScheduleRecoveryRead()
      modifies `recovery
      ensures old(recovery.retries) <= MAX_RECOVERY_READS ==> recovery.retries <= MAX_RECOVERY_READS
      ensures link.destination.Pinned? && !link.rejected && old(recovery.retries) < MAX_RECOVERY_READS ==> recovery.timerActive
      ensures recovery == if link.destination.Pinned? && !link.rejected && !old(recovery.timerActive)
                             && old(recovery.retries) < MAX_RECOVERY_READS
                          then Recovery(true, old(recovery.retries) + 1) else old(recovery)
    {
      if link.destination.Pinned? && !link.rejected && !recovery.timerActive && recovery.retries < MAX_RECOVERY_READS {
        recovery := Recovery(true, recovery.retries + 1);
      }
    }

    /** A read of the pinned owner's state, stamped with an operation. */
    function ReadOf(operation: nat): Call
      reads `link
      requires link.destination.Pinned?
    {
      SnapshotCall(link.generation, link.destination.name, operation)
    }

    method RequestSnapshot(allowActivation: bool, operation: nat)
      requires Consistent() && operation <= completion.generation
      modifies `link, `bus, `trace, `outstanding
      ensures old(trace.log) <= trace.log
      ensures Consistent()
      ensures link == old(link).(authorizationPending := link.authorizationPending, discoveryPending := link.discoveryPending)
      ensures if link.available then
                link == old(link) && AskedFor(GetSnapshot, ReadOf(if operation == 0 then completion.generation else operation),
                                              old(bus), old(trace.log))
              else if link.destination.Pinned? then
                && link == old(link).(authorizationPending := old(link.authorizationPending) || AuthorizationDue())
                && if AuthorizationDue() && !old(link.authorizationPending) then
                     AskedFor(Authorize, AuthorizeCall(link.generation, link.destination.name), old(bus), old(trace.log))
                   else trace == old(trace) && bus == old(bus)
              else
                var due := allowActivation && !old(link.discoveryPending) && !link.identityPending;
                && trace == old(trace)
                && link == old(link).(discoveryPending := old(link.discoveryPending) || due)
                && bus == if due then old(bus).Add(Discovery(link.generation)) else old(bus)
      ensures trace.seen.preference == old(trace.seen.preference) && trace.seen.lease == old(trace.seen.lease)
      ensures trace.seen.intent.current == old(trace.seen.intent.current)
      ensures trace.seen.reading.health == old(trace.seen.reading.health)
    {
      if !link.available || link.destination.NoOwner? {
        if link.destination.Pinned? {
          AuthorizeClient();
          return;
        }
        if allowActivation && !link.discoveryPending && !link.identityPending {
          Discover();
        }
        return;
      }
      SendRead(if operation == 0 then completion.generation else operation);
    }

    method Discover()
      requires Consistent() && link.destination.NoOwner? && !link.discoveryPending && !link.identityPending
      modifies `link, `bus, `outstanding
      ensures Consistent() && link == old(link).(discoveryPending := true)
      ensures bus == old(bus).Add(Discovery(link.generation))
    {
      link := link.(discoveryPending := true);
      outstanding := outstanding.(lookupId := bus.next);
      bus := bus.Add(Discovery(link.generation));
    }

    method SendRead(request: nat)
      requires Consistent() && link.available && link.destination.Pinned? && request <= completion.generation
      modifies `bus, `trace
      ensures old(trace.log) <= trace.log
      ensures Consistent() && AskedFor(GetSnapshot, ReadOf(request), old(bus), old(trace.log))
      ensures trace.seen.preference == old(trace.seen.preference) && trace.seen.lease == old(trace.seen.lease)
      ensures trace.seen.intent.current == old(trace.seen.intent.current)
      ensures trace.seen.reading.health == old(trace.seen.reading.health)
    {
      hide Run, LookupTracked, PreferenceTracked, LeaseTracked, IntentTracked, ReadingTracked, OperationInFlight, ConnectPermitted;
      ghost var (before, asked) := (Now(), outstanding);
      Note(Sent(bus.next, link.destination.name, GetSnapshot));
      MessageLeavesRest(bus, before, Now(), completion.generation, SnapshotCall(link.generation, link.destination.name, request),
                        asked.preferenceRequest, outstanding.preferenceRequest, asked.leaseIntent, outstanding.leaseIntent);
      bus := bus.Add(SnapshotCall(link.generation, link.destination.name, request));
    }

    method ApplyReconnectionPreference()
      requires Consistent()
      modifies `preference, `bus, `trace, `outstanding
      ensures old(trace.log) <= trace.log
      ensures Consistent() && preference.enabled == old(preference.enabled)
      ensures preference.applied ==> old(preference.applied)
      ensures link.available ==> preference.pending
      ensures trace.seen.owner == old(trace.seen.owner) && trace.seen.lease == old(trace.seen.lease)
      ensures trace.seen.intent.current == old(trace.seen.intent.current) && trace.seen.reading == old(trace.seen.reading)
      ensures old(Here()).Prefers(old(bus.next), Since(old(trace.log)))
      ensures if Since(old(trace.log)) == [] then preference == old(preference) && bus == old(bus)
              else
                && link.destination.Pinned? && preference == old(preference).(applied := false, pending := true)
                && bus == old(bus).Add(PreferenceCall(link.generation, link.destination.name, preference.generation))
    {
      if !link.available || preference.pending {
        return;
      }
      SendPreference();
    }

    method SendPreference()
      requires Consistent() && link.available && !preference.pending
      modifies `preference, `bus, `trace, `outstanding
      ensures link.destination.Pinned?
      ensures bus == old(bus).Add(PreferenceCall(link.generation, link.destination.name, preference.generation))
      ensures trace.log == old(trace.log) + [Sent(old(bus.next), link.destination.name, SetReconnection(preference.enabled))]
      ensures Consistent() && preference == old(preference).(applied := false, pending := true)
      ensures trace.seen.owner == old(trace.seen.owner) && trace.seen.lease == old(trace.seen.lease)
      ensures trace.seen.intent.current == old(trace.seen.intent.current) && trace.seen.reading == old(trace.seen.reading)
    {
      hide Run, LookupTracked, LeaseTracked, IntentTracked, ReadingTracked, OperationInFlight, ConnectPermitted;
      ghost var (before, asked) := (Now(), outstanding);
      preference := preference.(applied := false, pending := true);
      Note(Sent(bus.next, link.destination.name, SetReconnection(preference.enabled)));
      outstanding := outstanding.(preferenceRequest := preference.generation);
      MessageLeavesRest(bus, before, Now(), completion.generation, PreferenceCall(link.generation, link.destination.name, preference.generation),
                        asked.preferenceRequest, outstanding.preferenceRequest, asked.leaseIntent, outstanding.leaseIntent);
      bus := bus.Add(PreferenceCall(link.generation, link.destination.name, preference.generation));
    }

    /** Starts the operation that owns the lease from here on. */
    method CallOperation(message: Message)
      requires Consistent()
      requires message.Connect? || message.Disconnect?
      requires link.available ==> SendPermitted(trace.seen, message)
      modifies completion, `projection, `bus, `trace, `outstanding
      ensures old(trace.log) <= trace.log
      ensures Consistent()
      ensures link.available ==>
                && completion.phase == AwaitingReply && completion.generation == old(completion.generation) + 1
                && trace.log == old(trace.log) + [Sent(old(bus.next), link.destination.name, message)]
      ensures projection == old(projection).(busy := old(projection.busy) || link.available)
      ensures trace.seen.lease == old(trace.seen.lease)
    {
      if !link.available || link.destination.NoOwner? {
        return;
      }
      SendOperation(message);
    }

    method SendOperation(message: Message)
      requires Consistent() && link.available && link.destination.Pinned? && SendPermitted(trace.seen, message)
      requires message.Connect? || message.Disconnect?
      modifies completion, `projection, `bus, `trace
      ensures Consistent() && completion.phase == AwaitingReply && completion.generation == old(completion.generation) + 1
      ensures projection == old(projection).(busy := true)
      ensures trace.log == old(trace.log) + [Sent(old(bus.next), link.destination.name, message)]
      ensures trace.seen.lease == old(trace.seen.lease)
    {
      var operation := completion.Begin();
      AddOperation(message, operation);
    }

    method AddOperation(message: Message, operation: nat)
      requires Sound() && link.available && link.destination.Pinned? && SendPermitted(trace.seen, message)
      requires message.Connect? || message.Disconnect?
      requires operation == completion.generation && NoneStamped(bus, operation)
      modifies `projection, `bus, `trace
      ensures Consistent() && trace.seen.lease == old(trace.seen.lease)
      ensures trace.log == old(trace.log) + [Sent(old(bus.next), link.destination.name, message)]
      ensures projection == old(projection).(busy := true)
    {
      hide Run, LookupTracked, PreferenceTracked, LeaseTracked, IntentTracked, ConnectPermitted;
      ghost var before := Now();
      projection := projection.(busy := true);
      Note(Sent(bus.next, link.destination.name, message));
      OperationKeepsCalls(bus, before, Now(), operation, OperationCall(link.generation, link.destination.name, operation));
      bus := bus.Add(OperationCall(link.generation, link.destination.name, operation));
    }

    /** Every gate between a queued intent and its message is open. */
    predicate GatesOpen()
      reads `link, `projection, `lease, `preference
    {
      && link.available && projection.ready && projection.healthy && lease.active && preference.applied
      && !projection.busy
    }

    /** Nothing, not even the state the intent waits for, stands between a queued intent and its message. */
    predicate ConnectDue()
      reads `link, `projection, `lease, `preference, `pending
    {
      GatesOpen() && Capabilities().connect && (pending.onlyWhenDisconnected ==> projection.state.Disconnected?)
    }

    /** A connect message was the last thing to happen, and a new operation waits for its reply. */
    ghost predicate Dispatched(before: nat)
      reads `pending, `trace, completion
    {
      && !pending.Queued() && completion.phase == AwaitingReply && completion.generation == before + 1
      && |trace.log| > 0 && trace.log[|trace.log| - 1].Sent? && trace.log[|trace.log| - 1].message.Connect?
    }

    /** The message a queued connection becomes. */
    function ConnectMessage(): (call: ConnectCall)
      requires pending.Queued()
      reads `pending, `fastestFeatures
      ensures Requested(call) == pending.Goal()
    {
      if pending.group.Chosen? then ConnectCall.ConnectGroup(pending.group.country, pending.group.kind, pending.group.name)
      else if pending.target == FASTEST then
        if fastestFeatures == [] then ConnectFastest else ConnectFastestWithFeatures(fastestFeatures)
      else if '#' in pending.target then ConnectServer(pending.target)
      else ConnectCountry(pending.target)
    }

    /** A connect message left. */
    static predicate Sends(added: seq<Event>) {
      |added| == 2 && added[0] == IntentTaken
    }

    method DispatchPendingConnection()
      requires Valid()
      modifies completion, `projection, `lease, `pending, `bus, `trace, `outstanding
      ensures old(trace.log) <= trace.log
      ensures Valid()
      ensures old(!pending.Queued() || !GatesOpen()) ==>
                pending == old(pending) && lease == old(lease) && trace == old(trace)
      ensures old(pending.Queued() && ConnectDue()) ==> Dispatched(old(completion.generation))
      ensures pending.Queued() ==> pending == old(pending) && lease == old(lease) && !(GatesOpen() && Capabilities().connect)
      ensures completion.generation == old(completion.generation) ==> completion.phase == old(completion.phase)
      ensures projection == old(projection).(busy := projection.busy)
      ensures old(Here()).Dispatches(Since(old(trace.log)))
      ensures completion.generation == old(completion.generation) + (if Sends(Since(old(trace.log))) then 1 else 0)
      ensures projection == old(projection).(busy := old(projection.busy) || Sends(Since(old(trace.log))))
      ensures Since(old(trace.log)) == [] ==> pending == old(pending) && lease == old(lease) && bus == old(bus)
      ensures Since(old(trace.log)) != [] ==> !pending.Queued() && (Sends(Since(old(trace.log))) || !lease.mayExist)
      ensures completion.generation != old(completion.generation) ==>
                && Dispatched(old(completion.generation))
                && var (call, group, target) := (trace.log[|trace.log| - 1].message.call, old(pending.group), old(pending.target));
                if group.Chosen? then call == ConnectCall.ConnectGroup(group.country, group.kind, group.name)
                else if '#' in target then call == ConnectServer(target)
                else if target == "FASTEST" then
                  call == if |fastestFeatures| == 0 then ConnectFastest else ConnectFastestWithFeatures(fastestFeatures)
                else call == ConnectCountry(target)
    {
      hide Run, LookupTracked, PreferenceTracked, LeaseTracked, IntentTracked, ReadingTracked, AuthorizationTracked, OperationInFlight,
           ConnectPermitted, CallsTracked, InFlight, CallTracked, SendPermitted, Allowed;
      if !pending.Queued() || !link.available || !projection.ready || !projection.healthy || !lease.active
         || !preference.applied || projection.busy {
        return;
      }
      if !projection.loggedIn || !AccountAllowsConnection(projection.auth) {
        AbandonIntent(true);
        return;
      }
      if pending.onlyWhenDisconnected && !projection.state.Disconnected? {
        AbandonIntent(false);
        return;
      }
      if !Capabilities().connect {
        return;
      }
      SendIntent();
    }

    /** The queued intent becomes one connect message. */
    method SendIntent()
      requires Valid() && pending.Queued() && ConnectDue()
      modifies completion, `projection, `pending, `bus, `trace, `outstanding
      ensures Valid() && Dispatched(old(completion.generation)) && old(trace.log) <= trace.log
      ensures projection == old(projection).(busy := true)
      ensures old(Here()).Connects(Since(old(trace.log)))
      ensures completion.generation == old(completion.generation) + 1 && lease == old(lease)
    {
      hide Run, LookupTracked, PreferenceTracked, LeaseTracked, IntentTracked, ReadingTracked, AuthorizationTracked,
           OperationInFlight, ConnectPermitted, CallsTracked, InFlight, CallTracked, SendPermitted, Allowed;
      var call := TakeIntent();
      CallOperation(Message.Connect(call));
    }

    /** The queued intent is used up, and the message it becomes may leave. */
    method TakeIntent() returns (call: ConnectCall)
      requires Valid() && pending.Queued() && ConnectDue()
      modifies `pending, `trace
      ensures Consistent() && !pending.Queued() && SendPermitted(trace.seen, Message.Connect(call))
      ensures trace.log == old(trace.log) + [IntentTaken] && trace.seen.lease == old(trace.seen.lease)
      ensures link.destination.Pinned? && old(Here()).Carries(call)
    {
      hide Run, LookupTracked, OperationInFlight, CallsTracked, InFlight, CallTracked;
      call := ConnectMessage();
      ConnectServes(call, pending.Goal(), trace.seen.chosen, fastestFeatures);
      ClearPendingConnection(IntentTaken);
    }

    // ---- User calls ----

    method SetReconnectionEnabled(enabled: bool)
      requires Valid()
      modifies `preference, `bus, `trace, `outstanding
      ensures Valid() && old(trace.log) <= trace.log
      ensures preference.enabled == enabled
      ensures link.available ==> preference.applied || preference.pending
      ensures Since(old(trace.log)) == [PreferenceChosen(enabled)]
                + if link.available && link.destination.Pinned? && !old(preference.pending)
                     && !(old(preference.enabled) == enabled && old(preference.applied))
                  then [Sent(old(bus.next), link.destination.name, SetReconnection(enabled))] else []
      ensures preference.applied ==> old(preference.applied) && old(preference.enabled) == enabled
      ensures enabled != old(preference.enabled) ==> preference.generation == old(preference.generation) + 1
    {
      hide Run, LookupTracked, LeaseTracked, IntentTracked, ReadingTracked, AuthorizationTracked, OperationInFlight,
           ConnectPermitted, CallsTracked, InFlight, CallTracked;
      if preference.enabled == enabled && preference.applied {
        Note(PreferenceChosen(enabled));
        return;
      }
      ChoosePreference(enabled);
      ghost var chosen := trace.log;
      if link.available {
        ApplyReconnectionPreference();
      }
      assert Since(old(trace.log)) == [PreferenceChosen(enabled)] + Since(chosen);
    }

    /** Stores the choice; a call in flight for another one turns into an outdated request. */
    method ChoosePreference(enabled: bool)
      requires Valid()
      modifies `preference, `trace
      ensures Valid() && trace.log == old(trace.log) + [PreferenceChosen(enabled)]
      ensures preference == Preference(enabled, false, old(preference.pending),
                                       old(preference.generation) + if enabled != old(preference.enabled) then 1 else 0)
    {
      hide Run, LeaseTracked, ReadingTracked, AuthorizationTracked, OperationInFlight, InFlight, CallsTracked;
      Note(PreferenceChosen(enabled));
      var generation := if preference.enabled != enabled then preference.generation + 1 else preference.generation;
      preference := Preference(enabled, false, preference.pending, generation);
    }

    method SetFastestFeatures(features: seq<string>)
      requires Valid()
      modifies `fastestFeatures, `trace
      ensures trace.log == old(trace.log) + [FeaturesChosen(features)]
      ensures Valid() && Features.Selection(features, fastestFeatures)
    {
      Note(FeaturesChosen(features));
      fastestFeatures := Features.NormalizedServerFeatures(features);
    }

    /** What both kinds of request do once their intent is queued. */
    method ServeQueuedIntent()
      requires Valid() && pending.Queued()
      modifies completion, `link, `recovery, `projection, `preference, `lease, `pending, `bus, `trace, `outstanding
      ensures old(trace.log) <= trace.log
      ensures Valid()
      ensures old(!GatesOpen()) ==> pending == old(pending)
      ensures old(!GatesOpen() && link.available && projection.healthy) ==>
                (busNamed ==> lease.mayExist) && (preference.applied || preference.pending)
      ensures old(ConnectDue()) ==> Dispatched(old(completion.generation))
      ensures old(Here()).Starts(busNamed, Since(old(trace.log)))
      ensures if !link.available || !old(projection.healthy) then recovery == old(recovery).(retries := 0) else recovery == old(recovery)
      ensures link.destination.NoOwner? && !link.identityPending ==>
                link.discoveryPending && (old(link.discoveryPending) || bus == old(bus).Add(Discovery(link.generation)))
    {
      hide Run, LookupTracked, PreferenceTracked, IntentTracked, ReadingTracked, AuthorizationTracked, OperationInFlight,
           ConnectPermitted, CallsTracked, InFlight, CallTracked, SendPermitted, Allowed;
      if !link.available || !projection.healthy {
        recovery := recovery.(retries := 0);
        RequestSnapshot(true, 0);
        return;
      }
      Prepare();
      DispatchPendingConnection();
    }

    /** Asks for whatever the queued intent still needs of the owner. */
    method Prepare()
      requires Valid() && pending.Queued() && link.available
      modifies `preference, `lease, `bus, `trace, `outstanding
      ensures Valid() && old(trace.log) <= trace.log && link.destination.Pinned?
      ensures (busNamed ==> lease.mayExist) && (preference.applied || preference.pending)
      ensures GatesOpen() == old(GatesOpen())
      ensures if old(GatesOpen()) then preference == old(preference) && lease == old(lease) && bus == old(bus) && trace.log == old(trace.log)
              else
                var asks := busNamed && !old(lease.pending) && !old(lease.active);
                Since(old(trace.log)) == (if asks then old(Here()).To(old(bus.next), Register) else [])
                  + if !old(preference.applied) && !old(preference.pending)
                    then old(Here()).To(old(bus.next) + (if asks then 1 else 0), SetReconnection(old(preference.enabled))) else []
    {
      hide Run, LookupTracked, IntentTracked, ReadingTracked, OperationInFlight, ConnectPermitted, CallsTracked, InFlight,
           CallTracked, SendPermitted, Allowed;
      AcquireTransientLease();
      if !preference.applied {
        ApplyReconnectionPreference();
      }
    }

    method QueueConnection(target: string, interactive: bool, onlyWhenDisconnected: bool)
      requires Valid()
      modifies completion, `link, `recovery, `projection, `preference, `lease, `pending, `bus, `trace, `outstanding
      ensures Valid()
      ensures var text := Text.Upper(Text.Trim(target));
              if !ValidTarget(text) then trace == old(trace) && pending == old(pending)
              else Enqueued(PendingConnection(text, NoGroup, interactive, onlyWhenDisconnected, old(pending.generation) + 1),
                            old(Here()), old(trace.log))
    {
      var text := Text.Upper(Text.Trim(target));
      if !ValidTarget(text) {
        return;
      }
      Enqueue(PendingConnection(text, NoGroup, interactive, onlyWhenDisconnected, pending.generation + 1));
      ServeQueuedIntent();
    }

    /** The history says that the user queued this intent, and then what serving it adds; it waits unless it could be served at once. */
    ghost predicate Enqueued(newer: PendingConnection, before: Situation, oldLog: seq<Event>)
      reads `pending, `trace
    {
      var queued := oldLog + [IntentQueued(Intent(newer.Goal(), newer.interactive, newer.onlyWhenDisconnected))];
      && queued <= trace.log && before.(pending := newer).Starts(busNamed, trace.log[|queued|..])
      && (before.GatesOpen() || pending == newer)
    }

    /** A new intent takes the place of an older one. */
    method Enqueue(newer: PendingConnection)
      requires Consistent() && newer.Queued() && newer.generation == pending.generation + 1
      requires newer.group.Chosen? ==> newer.target == ""
      modifies `pending, `trace
      ensures Consistent() && pending == newer && trace.seen.lease == old(trace.seen.lease)
      ensures trace.log == old(trace.log) + [IntentQueued(Intent(newer.Goal(), newer.interactive, newer.onlyWhenDisconnected))]
    {
      Note(IntentQueued(Intent(newer.Goal(), newer.interactive, newer.onlyWhenDisconnected)));
      pending := newer;
    }

    method ConnectGroup(country: string, kind: string, name: string)
      requires Valid()
      modifies completion, `link, `recovery, `projection, `preference, `lease, `pending, `bus, `trace, `outstanding
      ensures Valid()
      ensures var (c, k, n) := (Text.Upper(Text.Trim(country)), Text.Lower(Text.Trim(kind)), Text.Trim(name));
              if !ServerGroups.IsGroup(c, k, n) then trace == old(trace) && pending == old(pending)
              else Enqueued(PendingConnection("", Chosen(c, k, n), true, false, old(pending.generation) + 1),
                            old(Here()), old(trace.log))
    {
      hide Run, LookupTracked, PreferenceTracked, LeaseTracked, IntentTracked, ReadingTracked, AuthorizationTracked, OperationInFlight,
           ConnectPermitted, CallsTracked, InFlight, CallTracked, SendPermitted, Allowed;
      var c, k, n := Text.Upper(Text.Trim(country)), Text.Lower(Text.Trim(kind)), Text.Trim(name);
      if !ServerGroups.IsGroup(c, k, n) {
        return;
      }
      Enqueue(PendingConnection("", Chosen(c, k, n), true, false, pending.generation + 1));
      ServeQueuedIntent();
    }

    method AutoConnect(target: string)
      requires Valid()
      modifies completion, `link, `recovery, `projection, `preference, `lease, `pending, `bus, `trace, `outstanding
      ensures Valid()
      ensures var text := Text.Upper(Text.Trim(target));
              if !ValidTarget(text) then trace == old(trace) && pending == old(pending)
              else Enqueued(PendingConnection(text, NoGroup, false, true, old(pending.generation) + 1), old(Here()), old(trace.log))
    {
      QueueConnection(target, false, true);
    }

    method ConnectTarget(target: string)
      requires Valid()
      modifies completion, `link, `recovery, `projection, `preference, `lease, `pending, `bus, `trace, `outstanding
      ensures Valid()
      ensures var text := Text.Upper(Text.Trim(target));
              if !ValidTarget(text) then trace == old(trace) && pending == old(pending)
              else Enqueued(PendingConnection(text, NoGroup, true, false, old(pending.generation) + 1), old(Here()), old(trace.log))
    {
      QueueConnection(target, true, false);
    }

    method ActivatePrimaryAction()
      requires Valid()
      modifies completion, `link, `recovery, `projection, `preference, `lease, `pending, `bus, `trace, `outstanding
      ensures Valid()
      ensures var (l, p) := (old(link), old(projection));
              if !l.available || (p.ready && p.healthy && p.state.Disconnected? && !p.busy && p.loggedIn
                                  && (p.auth.SignedIn? || p.auth.SignedInDegraded?))
              then Enqueued(PendingConnection(FASTEST, NoGroup, true, false, old(pending.generation) + 1), old(Here()), old(trace.log))
              else if p.ready && p.healthy && (p.state.Connected? || p.state.Connecting? || p.state.Error?) then
                && !pending.Queued() && link.destination.Pinned?
                && trace.log == old(trace.log) + [DisconnectRequested, Sent(old(bus.next), link.destination.name, Message.Disconnect)]
              else trace == old(trace) && pending == old(pending)
    {
      var can := Capabilities();
      if if can.primaryDisconnects then !can.disconnect else !(can.connect || can.activate) {
        return;
      }
      if can.primaryDisconnects {
        DisconnectVpn();
        return;
      }
      QueueFastest();
    }

    method QueueFastest()
      requires Valid()
      modifies completion, `link, `recovery, `projection, `preference, `lease, `pending, `bus, `trace, `outstanding
      ensures Valid()
      ensures Enqueued(PendingConnection(FASTEST, NoGroup, true, false, old(pending.generation) + 1), old(Here()), old(trace.log))
    {
      hide Run, LookupTracked, PreferenceTracked, LeaseTracked, IntentTracked, ReadingTracked, AuthorizationTracked, OperationInFlight,
           ConnectPermitted, CallsTracked, InFlight, CallTracked, SendPermitted, Allowed;
      Text.NormalCodeIsKept(FASTEST);
      QueueConnection(FASTEST, true, false);
    }

    /** A healthy owner has a connection to end, or is about to make one. */
    predicate CanDisconnect()
      reads `link, `projection
    {
      && link.available && projection.ready && projection.healthy
      && match projection.state
         case Connected => true
         case Connecting => true
         case Error => true
         case Disconnected => projection.busy
         case _ => false
    }

    /** Disconnect is the newer intent even when the backend cannot accept it yet. */
    method DisconnectVpn()
      requires Valid()
      modifies completion, `projection, `lease, `pending, `bus, `trace, `outstanding
      ensures Valid() && !pending.Queued()
      ensures old(trace.log) + [DisconnectRequested] <= trace.log
      ensures old(CanDisconnect()) ==>
                && completion.phase == AwaitingReply && completion.generation == old(completion.generation) + 1
                && trace.log == old(trace.log) + [DisconnectRequested, Sent(old(bus.next), link.destination.name, Message.Disconnect)]
      ensures !old(CanDisconnect()) ==>
                && !lease.mayExist && completion.phase == old(completion.phase)
                && trace.log == old(trace.log) + [DisconnectRequested]
                     + if old(lease.mayExist) then [Sent(old(bus.next), link.destination.name, Unregister)] else []
    {
      hide Run, LookupTracked, PreferenceTracked, IntentTracked, OperationInFlight, ConnectPermitted, CallsTracked, InFlight;
      ClearPendingConnection(DisconnectRequested);
      if !Capabilities().disconnect {
        ReleaseTransientLease();
        return;
      }
      CallOperation(Message.Disconnect);
    }

    // ---- Owner events ----

    /** Whatever the previous owner was told or asked is void; calls to it stay in flight but turn stale. */
    method ForgetOwner(ghost why: Event)
      requires Valid() && (why == OwnerAppeared || why == OwnerLost)
      modifies completion, `recovery, `link, `projection, `preference, `lease, `trace
      ensures Valid() && trace.log == old(trace.log) + [why]
      ensures link == Link(old(link.generation) + 1, NoOwner, false, false, false, false, false)
      ensures projection == old(projection).(healthy := false)
      ensures !lease.mayExist && completion.phase == Idle && recovery == Recovery(false, 0)
    {
      completion.Invalidate();
      recovery := Recovery(false, 0);
      Detach(why);
    }

    /** Nothing that was asked of the owner, or acknowledged by it, holds any more. */
    method Detach(ghost why: Event)
      requires Sound() && completion.phase == Idle && (why == OwnerAppeared || why == OwnerLost)
      modifies `link, `projection, `preference, `lease, `trace
      ensures Valid() && trace.log == old(trace.log) + [why] && !lease.mayExist
      ensures link == Link(old(link.generation) + 1, NoOwner, false, false, false, false, false)
      ensures projection == old(projection).(healthy := false)
    {
      hide Run, IntentTracked, ConnectPermitted, SendPermitted, CallsTracked, InFlight, CallTracked;
      ghost var before := Now();
      Note(why);
      projection := projection.(healthy := false);
      lease := LeaseFlags(false, false, false, lease.generation + 1);
      link := Link(link.generation + 1, NoOwner, false, false, false, false, false);
      preference := preference.(applied := false, pending := false);
      EarlierCallsAreStale(bus, before, Now(), completion.generation, completion.generation,
                           outstanding.preferenceRequest, outstanding.leaseIntent);
    }

    method OnServiceRegistered()
      requires Valid()
      modifies completion, `recovery, `link, `projection, `preference, `lease, `bus, `trace, `outstanding
      ensures Valid() && trace.log == old(trace.log) + [OwnerAppeared]
      ensures link == Link(old(link.generation) + 1, NoOwner, false, false, true, false, false)
      ensures bus.Has(old(bus.next), Identity(link.generation))
      ensures !lease.mayExist && !projection.healthy && completion.phase == Idle
    {
      ForgetOwner(OwnerAppeared);
      link := link.(identityPending := true);
      outstanding := outstanding.(lookupId := bus.next);
      bus := bus.Add(Identity(link.generation));
    }

    method OnServiceUnregistered()
      requires Valid()
      modifies completion, `recovery, `link, `projection, `preference, `lease, `trace
      ensures Valid() && trace.log == old(trace.log) + [OwnerLost]
      ensures link == Link(old(link.generation) + 1, NoOwner, false, false, false, false, false)
      ensures projection == Projection(false, false, false, false, Unavailable, SignedOut)
      ensures !lease.mayExist && completion.phase == Idle
    {
      ForgetOwner(OwnerLost);
      projection := Projection(false, false, false, false, Unavailable, SignedOut);
    }

    // ---- Completions; each takes the call that completes out of flight ----

    /** A new owner was found, and its identity is being looked up. */
    ghost predicate OwnerFound(oldGeneration: nat, oldNext: nat, oldLog: seq<Event>)
      reads `link, `bus, `trace
    {
      && link == Link(oldGeneration + 1, NoOwner, false, false, true, false, false)
      && bus.Has(oldNext, Identity(link.generation)) && trace.log == oldLog + [OwnerAppeared]
    }

    /** An answer to a look-up of an earlier owner, or to the one at start, changes nothing but the calls in flight. */
    method DropLookup(id: nat)
      requires Valid() && id in bus.calls && !bus.calls[id].ToOwner()
      requires bus.calls[id].InitialDiscovery? || bus.calls[id].generation != link.generation
      modifies `bus
      ensures Valid() && bus == old(bus).Remove(id)
    {
      bus := bus.Remove(id);
    }

    /** The look-up under way is answered. */
    method EndLookup(id: nat)
      requires Valid() && id in bus.calls && (bus.calls[id].Discovery? || bus.calls[id].Identity?)
      requires bus.calls[id].generation == link.generation
      modifies `bus, `link
      ensures Valid() && bus == old(bus).Remove(id)
      ensures link == old(link).(discoveryPending := false, identityPending := false) && link.destination.NoOwner?
    {
      bus := bus.Remove(id);
      link := link.(discoveryPending := false, identityPending := false);
    }

    method OnInitialDiscovery(id: nat, present: bool)
      requires Valid() && bus.Has(id, InitialDiscovery)
      modifies completion, `recovery, `link, `projection, `preference, `lease, `bus, `trace, `outstanding
      ensures Valid()
      ensures if present && old(link.generation) == 0 then OwnerFound(0, old(bus.next), old(trace.log))
              else link == old(link) && trace == old(trace) && bus == old(bus).Remove(id)
    {
      DropLookup(id);
      if present && link.generation == 0 {
        OnServiceRegistered();
      }
    }

    method OnDiscovery(id: nat, call: Call, present: bool)
      requires Valid() && bus.Has(id, call) && call.Discovery?
      modifies completion, `recovery, `link, `projection, `preference, `lease, `bus, `trace, `outstanding
      ensures Valid()
      ensures if call.generation != old(link.generation) then link == old(link) && trace == old(trace) && bus == old(bus).Remove(id)
              else if present then OwnerFound(old(link.generation), old(bus.next), old(trace.log))
              else link == old(link).(discoveryPending := false) && trace == old(trace) && bus == old(bus).Remove(id)
    {
      if call.generation != link.generation {
        DropLookup(id);
        return;
      }
      EndLookup(id);
      if present {
        OnServiceRegistered();
      }
    }

    method OnIdentity(id: nat, call: Call, trusted: Owner)
      requires Valid() && bus.Has(id, call) && call.Identity?
      modifies `link, `bus, `trace
      ensures Valid()
      ensures if call.generation != old(link.generation) then link == old(link) && trace == old(trace) && bus == old(bus).Remove(id)
              else if trusted.NoOwner? then
                link == old(link).(identityPending := false) && trace == old(trace) && bus == old(bus).Remove(id)
              else
                && link == old(link).(identityPending := false, destination := trusted, authorizationPending := AuthorizationDue())
                && (!AuthorizationDue() ==> trace.log == old(trace.log) + [OwnerTrusted(trusted.name)])
                && (AuthorizationDue() ==>
                      AskedFor(Authorize, AuthorizeCall(link.generation, trusted.name), old(bus).Remove(id),
                               old(trace.log) + [OwnerTrusted(trusted.name)]))
    {
      if call.generation != link.generation {
        DropLookup(id);
        return;
      }
      EndLookup(id);
      if trusted.NoOwner? {
        return;
      }
      PinOwner(trusted);
      AuthorizeClient();
    }

    method PinOwner(trusted: Owner)
      requires Valid() && link.destination.NoOwner? && !link.discoveryPending && !link.identityPending && trusted.Pinned?
      modifies `link, `trace
      ensures Valid() && link == old(link).(destination := trusted)
      ensures trace.log == old(trace.log) + [OwnerTrusted(trusted.name)]
    {
      link := link.(destination := trusted);
      Note(OwnerTrusted(trusted.name));
    }

    method OnRecoveryTimer()
      requires Valid() && recovery.timerActive
      modifies `recovery, `link, `bus, `trace, `outstanding
      ensures Valid() && !recovery.timerActive
      ensures if link.destination.NoOwner? then link == old(link) && trace == old(trace)
              else if link.available then AskedFor(GetSnapshot, ReadOf(completion.generation), old(bus), old(trace.log))
              else if old(link.authorizationPending) || !AuthorizationDue() then trace == old(trace)
              else link.authorizationPending
                   && AskedFor(Authorize, AuthorizeCall(link.generation, link.destination.name), old(bus), old(trace.log))
    {
      recovery := recovery.(timerActive := false);
      if link.destination.Pinned? {
        if link.available {
          RequestSnapshot(false, 0);
        } else {
          AuthorizeClient();
        }
      }
    }

    predicate ReplyIsCurrent(generation: nat, destination: nat)
      reads `link
    {
      generation == link.generation && link.destination == Pinned(destination)
    }

    /** No pending flag stands for this call. */
    ghost predicate NobodyAwaits(id: nat)
      reads `link, `trace, `outstanding
    {
      && trace.seen.owner.call != Awaiting(id) && trace.seen.preference.call != Awaiting(id)
      && trace.seen.lease != Asked(id)
      && trace.seen.reading.operation != Awaiting(id)
      && (link.discoveryPending || link.identityPending ==> outstanding.lookupId != id)
    }

    /** A reply nobody awaits changes nothing but the set of calls in flight. */
    method DropReply(id: nat, outcome: Outcome)
      requires Consistent() && id in bus.calls && bus.calls[id].ToOwner() && NobodyAwaits(id)
      modifies `bus, `trace
      ensures Consistent() && trace.log == old(trace.log) + [Replied(id, outcome)]
      ensures trace.seen.owner == old(trace.seen.owner) && trace.seen.preference == old(trace.seen.preference)
      ensures trace.seen.lease == old(trace.seen.lease) && trace.seen.reading == old(trace.seen.reading)
      ensures bus == old(bus).Remove(id)
    {
      hide Run, LookupTracked, PreferenceTracked, LeaseTracked, IntentTracked, ReadingTracked, AuthorizationTracked,
           OperationInFlight, ConnectPermitted, InFlight;
      ghost var before := Now();
      Note(Replied(id, outcome));
      AnswerLeavesRest(bus, before, Now(), completion.generation, outstanding.preferenceRequest, outstanding.leaseIntent, id);
      bus := bus.Remove(id);
    }

    method TakeAuthorizeReply(id: nat, call: Call, outcome: Outcome)
      requires Valid() && bus.Has(id, call) && call.AuthorizeCall? && ReplyIsCurrent(call.generation, call.destination)
      modifies `link, `bus, `trace
      ensures Valid()
      ensures link == old(link).(authorizationPending := false, available := outcome.Succeeded?, rejected := outcome.Refused?)
      ensures trace.log == old(trace.log) + [Replied(id, outcome)] && bus == old(bus).Remove(id)
      ensures !lease.mayExist && !preference.pending
    {
      hide Run, IntentTracked, ReadingTracked, ConnectPermitted;
      ghost var before := Now();
      Note(Replied(id, outcome));
      AnswerLeavesRest(bus, before, Now(), completion.generation, outstanding.preferenceRequest, outstanding.leaseIntent, id);
      bus := bus.Remove(id);
      link := link.(authorizationPending := false, available := outcome.Succeeded?, rejected := outcome.Refused?);
    }

    method OnAuthorizeReply(id: nat, call: Call, outcome: Outcome)
      requires Valid() && bus.Has(id, call) && call.AuthorizeCall?
      modifies `recovery, `link, `preference, `lease, `bus, `trace, `outstanding
      ensures Valid()
      ensures ReplyIsCurrent(call.generation, call.destination) ==>
                && link.available == outcome.Succeeded? && link.rejected == outcome.Refused?
                && (outcome.Transient? && old(recovery.retries) < MAX_RECOVERY_READS ==> recovery.timerActive)
      ensures link.available && !old(link.available) ==>
                preference.pending && (pending.Queued() && busNamed ==> lease.mayExist)
      ensures old(trace.log) + [Replied(id, outcome)] <= trace.log
      ensures if old(ReplyIsCurrent(call.generation, call.destination)) && outcome.Succeeded? then
                && trace.log == old(trace.log) + [Replied(id, outcome)] + old(Here()).Greeting(busNamed)
                && bus.Has(old(bus.next) + 1, SnapshotCall(link.generation, call.destination, completion.generation))
              else trace.log == old(trace.log) + [Replied(id, outcome)]
      ensures !old(ReplyIsCurrent(call.generation, call.destination)) ==>
                link == old(link) && recovery == old(recovery) && preference == old(preference) && lease == old(lease)
    {
      hide Run, LookupTracked, IntentTracked, ReadingTracked, ConnectPermitted, SendPermitted, Allowed;
      if !ReplyIsCurrent(call.generation, call.destination) {
        DropReply(id, outcome);
        return;
      }
      DecideAuthorization(id, call, outcome);
    }

    /** The owner's answer: success is followed by what the client has to ask, a failure that settles nothing by a retry. */
    method DecideAuthorization(id: nat, call: Call, outcome: Outcome)
      requires Valid() && bus.Has(id, call) && call.AuthorizeCall? && ReplyIsCurrent(call.generation, call.destination)
      modifies `recovery, `link, `preference, `lease, `bus, `trace, `outstanding
      ensures Valid()
      ensures link == old(link).(authorizationPending := false, available := outcome.Succeeded?, rejected := outcome.Refused?)
      ensures outcome.Transient? && old(recovery.retries) < MAX_RECOVERY_READS ==> recovery.timerActive
      ensures outcome.Succeeded? ==>
                && preference.pending && (pending.Queued() && busNamed ==> lease.mayExist)
                && bus.Has(old(bus.next) + 1, SnapshotCall(link.generation, call.destination, completion.generation))
      ensures trace.log == old(trace.log) + [Replied(id, outcome)] + if outcome.Succeeded? then old(Here()).Greeting(busNamed) else []
    {
      hide Run, LookupTracked, PreferenceTracked, LeaseTracked, IntentTracked, ReadingTracked, AuthorizationTracked,
           OperationInFlight, ConnectPermitted, CallsTracked, InFlight, CallTracked, SendPermitted, Allowed;
      TakeAuthorizeReply(id, call, outcome);
      if outcome.Succeeded? {
        GreetOwner();
      } else if !link.rejected {
        ScheduleRecoveryRead();
      }
    }

    /** What a fresh authorization starts: the preference, a read, and the lease of an intent that waited for it. */
    method GreetOwner()
      requires Valid() && link.available && !lease.mayExist && !preference.pending
      modifies `link, `preference, `lease, `bus, `trace, `outstanding
      ensures Valid() && link == old(link) && preference.pending && (pending.Queued() && busNamed ==> lease.mayExist)
      ensures old(trace.log) <= trace.log
      ensures trace.log == old(trace.log) + old(Here()).Greeting(busNamed)
      ensures link.destination.Pinned? && bus.Has(old(bus.next) + 1, SnapshotCall(link.generation, link.destination.name, completion.generation))
    {
      hide Run, LookupTracked, PreferenceTracked, LeaseTracked, IntentTracked, ReadingTracked, AuthorizationTracked, OperationInFlight,
           ConnectPermitted, CallsTracked, InFlight, CallTracked, SendPermitted, Allowed;
      AskOwner();
      if pending.Queued() {
        AcquireTransientLease();
      }
    }

    method AskOwner()
      requires Valid() && link.available && !lease.mayExist && !preference.pending
      modifies `link, `preference, `bus, `trace, `outstanding
      ensures Consistent() && link == old(link) && preference.pending && trace.seen.lease == old(trace.seen.lease)
      ensures old(trace.log) <= trace.log
      ensures link.destination.Pinned? && bus.next == old(bus.next) + 2 && lease == old(lease)
      ensures trace.log == old(trace.log) + [Sent(old(bus.next), link.destination.name, SetReconnection(preference.enabled)),
                                             Sent(old(bus.next) + 1, link.destination.name, GetSnapshot)]
      ensures preference == old(preference).(applied := false, pending := true)
      ensures bus.Has(old(bus.next) + 1, SnapshotCall(link.generation, link.destination.name, completion.generation))
    {
      ApplyReconnectionPreference();
      RequestSnapshot(false, 0);
    }

    method TakePreferenceReply(id: nat, call: Call, outcome: Outcome)
      requires Valid() && bus.Has(id, call) && call.PreferenceCall? && ReplyIsCurrent(call.generation, call.destination)
      modifies `preference, `bus, `trace
      ensures Valid()
      ensures preference == old(preference).(pending := false, applied := outcome.Succeeded? && call.request == preference.generation)
      ensures trace.log == old(trace.log) + [Replied(id, outcome)] && bus == old(bus).Remove(id)
    {
      assert trace.seen.preference.call == Awaiting(id);
      assert call.request == preference.generation ==> trace.seen.preference.sent == preference.enabled;
      EndPreferenceCall(id, outcome);
      if outcome.Succeeded? && call.request == preference.generation {
        preference := preference.(applied := true);
      }
    }

    /** The preference call was answered; what the answer says is yet to be noted. */
    method EndPreferenceCall(id: nat, outcome: Outcome)
      requires Valid() && id in bus.calls && trace.seen.preference.call == Awaiting(id)
      requires bus.calls[id].PreferenceCall?
      modifies `preference, `bus, `trace
      ensures Valid() && preference == old(preference).(pending := false, applied := false)
      ensures trace.seen.preference == NextPreference(old(trace.seen.preference), Replied(id, outcome))
      ensures trace.log == old(trace.log) + [Replied(id, outcome)] && bus == old(bus).Remove(id)
    {
      hide Run, LookupTracked, LeaseTracked, IntentTracked, ReadingTracked, AuthorizationTracked, ConnectPermitted;
      ghost var before := Now();
      Note(Replied(id, outcome));
      AnswerLeavesRest(bus, before, Now(), completion.generation, outstanding.preferenceRequest, outstanding.leaseIntent, id);
      bus := bus.Remove(id);
      preference := preference.(pending := false, applied := false);
    }

    method OnPreferenceReply(id: nat, call: Call, outcome: Outcome)
      requires Valid() && bus.Has(id, call) && call.PreferenceCall?
      modifies completion, `projection, `preference, `lease, `pending, `bus, `trace, `outstanding
      ensures Valid()
      ensures old(ReplyIsCurrent(call.generation, call.destination)) ==>
                if call.request != old(preference.generation) then preference.pending
                else preference.applied == outcome.Succeeded? && (outcome.Succeeded? || !pending.Queued())
      ensures old(trace.log) + [Replied(id, outcome)] <= trace.log
      ensures var added := Since(old(trace.log) + [Replied(id, outcome)]);
              if !old(ReplyIsCurrent(call.generation, call.destination)) then
                added == [] && preference == old(preference) && pending == old(pending) && lease == old(lease)
              else if call.request != old(preference.generation) then
                added == old(Here()).To(old(bus.next), SetReconnection(preference.enabled))
              else if !outcome.Succeeded? then old(Here()).Abandons(false, added)
              else old(Here()).(preference := old(preference).(pending := false, applied := true)).Dispatches(added)
    {
      hide Run, LookupTracked, LeaseTracked, IntentTracked, ReadingTracked, AuthorizationTracked, ConnectPermitted, SendPermitted, Allowed;
      if !ReplyIsCurrent(call.generation, call.destination) {
        DropReply(id, outcome);
        return;
      }
      TakePreferenceReply(id, call, outcome);
      if call.request != preference.generation {
        ApplyReconnectionPreference();
      } else if !outcome.Succeeded? {
        AbandonIntent(false);
      } else {
        DispatchPendingConnection();
      }
    }

    method TakeLeaseReply(id: nat, call: Call, outcome: Outcome)
      requires Valid() && bus.Has(id, call) && call.LeaseCall?
      requires ReplyIsCurrent(call.generation, call.destination) && call.lease == lease.generation
      modifies `lease, `bus, `trace
      ensures Consistent() && lease == old(lease).(pending := false, active := outcome.Succeeded?)
      ensures trace.seen.lease == if outcome.Succeeded? then Held else Doubtful
      ensures call.intent == pending.generation ==> pending.Queued()
      ensures trace.log == old(trace.log) + [Replied(id, outcome)] && bus == old(bus).Remove(id)
    {
      hide Run, LookupTracked, PreferenceTracked, IntentTracked, ReadingTracked, AuthorizationTracked, ConnectPermitted;
      ghost var before := Now();
      Note(Replied(id, outcome));
      AnswerLeavesRest(bus, before, Now(), completion.generation, outstanding.preferenceRequest, outstanding.leaseIntent, id);
      bus := bus.Remove(id);
      lease := lease.(pending := false, active := outcome.Succeeded?);
    }

    method OnLeaseReply(id: nat, call: Call, outcome: Outcome)
      requires Valid() && bus.Has(id, call) && call.LeaseCall?
      modifies completion, `projection, `lease, `pending, `bus, `trace, `outstanding
      ensures Valid()
      ensures if !old(ReplyIsCurrent(call.generation, call.destination) && call.lease == lease.generation) then
                lease == old(lease) && pending == old(pending) && projection == old(projection)
              else if outcome.Succeeded? then
                && (pending.Queued() ==> lease.active && !(GatesOpen() && Capabilities().connect))
                && (!old(pending.Queued()) ==> !lease.mayExist && !pending.Queued())
              else
                && pending.Queued() == (old(pending.Queued()) && call.intent != old(pending.generation))
                && !lease.active
      ensures old(trace.log) + [Replied(id, outcome)] <= trace.log
      ensures var added := Since(old(trace.log) + [Replied(id, outcome)]);
              var current := call.intent == old(pending.generation);
              if !old(ReplyIsCurrent(call.generation, call.destination) && call.lease == lease.generation) then added == []
              else if outcome.Succeeded? then
                if old(pending.Queued()) then old(Here()).(lease := old(lease).(pending := false, active := true)).Dispatches(added)
                else added == old(Here()).To(old(bus.next), Unregister)
              else if current then old(Here()).Abandons(true, added)
              else added == old(Here()).To(old(bus.next), Unregister)
                            + if old(pending.Queued()) then old(Here()).To(old(bus.next) + 1, Register) else []
    {
      hide Run, LookupTracked, PreferenceTracked, IntentTracked, ReadingTracked, AuthorizationTracked, ConnectPermitted,
           CallsTracked, CallTracked, SendPermitted, Allowed;
      if !ReplyIsCurrent(call.generation, call.destination) || call.lease != lease.generation {
        DropReply(id, outcome);
        return;
      }
      var currentIntent := call.intent == pending.generation;
      TakeLeaseReply(id, call, outcome);
      if !outcome.Succeeded? {
        LeaseRefused(currentIntent);
      } else if !currentIntent && !pending.Queued() {
        ReleaseTransientLease();
      } else {
        DispatchPendingConnection();
      }
    }

    /** A failed registration is undone; a newer intent asks again for itself. */
    method LeaseRefused(currentIntent: bool)
      requires Consistent()
      modifies `lease, `pending, `bus, `trace, `outstanding
      ensures Valid()
      ensures currentIntent ==> !pending.Queued()
      ensures !currentIntent ==> pending == old(pending)
      ensures lease.mayExist ==> lease.pending
      ensures old(trace.log) <= trace.log
      ensures old(lease.mayExist) ==> old(link.available && link.destination.Pinned?)
      ensures var added := Since(old(trace.log));
              if currentIntent then old(Here()).Abandons(true, added)
              else old(lease.mayExist) && busNamed ==>
                     added == old(Here()).To(old(bus.next), Unregister)
                              + if old(pending.Queued()) then old(Here()).To(old(bus.next) + 1, Register) else []
    {
      if currentIntent {
        AbandonIntent(true);
        return;
      }
      ReleaseTransientLease();
      if pending.Queued() {
        AcquireTransientLease();
      }
    }

    /** Believes a reading, or the absence of one; only an accepted snapshot is healthy. */
    method AdoptReading(source: Source, health: Health)
      requires Consistent() && Allowed(trace.seen, ReadingAdopted(source, health))
      modifies `projection, `trace
      ensures Consistent() && projection.healthy == health.Healthy?
      ensures health.Healthy? ==>
                projection == Projection(health.reading.ready, true, health.reading.loggedIn, health.reading.busy,
                                         health.reading.state, health.reading.auth)
      ensures health.Unhealthy? ==> projection == old(projection).(healthy := false)
      ensures trace.log == old(trace.log) + [ReadingAdopted(source, health)]
      ensures trace.seen.lease == old(trace.seen.lease)
    {
      Note(ReadingAdopted(source, health));
      projection := match health
        case Unhealthy => projection.(healthy := false)
        case Healthy(r) => Projection(r.ready, true, r.loggedIn, r.busy, r.state, r.auth);
    }

    /** A reading that cannot be believed withdraws the intent and its lease. */
    method RejectReading(source: Source)
      requires Valid() && Allowed(trace.seen, ReadingAdopted(source, Unhealthy))
      modifies `projection, `lease, `pending, `bus, `trace
      ensures Valid() && !pending.Queued() && !lease.mayExist && old(trace.log) + [ReadingAdopted(source, Unhealthy)] <= trace.log
      ensures projection == old(projection).(healthy := false)
      ensures old(Here()).Abandons(false, Since(old(trace.log) + [ReadingAdopted(source, Unhealthy)]))
    {
      AdoptReading(source, Unhealthy);
      AbandonIntent(false);
    }

    method ApplySnapshot(payload: Payload, source: Source)
      requires Valid() && Allowed(trace.seen, ReadingAdopted(source, Unhealthy))
      modifies completion, `recovery, `projection, `lease, `pending, `bus, `trace, `outstanding
      ensures Valid()
      ensures !payload.Accepted? ==> !projection.healthy && !pending.Queued() && !lease.mayExist
      ensures payload.Accepted? ==> projection.healthy && (pending.Queued() ==> !(GatesOpen() && Capabilities().connect))
      ensures old(trace.log) <= trace.log
      ensures old(Here()).Adopts(source, payload, old(completion.phase) == Reconciling, Since(old(trace.log)))
      ensures payload.Accepted? ==>
                && Shows(payload.reading, completion.generation != old(completion.generation))
                && (link.available ==> recovery == Recovery(false, 0))
      ensures payload.Accepted? && old(completion.phase) == Reconciling && !old(pending.Queued()) ==>
                (payload.reading.ready && !payload.reading.busy ==> completion.phase == Idle && !lease.mayExist)
      ensures !payload.Accepted? ==>
                projection == old(projection).(healthy := false) && completion.phase == old(completion.phase) && recovery == old(recovery)
    {
      hide Run, LookupTracked, PreferenceTracked, LeaseTracked, IntentTracked, ReadingTracked, AuthorizationTracked, OperationInFlight,
           ConnectPermitted, CallsTracked, CallTracked, SendPermitted, Allowed;
      if !payload.Accepted? {
        RejectReading(source);
        assert Since(old(trace.log))[1..] == Since(old(trace.log) + [ReadingAdopted(source, Unhealthy)]);
        return;
      }
      var operation := completion.generation;
      AdoptHealthy(source, payload.reading);
      ServeReading(operation);
      assert Since(old(trace.log))[1..] == Since(old(trace.log) + [ReadingAdopted(source, Healthy(payload.reading))]);
    }

    /** An adopted reading lets the queued intent be dispatched, and ends an operation that waited for it. */
    method ServeReading(operation: nat)
      requires Valid() && operation == completion.generation && projection.healthy
      modifies completion, `projection, `lease, `pending, `bus, `trace, `outstanding
      ensures Valid() && old(trace.log) <= trace.log
      ensures old(Here()).Served(old(completion.phase) == Reconciling, Since(old(trace.log)))
      ensures projection == old(projection).(busy := old(projection.busy) || completion.generation != old(completion.generation))
      ensures pending.Queued() ==> !(GatesOpen() && Capabilities().connect)
      ensures old(completion.phase) == Reconciling && !old(pending.Queued()) && projection.ready && !old(projection.busy) ==>
                completion.phase == Idle && !lease.mayExist
    {
      hide Run, LookupTracked, PreferenceTracked, LeaseTracked, IntentTracked, ReadingTracked, AuthorizationTracked, OperationInFlight,
           ConnectPermitted, CallsTracked, InFlight, CallTracked, SendPermitted, Allowed;
      DispatchPendingConnection();
      ghost var served := Since(old(trace.log));
      SettleOperation(operation);
      assert Since(old(trace.log))[..|served|] == served;
      assert Since(old(trace.log)) == served + Since(old(trace.log))[|served|..];
    }

    method AdoptHealthy(source: Source, reading: Reading)
      requires Valid() && Allowed(trace.seen, ReadingAdopted(source, Unhealthy))
      modifies `recovery, `projection, `trace
      ensures Valid() && projection == Projection(reading.ready, true, reading.loggedIn, reading.busy, reading.state, reading.auth)
      ensures trace.log == old(trace.log) + [ReadingAdopted(source, Healthy(reading))]
      ensures recovery == if link.available then Recovery(false, 0) else old(recovery)
    {
      AdoptReading(source, Healthy(reading));
      StopRetrying();
    }

    method StopRetrying()
      requires Valid()
      modifies `recovery
      ensures Valid() && recovery == if link.available then Recovery(false, 0) else old(recovery)
    {
      if link.available {
        recovery := Recovery(false, 0);
      }
    }

    /** The operation that was current before the reading, if it still is, ends once nothing is under way. */
    method SettleOperation(operation: nat)
      requires Valid()
      modifies completion`phase, `lease, `bus, `trace
      ensures Valid()
      ensures if operation == completion.generation && old(completion.phase) == Reconciling
                 && projection.ready && !projection.busy && !pending.Queued()
              then completion.phase == Idle && !lease.mayExist
              else completion.phase == old(completion.phase) && lease == old(lease)
      ensures trace.log == old(trace.log)
                + if operation == completion.generation && old(completion.phase) == Reconciling
                     && projection.ready && !projection.busy && !pending.Queued() && old(lease.mayExist) && link.destination.Pinned?
                  then [Sent(old(bus.next), link.destination.name, Unregister)] else []
    {
      var settled := completion.SettleIfIdle(operation, projection.ready && !projection.busy && !pending.Queued());
      if settled {
        ReleaseTransientLease();
      }
    }

    /** What is shown is the reading, and busy also if a message was sent at once. */
    predicate Shows(r: Reading, sent: bool)
      reads `projection
    {
      && projection.healthy && projection.ready == r.ready && projection.loggedIn == r.loggedIn
      && projection.state == r.state && projection.auth == r.auth && projection.busy == (r.busy || sent)
    }

    method OnSnapshotSignal(sender: nat, payload: Payload)
      requires Valid()
      modifies completion, `recovery, `projection, `lease, `pending, `bus, `trace, `outstanding
      ensures Valid()
      ensures link.destination != Pinned(sender) ==> trace == old(trace) && projection == old(projection)
      ensures link.destination == Pinned(sender) ==> projection.healthy == payload.Accepted?
      ensures old(trace.log) <= trace.log
      ensures link.destination == Pinned(sender) ==>
                && old(Here()).Adopts(FromSignal(sender), payload, old(completion.phase) == Reconciling, Since(old(trace.log)))
                && (payload.Accepted? ==> Shows(payload.reading, completion.generation != old(completion.generation)))
      ensures link.destination != Pinned(sender) ==>
                pending == old(pending) && lease == old(lease) && recovery == old(recovery) && completion.phase == old(completion.phase)
    {
      if link.destination != Pinned(sender) {
        return;
      }
      ApplySnapshot(payload, FromSignal(sender));
    }

    /** A failed read ends the operation it belongs to and everything that waits for it. */
    method ReadFailed(id: nat, transient: bool)
      requires Consistent() && id in trace.seen.reading.calls
      modifies completion`phase, `recovery, `projection, `lease, `pending, `bus, `trace
      ensures Valid() && completion.phase == Idle
      ensures !projection.healthy && !projection.busy && !pending.Queued() && !lease.mayExist
      ensures transient && link.destination.Pinned? && !link.rejected && old(recovery.retries) < MAX_RECOVERY_READS ==> recovery.timerActive
      ensures old(trace.log) + [ReadingAdopted(FromRead(id), Unhealthy)] <= trace.log
      ensures old(Here()).Abandons(true, Since(old(trace.log) + [ReadingAdopted(FromRead(id), Unhealthy)]))
    {
      EndRead(id);
      if transient {
        ScheduleRecoveryRead();
      }
      AbandonIntent(true);
    }

    method EndRead(id: nat)
      requires Consistent() && id in trace.seen.reading.calls
      modifies completion`phase, `projection, `trace
      ensures Consistent() && completion.phase == Idle && !projection.healthy && !projection.busy
      ensures trace.seen.lease == old(trace.seen.lease)
      ensures trace.log == old(trace.log) + [ReadingAdopted(FromRead(id), Unhealthy)]
    {
      AdoptReading(FromRead(id), Unhealthy);
      projection := projection.(busy := false);
      completion.Finish(completion.generation);
    }

    /** A queued intent gets its lease before the reading is adopted. */
    method TakeReading(id: nat, payload: Payload)
      requires Valid() && id in trace.seen.reading.calls
      modifies completion, `recovery, `projection, `lease, `pending, `bus, `trace, `outstanding
      ensures Valid() && old(trace.log) <= trace.log && projection.healthy == payload.Accepted?
      ensures old(Here()).TakesReading(busNamed, FromRead(id), payload, old(completion.phase) == Reconciling, Since(old(trace.log)))
      ensures payload.Accepted? ==> Shows(payload.reading, completion.generation != old(completion.generation))
    {
      hide Run, LookupTracked, PreferenceTracked, LeaseTracked, IntentTracked, ReadingTracked, AuthorizationTracked,
           OperationInFlight, ConnectPermitted, CallsTracked, InFlight, CallTracked, SendPermitted;
      if link.generation != 0 && pending.Queued() {
        AcquireTransientLease();
      }
      ghost var before := trace.log;
      ApplySnapshot(payload, FromRead(id));
      assert before == old(trace.log) || Since(old(trace.log))[1..] == Since(before);
    }

    method OnSnapshotReply(id: nat, call: Call, outcome: Outcome, payload: Payload)
      requires Valid() && bus.Has(id, call) && call.SnapshotCall?
      modifies completion, `recovery, `projection, `lease, `pending, `bus, `trace, `outstanding
      ensures Valid()
      ensures if !old(ReplyIsCurrent(call.generation, call.destination) && call.operation == completion.generation) then
                && projection == old(projection) && pending == old(pending) && lease == old(lease)
                && recovery == old(recovery) && completion.phase == old(completion.phase)
              else if !outcome.Succeeded? then
                && completion.phase == Idle && !projection.healthy && !projection.busy
                && !pending.Queued() && !lease.mayExist
                && (outcome.Transient? && !link.rejected && old(recovery.retries) < MAX_RECOVERY_READS ==> recovery.timerActive)
              else projection.healthy == payload.Accepted?
      ensures old(trace.log) + [Replied(id, outcome)] <= trace.log
      ensures var added := Since(old(trace.log) + [Replied(id, outcome)]);
              if !old(ReplyIsCurrent(call.generation, call.destination) && call.operation == completion.generation) then added == []
              else if !outcome.Succeeded? then
                |added| > 0 && added[0] == ReadingAdopted(FromRead(id), Unhealthy) && old(Here()).Abandons(true, added[1..])
              else
                && (payload.Accepted? ==> Shows(payload.reading, completion.generation != old(completion.generation)))
                && old(Here()).TakesReading(busNamed, FromRead(id), payload, old(completion.phase) == Reconciling, added)
    {
      hide Run, LookupTracked, PreferenceTracked, LeaseTracked, IntentTracked, ReadingTracked, AuthorizationTracked,
           ConnectPermitted, SendPermitted;
      DropReply(id, outcome);
      if !ReplyIsCurrent(call.generation, call.destination) || call.operation != completion.generation {
        return;
      }
      if !outcome.Succeeded? {
        ReadFailed(id, outcome.Transient?);
        return;
      }
      TakeReading(id, payload);
    }

    method OnOperationReply(id: nat, call: Call, outcome: Outcome)
      requires Valid() && bus.Has(id, call) && call.OperationCall?
      modifies completion`phase, `link, `projection, `lease, `bus, `trace, `outstanding
      ensures Valid()
      ensures if old(ReplyIsCurrent(call.generation, call.destination) && call.operation == completion.generation) then
                && completion.phase == (if outcome.Refused? || old(completion.phase) == Idle then Idle else Reconciling)
                && projection == old(projection).(busy := if outcome.Refused? then false
                                                          else if outcome.Transient? then true else old(projection.busy))
                && (outcome.Refused? && !pending.Queued() ==> !lease.mayExist)
                && (!outcome.Refused? || pending.Queued() ==> lease == old(lease))
              else completion.phase == old(completion.phase) && projection == old(projection) && lease == old(lease)
      ensures old(trace.log) + [Replied(id, outcome)] <= trace.log
      ensures var added := Since(old(trace.log) + [Replied(id, outcome)]);
              if !old(ReplyIsCurrent(call.generation, call.destination) && call.operation == completion.generation) then added == []
              else if outcome.Refused? && !pending.Queued() then
                added == if old(lease.mayExist) then old(Here()).To(old(bus.next), Unregister) else []
              else
                added == old(Here()).To(old(bus.next), GetSnapshot)
                && bus.Has(old(bus.next), SnapshotCall(link.generation, call.destination, call.operation))
    {
      if !ReplyIsCurrent(call.generation, call.destination) || call.operation != completion.generation {
        DropReply(id, outcome);
        return;
      }
      DecideOperation(id, call.operation, outcome);
    }

    /** The answer to the current operation; an operation not refused is read after. */
    method DecideOperation(id: nat, operation: nat, outcome: Outcome)
      requires Valid() && trace.seen.reading.operation == Awaiting(id) && operation == completion.generation && link.destination.Pinned?
      modifies completion`phase, `link, `projection, `lease, `bus, `trace, `outstanding
      ensures Valid()
      ensures completion.phase == if outcome.Refused? || old(completion.phase) == Idle then Idle else Reconciling
      ensures projection == old(projection).(busy := BusyAfter(old(projection.busy), outcome))
      ensures outcome.Refused? && !pending.Queued() ==> !lease.mayExist
      ensures !outcome.Refused? || pending.Queued() ==> lease == old(lease)
      ensures old(trace.log) + [Replied(id, outcome)] <= trace.log
      ensures var added := Since(old(trace.log) + [Replied(id, outcome)]);
              if outcome.Refused? && !pending.Queued() then
                added == if old(lease.mayExist) then old(Here()).To(old(bus.next), Unregister) else []
              else
                added == old(Here()).To(old(bus.next), GetSnapshot)
                && bus.Has(old(bus.next), SnapshotCall(link.generation, old(link.destination.name), operation))
    {
      hide Run, LookupTracked, PreferenceTracked, IntentTracked, ReadingTracked, AuthorizationTracked, ConnectPermitted,
           CallsTracked, InFlight, CallTracked, SendPermitted, Allowed;
      EndOperation(operation, outcome.Refused?);
      TakeOperationReply(id, outcome);
      if outcome.Refused? && !pending.Queued() {
        ReleaseTransientLease();
      } else {
        RequestSnapshot(false, operation);
      }
    }

    /** The current operation's reply ends it, or leaves it to be reconciled by a reading. */
    method EndOperation(operation: nat, refused: bool)
      requires Consistent() && operation == completion.generation
      modifies completion`phase
      ensures Consistent()
      ensures completion.phase == if refused || old(completion.phase) == Idle then Idle else Reconciling
    {
      if refused {
        completion.Finish(operation);
      } else {
        completion.Reconcile(operation);
      }
    }

    method TakeOperationReply(id: nat, outcome: Outcome)
      requires Consistent() && trace.seen.reading.operation == Awaiting(id) && completion.phase != AwaitingReply
      modifies `projection, `bus, `trace
      ensures Consistent() && trace.seen.lease == old(trace.seen.lease)
      ensures projection == old(projection).(busy := BusyAfter(old(projection.busy), outcome))
      ensures trace.log == old(trace.log) + [Replied(id, outcome)] && bus == old(bus).Remove(id)
    {
      AnswerOperation(id, outcome);
      projection := projection.(busy := BusyAfter(projection.busy, outcome));
    }

    /** Takes the answered call out of flight; the projection is yet to follow. */
    method AnswerOperation(id: nat, outcome: Outcome)
      requires Sound() && OperationInFlight(bus, link, trace.seen.reading.operation, completion.generation)
      requires trace.seen.reading.operation == Awaiting(id)
      modifies `bus, `trace
      ensures Sound() && OperationInFlight(bus, link, trace.seen.reading.operation, completion.generation)
      ensures trace.seen.lease == old(trace.seen.lease)
      ensures trace.seen.reading.health == old(trace.seen.reading.health)
      ensures trace.seen.reading.busy == BusyAfter(old(trace.seen.reading.busy), outcome)
      ensures trace.log == old(trace.log) + [Replied(id, outcome)] && bus == old(bus).Remove(id)
    {
      hide Run, LookupTracked, PreferenceTracked, LeaseTracked, IntentTracked, ReadingTracked, AuthorizationTracked, ConnectPermitted;
      ghost var before := Now();
      Note(Replied(id, outcome));
      AnswerLeavesRest(bus, before, Now(), completion.generation, outstanding.preferenceRequest, outstanding.leaseIntent, id);
      bus := bus.Remove(id);
    }

    // ---- Whole runs ----

    /** One event of the main loop. A completion names the call it completes; one not in flight cannot occur. */
    method React(stimulus: Stimulus)
      requires Valid()
      modifies this, completion
      ensures Valid() && old(trace.log) <= trace.log
      ensures Heard(stimulus, old(bus.calls), Since(old(trace.log)))
    {
      hide Run, LookupTracked, PreferenceTracked, LeaseTracked, IntentTracked, ReadingTracked, AuthorizationTracked,
           OperationInFlight, ConnectPermitted, CallsTracked, InFlight, CallTracked, SendPermitted, Allowed, Situation.Starts,
           Situation.Adopts, Situation.Abandons, Situation.Dispatches;
      match stimulus
      case Registered => OnServiceRegistered();
      case Unregistered => OnServiceUnregistered();
      case Signal(sender, payload) => OnSnapshotSignal(sender, payload);
      case TimerFires => if recovery.timerActive { OnRecoveryTimer(); }
      case Completes(id, outcome, present, trusted, payload) =>
        if id in bus.calls {
          Complete(id, bus.calls[id], outcome, present, trusted, payload);
        }
      case _ => Obey(stimulus);
    }

    /** A call of the user. */
    method Obey(stimulus: Stimulus)
      requires Valid() && stimulus.ByUser()
      modifies this, completion
      ensures Valid() && old(trace.log) <= trace.log
      ensures Heard(stimulus, old(bus.calls), Since(old(trace.log)))
    {
      hide Run, LookupTracked, PreferenceTracked, LeaseTracked, IntentTracked, ReadingTracked, AuthorizationTracked,
           OperationInFlight, ConnectPermitted, CallsTracked, InFlight, CallTracked, SendPermitted, Allowed, Situation.Starts,
           Situation.Adopts, Situation.Abandons, Situation.Dispatches;
      match stimulus
      case ChoosePreference(enabled) => SetReconnectionEnabled(enabled);
      case ChooseFeatures(features) => SetFastestFeatures(features);
      case Connect(target) => ConnectTarget(target);
      case StartUp(target) => AutoConnect(target);
      case ConnectTo(country, kind, name) => ConnectGroup(country, kind, name);
      case PrimaryAction => ActivatePrimaryAction();
      case Disconnect => DisconnectVpn();
    }

    method Complete(id: nat, call: Call, outcome: Outcome, present: bool, trusted: Owner, payload: Payload)
      requires Valid() && bus.Has(id, call)
      modifies this, completion
      ensures Valid() && old(trace.log) <= trace.log
      ensures call.ToOwner() ==> |Since(old(trace.log))| > 0 && Since(old(trace.log))[0] == Replied(id, outcome)
    {
      hide Run, LookupTracked, PreferenceTracked, LeaseTracked, IntentTracked, ReadingTracked, AuthorizationTracked,
           OperationInFlight, ConnectPermitted, CallsTracked, InFlight, CallTracked, SendPermitted, Allowed;
      match call
      case InitialDiscovery => OnInitialDiscovery(id, present);
      case Discovery(_) => OnDiscovery(id, call, present);
      case Identity(_) => OnIdentity(id, call, trusted);
      case AuthorizeCall(_, _) => OnAuthorizeReply(id, call, outcome);
      case LeaseCall(_, _, _, _) => OnLeaseReply(id, call, outcome);
      case PreferenceCall(_, _, _) => OnPreferenceReply(id, call, outcome);
      case SnapshotCall(_, _, _) => OnSnapshotReply(id, call, outcome, payload);
      case OperationCall(_, _, _) => OnOperationReply(id, call, outcome);
    }
  }

  /** Anything that may happen to the agent. */
  datatype Stimulus =
    | ChoosePreference(enabled: bool)
    | ChooseFeatures(features: seq<string>)
    | Connect(target: string)
    | StartUp(target: string)
    | ConnectTo(country: string, kind: string, name: string)
    | PrimaryAction
    | Disconnect
    | Registered
    | Unregistered
    | Signal(sender: nat, payload: Payload)
    | TimerFires
    | Completes(id: nat, outcome: Outcome, present: bool, trusted: Owner, payload: Payload)
  {
    predicate ByUser() {
      ChoosePreference? || ChooseFeatures? || Connect? || StartUp? || ConnectTo? || PrimaryAction? || Disconnect?
    }
  }

  /** What the history says of an event as soon as it happens; the rest depends on the state the event finds. */
  predicate Heard(stimulus: Stimulus, calls: map<nat, Call>, added: seq<Event>) {
    match stimulus
    case ChoosePreference(enabled) => |added| > 0 && added[0] == PreferenceChosen(enabled)
    case ChooseFeatures(features) => added == [FeaturesChosen(features)]
    case Connect(target) => Queues(target, true, false, added)
    case StartUp(target) => Queues(target, false, true, added)
    case ConnectTo(country, kind, name) =>
      var (c, k, n) := (Text.Upper(Text.Trim(country)), Text.Lower(Text.Trim(kind)), Text.Trim(name));
      if ServerGroups.IsGroup(c, k, n) then |added| > 0 && added[0] == IntentQueued(Intent(ServerGroup(c, k, n), true, false))
      else added == []
    case PrimaryAction => true
    case Disconnect => |added| > 0 && added[0] == DisconnectRequested
    case Registered => added == [OwnerAppeared]
    case Unregistered => added == [OwnerLost]
    case Signal(sender, payload) => |added| > 0 ==> added[0].ReadingAdopted? && added[0].source == FromSignal(sender)
    case TimerFires => |added| <= 1
    case Completes(id, outcome, _, trusted, _) =>
      id in calls && calls[id].ToOwner() ==> |added| > 0 && added[0] == Replied(id, outcome)
  }

  predicate Queues(target: string, interactive: bool, onlyWhenDisconnected: bool, added: seq<Event>) {
    var text := Text.Upper(Text.Trim(target));
    if ValidTarget(text) then |added| > 0 && added[0] == IntentQueued(Intent(Target(text), interactive, onlyWhenDisconnected))
    else added == []
  }

  /** Every event left its part of the history, one after the other, given the calls it found in flight. */
  ghost predicate AllHeard(stimuli: seq<Stimulus>, found: seq<map<nat, Call>>, marks: seq<nat>, log: seq<Event>) {
    && Chaptered(marks, log) && |marks| == |stimuli| + 1 && |found| == |stimuli|
    && forall i: nat :: i < |stimuli| ==> Heard(stimuli[i], found[i], Chapter(marks, log, i))
  }

  /** Whatever happens, in whatever order, the history is one the monitor allows and the lease has a reason. */
  method RunAgent(busNamed: bool, stimuli: seq<Stimulus>)
      returns (agent: AgentVpnClient, ghost found: seq<map<nat, Call>>, ghost marks: seq<nat>)
    ensures fresh(agent) && fresh(agent.completion) && agent.Valid() && agent.trace.Recorded()
    ensures AllHeard(stimuli, found, marks, agent.trace.log)
  {
    agent := new AgentVpnClient(busNamed);
    found, marks := [], [0];
    for i := 0 to |stimuli|
      invariant agent.Valid() && fresh(agent) && fresh(agent.completion)
      invariant AllHeard(stimuli[..i], found, marks, agent.trace.log)
    {
      ghost var (calls, log) := (agent.bus.calls, agent.trace.log);
      agent.React(stimuli[i]);
      AddChapter(marks, log, agent.trace.log);
      found, marks := found + [calls], marks + [|agent.trace.log|];
    }
    assert stimuli[..|stimuli|] == stimuli;
  }
}
