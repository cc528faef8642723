/**
 The settings projections of the Control Center (src/SettingsRequestState.h,
 src/VpnControllerSettings.cpp): VPN settings, split tunneling and custom DNS share one request
 contract. Every public method of SettingsProjection is one event of the main loop.
 */
module SettingsProjections {
  import opened SettingsProtocol
  import opened Histories

  datatype Phase = Idle | Read | Write | ReconcileRead | ReconcileNeeded

  class SettingsRequestState {
    var generation: nat
    var phase: Phase
    var writeUnconfirmed: bool

    constructor ()
      ensures phase == Idle && !writeUnconfirmed && generation == 0
    {
      generation, phase, writeUnconfirmed := 0, Idle, false;
    }

    predicate Busy()
      reads `phase
    {
      phase != Idle
    }

    predicate NeedsRead()
      reads `phase
    {
      phase == ReconcileNeeded
    }

    predicate CanRead()
      reads `phase
    {
      !Busy() || NeedsRead()
    }

    method BeginRead() returns (stamp: nat)
      modifies this
      ensures phase == (if old(NeedsRead()) then ReconcileRead else Read) && writeUnconfirmed == old(writeUnconfirmed)
      ensures stamp == generation == old(generation) + 1
    {
      phase := if NeedsRead() then ReconcileRead else Read;
      generation := generation + 1;
      stamp := generation;
    }

    method BeginWrite() returns (stamp: nat)
      modifies this
      ensures phase == Write && !writeUnconfirmed
      ensures stamp == generation == old(generation) + 1
    {
      writeUnconfirmed := false;
      phase := Write;
      generation := generation + 1;
      stamp := generation;
    }

    /** The outcome of a request: an older one is ignored, an unresolved one asks for a read. */
    method Complete(stamp: nat, success: bool, completionUnknown: bool)
      modifies this
      ensures generation == old(generation)
      ensures stamp != generation ==> phase == old(phase) && writeUnconfirmed == old(writeUnconfirmed)
      ensures stamp == generation ==>
                && writeUnconfirmed == (if old(phase) == Write then completionUnknown else old(writeUnconfirmed))
                && NeedsRead() == ((old(phase) == Write && completionUnknown) || (old(phase) == ReconcileRead && !success))
                && Busy() == NeedsRead()
    {
      if stamp != generation {
        return;
      }
      if phase == Write {
        writeUnconfirmed := completionUnknown;
      }
      var unresolved := (phase == Write && completionUnknown) || (phase == ReconcileRead && !success);
      phase := if unresolved then ReconcileNeeded else Idle;
    }

    method Invalidate()
      modifies this
      ensures phase == Idle && !writeUnconfirmed && generation == old(generation) + 1
    {
      generation := generation + 1;
      phase := Idle;
      writeUnconfirmed := false;
    }
  }

  datatype Kind = VpnSettings | SplitTunneling | CustomDns

  /** What the settings page says. */
  datatype Notice = Quiet | Refused(text: string) | Confirming | Review | CannotSave | CannotLoad | Unreadable | Stopped

  datatype Model = Model(loaded: bool, busy: bool, values: string, notice: Notice)

  datatype Reply = Failed(transient: bool, explained: string) | Unparsed | Values(values: string)

  /** The outcome of checking an update's name and value. */
  datatype Verdict = Fine | Invalid(text: string)

  datatype Call = Call(id: nat, mutation: bool, whileConnected: bool, backend: nat, session: nat, stamp: nat)

  /** Whether a write may have happened although its reply does not say so. */
  function Unknown(c: Call, reply: Reply): bool {
    c.mutation && (reply.Unparsed? || (reply.Failed? && reply.transient))
  }

  /** A settled read does not claim that an earlier unconfirmed write succeeded. */
  function NoticeAfter(c: Call, reply: Reply, unconfirmed: bool): Notice {
    match reply
    case Failed(_, explained) =>
      if explained != "" then Refused(explained) else if c.mutation then CannotSave else CannotLoad
    case Unparsed => Unreadable
    case Values(_) => if unconfirmed then Review else Quiet
  }

  /** The event an answer to a call is. */
  function Finished(c: Call, reply: Reply): Event {
    if !c.mutation then ReadFinished(c.id, reply.Values?)
    else
      match reply
      case Failed(transient, _) => WriteFinished(c.id, if transient then TimedOut else Declined)
      case Unparsed => WriteFinished(c.id, Garbled)
      case Values(_) => WriteFinished(c.id, Done)
  }

  datatype Session =
    Session(pinned: bool, available: bool, ready: bool, loggedIn: bool, healthy: bool, state: string, backend: nat, session: nat)
  {
    predicate CanServe() {
      available && ready && loggedIn
    }
  }

  datatype Trace = Trace(log: seq<Event>, views: seq<View>, seen: View) {
    ghost predicate Recorded() {
      Run(views, log) && seen == views[|log|]
    }
  }

  class SettingsProjection {
    const kind: Kind
    const request: SettingsRequestState
    var session: Session
    var model: Model
    var restartRequired: bool
    var calls: map<nat, Call>
    var next: nat
    ghost var trace: Trace

    /** The stamps of a call equal the current generations. */
    predicate Live(c: Call)
      reads `session, request`generation
    {
      c.backend == session.backend && c.session == session.session && session.loggedIn && c.stamp == request.generation
    }

    /** Stamps never run ahead, and only the request in progress is live. */
    ghost predicate Fits(id: nat, c: Call)
      reads `session, `next, `trace, request`generation
    {
      && c.id == id < next && c.backend <= session.backend && c.session <= session.session && c.stamp <= request.generation
      && (Live(c) ==> trace.seen.live == if c.mutation then Writing(id) else Reading(id))
    }

    /** A request is in progress exactly while one call is live, and the phase says which kind it is. */
    ghost predicate OneLiveCall()
      reads `session, `calls, `next, `trace, request
    {
      && trace.seen.next <= next
      && (forall id :: id in calls ==> Fits(id, calls[id]))
      && (trace.seen.live.Reading? <==> request.phase == Read || request.phase == ReconcileRead)
      && (trace.seen.live.Writing? <==> request.phase == Write)
      && (!trace.seen.live.Nothing? ==>
            && trace.seen.live.id in calls && Live(calls[trace.seen.live.id])
            && calls[trace.seen.live.id].mutation == trace.seen.live.Writing?)
    }

    /** The phase knows whether a write is still to be confirmed; a signed-out session has no request. */
    ghost predicate GateMatches()
      reads `session, `model, `trace, request
    {
      && trace.Recorded()
      && model.busy == request.Busy()
      && trace.seen.closed == (request.phase == ReconcileNeeded || request.phase == ReconcileRead)
      && trace.seen.unconfirmed == request.writeUnconfirmed
      && (!session.loggedIn ==> request.phase == Idle)
      && (session.loggedIn || session.available ==> session.pinned)
    }

    ghost predicate Valid()
      reads this, request
    {
      OneLiveCall() && GateMatches()
    }

    constructor (kind: Kind)
      ensures Valid() && fresh(request) && this.kind == kind && trace.log == []
      ensures session == Session(false, false, false, false, true, "unavailable", 0, 0) && model == Model(false, false, "", Quiet)
    {
      this.kind := kind;
      request := new SettingsRequestState();
      session := Session(false, false, false, false, true, "unavailable", 0, 0);
      model := Model(false, false, "", Quiet);
      restartRequired := false;
      calls, next := map[], 0;
      trace := Trace([], [START], START);
    }

    ghost method Note(e: Event)
      requires trace.Recorded() && Allowed(trace.seen, e)
      modifies `trace
      ensures trace.Recorded() && trace.log == old(trace.log) + [e] && trace.seen == Next(old(trace.seen), e)
    {
      var seen := Next(trace.seen, e);
      Extend(trace.views, trace.log, e);
      trace := Trace(trace.log + [e], trace.views + [seen], seen);
    }

    // ---- Requests ----

    predicate CanLoad()
      reads `session, request`phase
    {
      session.CanServe() && request.CanRead()
    }

    /** Reads the settings, unless a request is in progress; a write of unknown outcome keeps its notice. */
    method Load()
      requires Valid()
      modifies `model, `calls, `next, `trace, request
      ensures Valid()
      ensures if old(CanLoad()) then
                && trace.log == old(trace.log) + [ReadSent(old(next))] && model.busy
                && request.phase == (if old(request.NeedsRead()) then ReconcileRead else Read)
                && model == old(model).(busy := true, notice := if old(request.writeUnconfirmed) then old(model.notice) else Quiet)
              else trace == old(trace) && model == old(model) && request.phase == old(request.phase)
      ensures request.writeUnconfirmed == old(request.writeUnconfirmed)
      ensures calls.Keys <= old(calls.Keys) + {old(next)}
    {
      if !session.available || !session.ready || !session.loggedIn || !request.CanRead() {
        return;
      }
      var stamp := request.BeginRead();
      model := model.(busy := true);
      if !request.writeUnconfirmed {
        model := model.(notice := Quiet);
      }
      Send(false, stamp);
    }

    method Send(mutation: bool, stamp: nat)
      requires stamp == request.generation && session.loggedIn
      requires trace.Recorded() && trace.seen.next <= next && trace.seen.live.Nothing?
      requires mutation ==> !trace.seen.closed && trace.seen.asked.AskedFor?
      requires forall id :: id in calls ==>
                 && calls[id].id == id < next && calls[id].stamp < stamp
                 && calls[id].backend <= session.backend && calls[id].session <= session.session
      modifies `calls, `next, `trace
      ensures next == old(next) + 1 && trace.Recorded()
      ensures calls == old(calls)[old(next) := Call(old(next), mutation, mutation && InTunnel(), session.backend, session.session, stamp)]
      ensures var sent := if mutation then WriteSent(old(next), old(trace.seen.asked.patch)) else ReadSent(old(next));
              trace.log == old(trace.log) + [sent] && trace.seen == Next(old(trace.seen), sent)
    {
      Note(if mutation then WriteSent(next, trace.seen.asked.patch) else ReadSent(next));
      calls := calls[next := Call(next, mutation, mutation && InTunnel(), session.backend, session.session, stamp)];
      next := next + 1;
    }

    /** Restarting the tunnel may be needed for a change made now. */
    predicate InTunnel()
      reads `session
    {
      session.state == "connected" || session.state == "connecting"
    }

    predicate CanUpdate()
      reads `session, `model
    {
      session.CanServe() && session.healthy && !model.busy && (kind == VpnSettings || model.loaded)
    }

    /** The user changes one setting: at most one write, and only for this request. */
    method Update(patch: string, verdict: Verdict)
      requires Valid()
      modifies `model, `calls, `next, `trace, request
      ensures Valid()
      ensures if !old(CanUpdate()) then trace == old(trace) && model == old(model) && request.phase == old(request.phase)
              else if verdict.Invalid? then
                trace == old(trace) && model == old(model).(notice := Refused(verdict.text)) && request.phase == old(request.phase)
              else
                && trace.log == old(trace.log) + [UpdateRequested(patch), WriteSent(old(next), patch)]
                && request.phase == Write && model == old(model).(busy := true, notice := Quiet)
                && old(next) in calls && calls[old(next)].whileConnected == (session.state in ["connected", "connecting"])
    {
      if !session.available || !session.ready || !session.loggedIn || !session.healthy
         || (kind != VpnSettings && !model.loaded) || model.busy {
        return;
      }
      if verdict.Invalid? {
        model := model.(notice := Refused(verdict.text));
        return;
      }
      Note(UpdateRequested(patch));
      var stamp := request.BeginWrite();
      model := model.(busy := true, notice := Quiet);
      Send(true, stamp);
    }

    // ---- Replies ----

    /** Reads back what a write of unknown outcome did. */
    method Confirm()
      requires Valid() && request.NeedsRead()
      modifies `model, `calls, `next, `trace, request
      ensures Valid() && model == old(model).(notice := Confirming)
      ensures trace.log == old(trace.log) + if session.CanServe() then [ReadSent(old(next))] else []
      ensures request.phase == (if session.CanServe() then ReconcileRead else ReconcileNeeded)
      ensures request.writeUnconfirmed == old(request.writeUnconfirmed)
      ensures calls.Keys <= old(calls.Keys) + {old(next)}
    {
      Load();
      model := model.(notice := Confirming);
    }

    method OnReply(id: nat, reply: Reply)
      requires Valid() && id in calls
      modifies `model, `restartRequired, `calls, `next, `trace, request
      ensures Valid()
      ensures if !old(Live(calls[id])) then
                model == old(model) && trace == old(trace) && request.phase == old(request.phase) && restartRequired == old(restartRequired)
              else Settled(old(calls[id]), reply, old(model), old(trace.log), old(next), old(restartRequired))
      ensures old(Live(calls[id])) && old(calls[id].mutation) && (reply.Unparsed? || (reply.Failed? && reply.transient)) ==>
                && (request.phase == ReconcileNeeded || request.phase == ReconcileRead)
                && (request.phase == ReconcileRead <==> session.CanServe())
                && request.writeUnconfirmed && model.notice == Confirming
                && old(trace.log) + [WriteFinished(id, if reply.Unparsed? then Garbled else TimedOut)] <= trace.log
      ensures old(Live(calls[id])) && old(calls[id].mutation) && (reply.Values? || (reply.Failed? && !reply.transient)) ==>
                && request.phase == Idle && !request.writeUnconfirmed && !model.busy
                && trace.log == old(trace.log) + [WriteFinished(id, if reply.Values? then Done else Declined)]
      ensures old(Live(calls[id])) && !old(calls[id].mutation) ==>
                && request.phase == (if old(request.phase) == ReconcileRead && !reply.Values? then ReconcileNeeded else Idle)
                && request.writeUnconfirmed == old(request.writeUnconfirmed)
                && trace.log == old(trace.log) + [ReadFinished(id, reply.Values?)]
      ensures id !in calls
      ensures var c := old(calls[id]);
              old(Live(c)) && !(c.mutation && (reply.Unparsed? || (reply.Failed? && reply.transient))) ==>
                match reply
                case Failed(_, "") => model.notice == (if c.mutation then CannotSave else CannotLoad)
                case Failed(_, explained) => model.notice == Refused(explained)
                case Unparsed => model.notice == Notice.Unreadable
                case Values(_) => model.notice == (if old(request.writeUnconfirmed) && !c.mutation then Review else Quiet)
    {
      var c := calls[id];
      if !Live(c) {
        calls := calls - {id};
        return;
      }
      Finish(id, reply);
      if kind == CustomDns && c.whileConnected && (reply.Values? || Unknown(c, reply)) {
        restartRequired := true;
      }
      if Unknown(c, reply) {
        Confirm();
        return;
      }
      model := model.(notice := NoticeAfter(c, reply, request.writeUnconfirmed));
    }

    /** The state after the answer to the live call; a write of unknown outcome is followed by a read, never by a write. */
    ghost predicate Settled(c: Call, reply: Reply, oldModel: Model, oldLog: seq<Event>, oldNext: nat, wasRequired: bool)
      reads `session, `model, `trace, `restartRequired, request
    {
      && model.loaded == (oldModel.loaded || reply.Values?)
      && model.values == (if reply.Values? then reply.values else oldModel.values)
      && model.notice == (if Unknown(c, reply) then Confirming else NoticeAfter(c, reply, request.writeUnconfirmed))
      && trace.log == oldLog + [Finished(c, reply)] + (if Unknown(c, reply) && session.CanServe() then [ReadSent(oldNext)] else [])
      && restartRequired == (wasRequired || (kind == CustomDns && c.whileConnected && (reply.Values? || Unknown(c, reply))))
    }

    method Finish(id: nat, reply: Reply)
      requires Valid() && id in calls && Live(calls[id])
      modifies `model, `calls, `trace, request
      ensures Valid() && request.generation == old(request.generation)
      ensures calls == old(calls) - {id}
      ensures !request.Busy() || request.NeedsRead()
      ensures Unknown(old(calls[id]), reply) ==> request.NeedsRead()
      ensures model.loaded == (old(model.loaded) || reply.Values?)
      ensures model.values == if reply.Values? then reply.values else old(model.values)
      ensures trace.log == old(trace.log) + [Finished(old(calls[id]), reply)]
      ensures old(calls[id].mutation) ==> request.writeUnconfirmed == Unknown(old(calls[id]), reply)
      ensures !old(calls[id].mutation) ==> request.writeUnconfirmed == old(request.writeUnconfirmed)
      ensures request.phase == (if Unknown(old(calls[id]), reply) || (old(request.phase) == ReconcileRead && !reply.Values?)
                                then ReconcileNeeded else Idle)
    {
      var c := calls[id];
      if reply.Values? {
        model := model.(loaded := true, values := reply.values);
      }
      Note(Finished(c, reply));
      request.Complete(c.stamp, reply.Values?, Unknown(c, reply));
      model := model.(busy := request.Busy());
      calls := calls - {id};
    }

    // ---- Backend and session ----

    /** A notification of the owner: new values, while signed in. */
    method OnChanged(reply: Reply)
      requires Valid() && !reply.Failed?
      modifies `model
      ensures Valid()
      ensures model == if !session.loggedIn then old(model)
                       else if reply.Values? then old(model).(loaded := true, values := reply.values)
                       else old(model).(notice := Unreadable)
    {
      if !session.loggedIn {
        return;
      }
      model := if reply.Values? then model.(loaded := true, values := reply.values) else model.(notice := Unreadable);
    }

    /** The end of a session or an owner: its requests are forgotten. */
    method EndSession(renewed: Session, notice: Notice)
      requires Valid() && !renewed.loggedIn && (renewed.available ==> renewed.pinned)
      requires renewed.backend >= session.backend && renewed.session >= session.session
      modifies `session, `model, `trace, request
      ensures Valid() && session == renewed && request.phase == Idle
      ensures model == Model(false, false, old(model.values), notice) && trace.log == old(trace.log) + [SessionEnded]
    {
      Note(SessionEnded);
      request.Invalidate();
      session, model := renewed, Model(false, false, model.values, notice);
    }

    /** A snapshot that could not be used makes the session unhealthy; only an accepted one heals it. */
    method RejectSnapshot()
      requires Valid()
      modifies `session
      ensures Valid() && session == old(session).(healthy := false)
    {
      session := session.(healthy := false);
    }

    method AdoptSnapshot(ready: bool, loggedIn: bool, state: string)
      requires Valid() && session.pinned
      modifies `session, `model, `trace, request
      ensures Valid()
      ensures session == old(session).(ready := ready, loggedIn := loggedIn, healthy := true, state := state,
                                       session := old(session.session) + if loggedIn != old(session.loggedIn) then 1 else 0)
      ensures if old(session.loggedIn) && !loggedIn then
                model == Model(false, false, old(model.values), Quiet) && trace.log == old(trace.log) + [SessionEnded]
              else model == old(model) && trace == old(trace) && request.phase == old(request.phase)
    {
      var count := session.session + if loggedIn != session.loggedIn then 1 else 0;
      var renewed := session.(ready := ready, loggedIn := loggedIn, healthy := true, state := state, session := count);
      if session.loggedIn && !loggedIn {
        EndSession(renewed, Quiet);
      } else {
        session := renewed;
      }
    }

    /** Retrying a failed confirmation is a read; no write is replayed. */
    method ApplySnapshot(ready: bool, loggedIn: bool, busy: bool, state: string)
      requires Valid() && session.pinned
      modifies `session, `model, `restartRequired, `calls, `next, `trace, request
      ensures Valid() && session.ready == ready && session.loggedIn == loggedIn && session.healthy && session.state == state
      ensures restartRequired == (old(restartRequired) && state == "connected")
      ensures old(session.loggedIn) == loggedIn && session.CanServe() && !busy && old(request.NeedsRead()) ==>
                trace.log == old(trace.log) + [ReadSent(old(next))] && request.phase == ReconcileRead
      ensures forall i :: |old(trace.log)| <= i < |trace.log| ==> !trace.log[i].WriteSent? && !trace.log[i].UpdateRequested?
      ensures var serves := session.available && ready && loggedIn;
              var ended := old(session.loggedIn) && !loggedIn;
              var first := !ended && serves && !busy && old(request.phase) == ReconcileNeeded;
              var due := serves && kind == VpnSettings && (!old(model.loaded) || old(session.state) != state) && old(request.phase) == Idle;
              trace.log == old(trace.log) + (if ended then [SessionEnded] else []) + (if first || due then [ReadSent(old(next))] else [])
    {
      var previous := session.state;
      AdoptSnapshot(ready, loggedIn, state);
      if state != "connected" {
        restartRequired := false;
      }
      if ready && loggedIn && !busy && request.NeedsRead() {
        Load();
      }
      if kind == VpnSettings && ready && loggedIn && (!model.loaded || previous != state) && !model.busy {
        Load();
      }
    }

    method SetBackendAvailable(available: bool)
      requires Valid() && (available ==> session.pinned)
      modifies `session
      ensures Valid() && session == old(session).(available := available)
    {
      session := session.(available := available);
    }

    /** Too many failed snapshot reads, or the backend refused this client. */
    method LoseBackend(rejected: bool)
      requires Valid()
      modifies `session
      ensures Valid() && session == old(session).(ready := false, available := old(session.available) && !rejected)
    {
      session := session.(ready := false, available := session.available && !rejected);
    }

    method OnServiceRegistered()
      requires Valid() && !session.pinned
      modifies `session
      ensures Valid() && session == old(session).(backend := old(session.backend) + 1, available := false, healthy := true)
    {
      session := session.(backend := session.backend + 1, available := false, healthy := true);
    }

    method PinOwner()
      requires Valid()
      modifies `session
      ensures Valid() && session == old(session).(pinned := true)
    {
      session := session.(pinned := true);
    }

    method OnServiceUnregistered()
      requires Valid()
      modifies `session, `model, `trace, request
      ensures Valid() && request.phase == Idle && trace.log == old(trace.log) + [SessionEnded]
      ensures model == Model(false, false, old(model.values), Stopped)
      ensures session == Session(false, false, false, false, true, "unavailable", old(session.backend) + 1,
                                 old(session.session) + if old(session.loggedIn) then 1 else 0)
    {
      EndSession(Session(false, false, false, false, true, "unavailable", session.backend + 1,
                         session.session + if session.loggedIn then 1 else 0), Stopped);
    }
  }

  /** Requests in progress are exactly the live calls: one while the phase is a read or a write, none otherwise. */
  lemma PhaseIsOneLiveCall(p: SettingsProjection)
    requires p.Valid()
    ensures var live := set id | id in p.calls && p.Live(p.calls[id]);
            |live| == if p.request.phase.Idle? || p.request.phase.ReconcileNeeded? then 0 else 1
    ensures p.model.busy == p.request.Busy()
  {
    var live := set id | id in p.calls && p.Live(p.calls[id]);
    if p.trace.seen.live.Nothing? {
      assert live == {};
    } else {
      assert live == {p.trace.seen.live.id};
    }
  }

  // ---- Whole runs ----

  datatype Stimulus =
    | ReadAsked
    | UpdateAsked(patch: string, verdict: Verdict)
    | Answered(id: nat, reply: Reply)
    | Announced(reply: Reply)
    | SnapshotAccepted(ready: bool, loggedIn: bool, busy: bool, state: string)
    | SnapshotRejected
    | Reached(available: bool)
    | BackendLost(rejected: bool)
    | OwnerAppeared
    | OwnerTrusted
    | OwnerVanished

  /** The calls whose answers count. */
  ghost function LiveCalls(p: SettingsProjection): map<nat, Call>
    reads p, p.request
  {
    map id | id in p.calls && p.Live(p.calls[id]) :: p.calls[id]
  }

  /** What an event adds to the history, given the live calls it finds; only the user's request adds a write. */
  predicate Heard(s: Stimulus, live: map<nat, Call>, added: seq<Event>) {
    match s
    case UpdateAsked(patch, verdict) =>
      added != [] ==> verdict.Fine? && |added| == 2 && added[0] == UpdateRequested(patch) && added[1].WriteSent? && added[1].patch == patch
    case Answered(id, reply) =>
      if id !in live then added == []
      else
        && 0 < |added| <= 2 && (|added| == 2 ==> added[1].ReadSent?)
        && if !live[id].mutation then added[0] == ReadFinished(id, reply.Values?)
           else added[0] == WriteFinished(id, if reply.Values? then Done else if reply.Unparsed? then Garbled
                                              else if reply.transient then TimedOut else Declined)
    case ReadAsked => |added| <= 1 && forall e :: e in added ==> e.ReadSent?
    case SnapshotAccepted(_, _, _, _) => forall e :: e in added ==> e.ReadSent? || e.SessionEnded?
    case OwnerVanished => added == [SessionEnded]
    case _ => added == []
  }

  /** Events that cannot happen in the current state, such as an answer to no call, are skipped. */
  method React(p: SettingsProjection, s: Stimulus)
    requires p.Valid()
    modifies p, p.request
    ensures p.Valid() && old(p.trace.log) <= p.trace.log
    ensures Heard(s, old(LiveCalls(p)), p.trace.log[|old(p.trace.log)|..]) && Told(s, old(p.session), p.session)
  {
    match s
    case ReadAsked => p.Load();
    case UpdateAsked(patch, verdict) => p.Update(patch, verdict);
    case Answered(id, reply) => if id in p.calls { p.OnReply(id, reply); }
    case Announced(reply) => if !reply.Failed? { p.OnChanged(reply); }
    case SnapshotAccepted(ready, loggedIn, busy, state) =>
      if p.session.pinned { p.ApplySnapshot(ready, loggedIn, busy, state); }
    case SnapshotRejected => p.RejectSnapshot();
    case Reached(available) => if p.session.pinned { p.SetBackendAvailable(available); }
    case BackendLost(rejected) => p.LoseBackend(rejected);
    case OwnerAppeared => if !p.session.pinned { p.OnServiceRegistered(); }
    case OwnerTrusted => p.PinOwner();
    case OwnerVanished => p.OnServiceUnregistered();
  }

  /** Every event left its part of the history, one after the other, given the live calls it found. */
  ghost predicate AllHeard(stimuli: seq<Stimulus>, found: seq<map<nat, Call>>, marks: seq<nat>, log: seq<Event>) {
    && Chaptered(marks, log) && |marks| == |stimuli| + 1 && |found| == |stimuli|
    && forall i: nat :: i < |stimuli| ==> Heard(stimuli[i], found[i], Chapter(marks, log, i))
  }

  /** What an event tells of the owner and its session. */
  predicate Told(s: Stimulus, was: Session, now: Session) {
    match s
    case SnapshotAccepted(ready, loggedIn, _, state) =>
      if was.pinned then now.ready == ready && now.loggedIn == loggedIn && now.healthy && now.state == state else now == was
    case SnapshotRejected => now == was.(healthy := false)
    case Reached(available) => now == if was.pinned then was.(available := available) else was
    case BackendLost(rejected) => now == was.(ready := false, available := was.available && !rejected)
    case OwnerAppeared => now == if was.pinned then was else was.(backend := was.backend + 1, available := false, healthy := true)
    case OwnerTrusted => now == was.(pinned := true)
    case OwnerVanished => !now.pinned && !now.available && !now.loggedIn && now.backend == was.backend + 1
    case _ => now == was
  }

  /** Any events, in any order: every write answers the user's last request, and none slips past an unconfirmed one. */
  method RunProjection(kind: Kind, stimuli: seq<Stimulus>)
      returns (p: SettingsProjection, ghost found: seq<map<nat, Call>>, ghost marks: seq<nat>, ghost sessions: seq<Session>)
    ensures fresh(p) && fresh(p.request) && p.Valid()
    ensures AllHeard(stimuli, found, marks, p.trace.log)
    ensures |sessions| == |stimuli| + 1 && forall i: nat :: i < |stimuli| ==> Told(stimuli[i], sessions[i], sessions[i + 1])
    ensures forall i :: 0 <= i < |p.trace.log| && p.trace.log[i].WriteSent? ==>
              i > 0 && p.trace.log[i - 1] == UpdateRequested(p.trace.log[i].patch)
    ensures forall i, j :: 0 <= i < j < |p.trace.log| && p.trace.log[i].WriteFinished?
                           && (p.trace.log[i].answer == TimedOut || p.trace.log[i].answer == Garbled) && p.trace.log[j].WriteSent? ==>
                ReadBetween(p.trace.log, i, j) || exists k :: i < k < j && p.trace.log[k].SessionEnded?
  {
    p := new SettingsProjection(kind);
    found, marks, sessions := [], [0], [p.session];
    for i := 0 to |stimuli|
      invariant fresh(p) && fresh(p.request) && p.Valid()
      invariant AllHeard(stimuli[..i], found, marks, p.trace.log)
      invariant |sessions| == i + 1 && sessions[i] == p.session
      invariant forall j: nat :: j < i ==> Told(stimuli[j], sessions[j], sessions[j + 1])
    {
      ghost var (live, before) := (LiveCalls(p), p.trace.log);
      React(p, stimuli[i]);
      AddChapter(marks, before, p.trace.log);
      found, marks, sessions := found + [live], marks + [|p.trace.log|], sessions + [p.session];
    }
    assert stimuli[..|stimuli|] == stimuli;
    ghost var (views, log) := (p.trace.views, p.trace.log);
    forall i | 0 <= i < |log| && log[i].WriteSent? ensures i > 0 && log[i - 1] == UpdateRequested(log[i].patch) {
      EachWriteWasJustAskedFor(views, log, i);
    }
    forall i, j | 0 <= i < j < |log| && log[i].WriteFinished? && (log[i].answer == TimedOut || log[i].answer == Garbled) && log[j].WriteSent?
      ensures ReadBetween(log, i, j) || exists k :: i < k < j && log[k].SessionEnded?
    {
      WriteGate(views, log, i, j);
    }
  }
}
