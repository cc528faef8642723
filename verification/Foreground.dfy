/**
 Foreground operations, snapshot reads and packet capture of the Control Center
 (src/VpnControllerActions.cpp, src/VpnControllerSnapshot.cpp, src/VpnControllerLifecycle.cpp,
 src/VpnController.cpp). Every public method is one event of the main loop.
 */
module Foreground {
  import opened ForegroundProtocol
  import Actions = ConnectionAction
  import Text

  // ---- Failures of calls (src/BackendCallPolicy.h) ----

  datatype ErrorName = SecretPayloadName | UnauthorizedName | OtherName

  datatype Failure = Unavailable | CompletionUnknown | Unauthorized | InvalidSecretPayload | Rejected

  function Classify(errorType: ErrorType, name: ErrorName): Failure {
    if name.SecretPayloadName? then InvalidSecretPayload
    else if name.UnauthorizedName? then Unauthorized
    else match errorType
      case OwnerUnknown => Unavailable
      case NoAnswer => CompletionUnknown
      case OtherType => Rejected
  }

  /** A secret that could not be read and a client not admitted are known by name, whatever the type says. */
  lemma ClassifiedByName(errorType: ErrorType, name: ErrorName)
    ensures Classify(errorType, name) == InvalidSecretPayload <==> name == SecretPayloadName
    ensures Classify(errorType, name) == Unauthorized <==> name == UnauthorizedName
    ensures Classify(errorType, name) == Unavailable <==> name == OtherName && errorType == OwnerUnknown
    ensures Classify(errorType, name) == CompletionUnknown <==> name == OtherName && errorType == NoAnswer
    ensures Classify(errorType, name) == Rejected <==> name == OtherName && errorType == OtherType
  {
  }

  datatype Outcome = Succeeded | Failed(errorType: ErrorType, name: ErrorName) {
    /** The owner is the same and may still be working on the call. */
    predicate Transient() {
      Failed? && errorType.NoAnswer?
    }

    /** As the history records it. */
    function Answer(): Answer {
      if Succeeded? then Success else Failure(errorType)
    }

    predicate Gone() {
      Failed? && Classify(errorType, name).Unavailable?
    }
  }

  // ---- State ----

  datatype Snapshot =
    Snapshot(ready: bool, loggedIn: bool, busy: bool, state: Actions.VpnState, auth: Actions.AuthState, captureActive: bool)

  /** Unusable: not JSON, an unsupported version, or incomplete. */
  datatype Payload = Unusable | Usable(snapshot: Snapshot)

  datatype ReadOutcome = ReadFailed(errorType: ErrorType, name: ErrorName) | Got(payload: Payload)

  datatype Expectation = NoExpectation | Expect(active: bool)

  datatype Capture = Capture(active: bool, expected: Expectation, failed: bool, pending: bool, stopRequested: bool) {
    /** A capture runs, may start, or is being stopped. */
    predicate CleanupRequired() {
      active || pending || stopRequested || expected == Expect(true)
    }

    predicate Stopping() {
      pending && expected == Expect(false)
    }
  }

  const NO_CAPTURE := Capture(false, NoExpectation, false, false, false)

  datatype Link = Link(pinned: bool, available: bool, ready: bool, healthy: bool, loggedIn: bool,
                       state: Actions.VpnState, auth: Actions.AuthState, backend: nat, session: nat)

  datatype Counters = Counters(foreground: nat, connection: nat, capture: nat)

  datatype Aim = NoAim | AimAt(target: Target)

  /** The wait for an operation whose reply never came. */
  datatype Wait = NoWait | Wait(foreground: nat, connection: nat, aim: Aim, observed: bool)

  datatype Reading = Reading(pending: bool, retries: nat, armed: bool)

  const READ_RETRIES := 3

  datatype Op = Plain | Logout | Connection(connection: nat, target: Target) | CaptureOp(generation: nat, start: bool)

  datatype Stamp = Stamp(backend: nat, session: nat, foreground: nat)

  datatype Call =
    | Read(backend: nat, wait: nat)
    | Operation(stamp: Stamp, op: Op)
    | Control(stamp: Stamp, owned: bool, op: Op)
    | Key(stamp: Stamp, updateBusy: bool)
  {
    /** Its answer decides the foreground operation it is stamped with. */
    predicate Owns() {
      Operation? || (Control? && op.Connection?) || (Key? && updateBusy)
    }

    function Purpose(): Purpose {
      if Read? then ForRead
      else if !Key? && op.Connection? then ForConnection
      else if Operation? && op.CaptureOp? then ForCapture(op.start)
      else ForOther
    }

    function Backend(): nat {
      if Read? then backend else stamp.backend
    }
  }

  /** What a caller of the operation methods asks for. */
  datatype Request = Connect | StartCapture | StopCapture | LogOut | Account {
    predicate ForCapture() {
      StartCapture? || StopCapture?
    }
  }

  datatype Trace = Trace(log: seq<Event>, views: seq<View>, seen: View) {
    ghost predicate Recorded() {
      Run(views, log) && seen == views[|log|]
    }
  }

  predicate RecoveryRequired(auth: Actions.AuthState) {
    auth.OtherAuth?
    && auth.name in ["authentication_unknown", "expired", "account_restart_required", "settings_unavailable", "protection_unknown"]
  }

  /** A read on its way to the owner. */
  predicate IsLiveRead(calls: map<nat, Call>, id: nat, backend: nat) {
    id in calls && calls[id].Read? && calls[id].backend == backend
  }

  ghost predicate AllReads(calls: map<nat, Call>, ids: set<nat>, backend: nat) {
    forall id :: id in ids ==> IsLiveRead(calls, id, backend)
  }

  ghost predicate NoneStrays(ids: set<nat>, pending: bool, reader: Awaited) {
    forall id :: id in ids ==> pending && reader == CallIs(id)
  }

  /** The calls in flight, by number. */
  datatype Bus = Bus(calls: map<nat, Call>, next: nat) {
    function Put(id: nat, call: Call): Bus {
      Bus(calls[id := call], next)
    }

    function Remove(id: nat): Bus {
      Bus(calls - {id}, next)
    }
  }

  /** The read a pending refresh waits for, all reads on their way to the present owner, and how often a refresh was given up. */
  datatype Readers = Readers(latest: Awaited, live: set<nat>, givenUp: nat)

  /** The state a packet capture is stopped in. */
  datatype Scene = Scene(link: Link, counters: Counters, busy: bool, wait: Wait, capture: Capture, reading: Reading, next: nat) {
    /** A stop asked for may be sent now; without a confirmed capture only if that is allowed. */
    predicate StopDue(allowUnconfirmed: bool) {
      && capture.stopRequested && !(capture.pending && capture.expected == Expect(false))
      && link.pinned && link.available && link.ready
      && (allowUnconfirmed || (!capture.failed && (capture.active || capture.expected == Expect(true))))
    }

    function StopNews(allowUnconfirmed: bool): seq<Event> {
      if StopDue(allowUnconfirmed) then [OperationBegan, Sent(next, ForCapture(false))] else []
    }

    /** The stop, if it is due, takes over as the operation in progress. */
    function Stopped(allowUnconfirmed: bool): Scene {
      if StopDue(allowUnconfirmed) then
        Scene(link, Counters(counters.foreground + 1, counters.connection, counters.capture + 1), true, NoWait,
              Capture(capture.active, Expect(false), false, true, true), reading, next + 1)
      else this
    }

    function ReadNews(): seq<Event> {
      if link.pinned && !reading.pending then [Sent(next, ForRead)] else []
    }

    function Refreshed(): Scene {
      if link.pinned && !reading.pending then this.(reading := reading.(pending := true), next := next + 1) else this
    }
  }

  class ForegroundController {
    var link: Link
    var counters: Counters
    var busy: bool
    var wait: Wait
    var capture: Capture
    var shutdownPending: bool
    var reading: Reading
    var bus: Bus
    ghost var owner: Awaited        // the call that decides the current foreground operation
    ghost var captureCall: CaptureCall  // the call the pending capture operation waits for
    ghost var readers: Readers
    ghost var trace: Trace

    // ---- Invariants ----

    /**
     What a call in flight says: stamps never run ahead, and calls to the current owner exist only while
     one is pinned; one call decides the current operation, and while it is out nothing waits for its
     outcome; a read stamped with the current wait was sent during it; one call answers a pending capture.
     */
    ghost predicate Fits(id: nat, c: Call, connection: ConnectionView, waited: Reconciliation)
      reads `link, `counters, `wait, `bus, `owner, `captureCall, `readers
    {
      && id < bus.next && c.Backend() <= link.backend && (c.Backend() == link.backend ==> link.pinned)
      && match c
         case Read(backend, stamp) =>
           && stamp <= counters.foreground && (backend == link.backend ==> id in readers.live)
           && (stamp == counters.foreground && counters.foreground > 0 ==> owner.NoCall?)
           && (wait.Wait? && stamp == wait.foreground ==>
                 waited.Open? && id in waited.sent)
         case Operation(stamp, op) =>
           && InTime(stamp) && (stamp.foreground == counters.foreground ==> DecidesNow(id, op, connection))
           && (op.CaptureOp? ==> op.generation <= counters.capture
                                 && (op.generation == counters.capture ==> captureCall == CaptureIs(id, op.start)))
         case Control(stamp, owned, op) =>
           && InTime(stamp) && (op.Connection? ==> owned && (stamp.foreground == counters.foreground ==> DecidesNow(id, op, connection)))
         case Key(stamp, updateBusy) =>
           && InTime(stamp) && (updateBusy && stamp.foreground == counters.foreground ==> DecidesNow(id, Plain, connection))
    }

    predicate InTime(stamp: Stamp)
      reads `link, `counters
    {
      stamp.foreground <= counters.foreground && stamp.session <= link.session
    }

    ghost predicate DecidesNow(id: nat, op: Op, connection: ConnectionView)
      reads `counters, `wait, `owner
    {
      && owner == CallIs(id) && wait.NoWait? && counters.foreground > 0
      && (op.Connection? ==>
            && op.connection == counters.connection && op.target == connection.target
            && !connection.finished && connection.call == CallIs(id))
    }

    ghost predicate Tracked()
      reads `link, `counters, `wait, `bus, `owner, `captureCall, `readers, `trace
    {
      trace.seen.next <= bus.next && forall id :: id in bus.calls ==> Fits(id, bus.calls[id], trace.seen.connection, trace.seen.reconciliation)
    }

    /** A capture operation is pending exactly while the call for its generation is out. */
    ghost predicate CaptureExact()
      reads `link, `counters, `capture, `bus, `captureCall
    {
      && capture.pending == captureCall.CaptureIs?
      && (captureCall.CaptureIs? ==> captureCall.id in bus.calls && CurrentCapture(bus.calls[captureCall.id]))
    }

    predicate CurrentCapture(c: Call)
      reads `link, `counters
    {
      c.Operation? && c.op.CaptureOp? && c.op.generation == counters.capture && c.stamp.backend == link.backend
    }

    /** What the history says of packet capture is what the flags say. */
    static ghost predicate Agree(v: CaptureView, c: Capture, call: CaptureCall) {
      && v.call == call && v.running == c.active && v.asked == c.stopRequested
      && v.expected == (c.expected == Expect(true))
    }

    ghost predicate CaptureKnown()
      reads `capture, `captureCall, `trace
    {
      Agree(trace.seen.capture, capture, captureCall)
    }

    /** A refresh is never pending without a read on its way; more reads are out only if one was given up. */
    ghost predicate ReaderExact()
      reads `link, `reading, `bus, `readers
    {
      && reading.retries <= READ_RETRIES
      && AllReads(bus.calls, readers.live, link.backend)
      && (reading.pending ==> readers.latest.CallIs? && readers.latest.id in readers.live)
      && (readers.givenUp == 0 ==> ReadsExact())
    }

    /** Every read on its way is the one the pending mark stands for. */
    ghost predicate ReadsExact()
      reads `reading, `readers
    {
      NoneStrays(readers.live, reading.pending, readers.latest)
    }

    /** One event: no refresh was given up and reads are as exact as before, or one was just given up and its read strays. */
    ghost predicate Strayed(before: nat, wasExact: bool)
      reads `reading, `readers
    {
      (readers.givenUp == before && ReadsExact() == wasExact) || (readers.givenUp == before + 1 && !ReadsExact())
    }

    ghost predicate Matches()
      reads `link, `counters, `wait, `capture, `shutdownPending, `reading, `owner, `trace
    {
      && trace.Recorded()
      && trace.seen.connection.connection == counters.connection
      && trace.seen.shutdown == shutdownPending
      && trace.seen.reconciliation.Open? == wait.Wait?
      && (wait.Wait? ==>
            && wait.foreground == counters.foreground > 0 && owner.NoCall?
            && (wait.observed ==> trace.seen.reconciliation.observed)
            && (wait.aim.AimAt? ==>
                  && wait.connection == counters.connection && wait.aim.target == trace.seen.connection.target
                  && !trace.seen.connection.finished))
      && (link.loggedIn || link.available ==> link.pinned)
      && (!link.pinned ==> capture == NO_CAPTURE.(failed := capture.failed) && !shutdownPending && !reading.pending)
    }

    /** Everything but the agreement with the history of captures, which takes more than one step to restore. */
    ghost predicate Sound()
      reads this
    {
      Tracked() && CaptureExact() && ReaderExact() && Matches()
    }

    ghost predicate Valid()
      reads this
    {
      Sound() && CaptureKnown()
    }

    constructor ()
      ensures Valid() && trace.log == [] && !capture.CleanupRequired() && wait.NoWait?
      ensures link == Link(false, false, false, true, false, Actions.VpnState.Unavailable, Actions.SignedOut, 0, 0)
      ensures reading == Reading(false, 0, false) && readers.live == {} && readers.givenUp == 0
    {
      link := Link(false, false, false, true, false, Actions.VpnState.Unavailable, Actions.SignedOut, 0, 0);
      counters := Counters(0, 0, 0);
      busy, wait, capture, shutdownPending := false, NoWait, NO_CAPTURE, false;
      reading := Reading(false, 0, false);
      bus := Bus(map[], 0);
      owner, captureCall, readers := NoCall, NoCapture, Readers(NoCall, {}, 0);
      trace := Trace([], [START], START);
    }

    // ---- Recording and sending ----

    ghost method Note(e: Event)
      requires trace.Recorded() && Allowed(trace.seen, e)
      modifies `trace
      ensures trace.Recorded() && trace.log == old(trace.log) + [e]
      ensures trace.seen.next == if e.Sent? then e.id + 1 else old(trace.seen.next)
      ensures trace.seen.connection == NextConnection(old(trace.seen.connection), e)
      ensures trace.seen.reconciliation == NextReconciliation(old(trace.seen.reconciliation), e)
      ensures trace.seen.capture == NextCapture(old(trace.seen.capture), e)
      ensures trace.seen.shutdown == if e.ShutdownDeferred? then true else if e.ShutdownReady? then false else old(trace.seen.shutdown)
      ensures trace.seen.last == NextLast(e)
    {
      var seen := Next(trace.seen, e);
      Extend(trace.views, trace.log, e);
      trace := Trace(trace.log + [e], trace.views + [seen], seen);
    }

    /** A new foreground operation takes over: what was in progress no longer owns the result. */
    method Take()
      requires Valid()
      modifies `counters, `busy, `wait, `owner, `trace
      ensures Valid() && busy && wait.NoWait? && owner.NoCall?
      ensures counters == old(counters).(foreground := old(counters.foreground) + 1)
      ensures trace.log == old(trace.log) + [OperationBegan]
      ensures trace.seen.connection == old(trace.seen.connection) && Unread()
      ensures trace.seen.capture == old(trace.seen.capture)
    {
      StopWaiting();
      busy, owner := true, NoCall;
      counters := counters.(foreground := counters.foreground + 1);
    }

    method StopWaiting()
      requires Valid()
      modifies `wait, `trace
      ensures Valid() && wait.NoWait? && trace.log == old(trace.log) + [OperationBegan]
      ensures trace.seen.connection == old(trace.seen.connection)
      ensures trace.seen.capture == old(trace.seen.capture)
    {
      Note(OperationBegan);
      wait := NoWait;
    }

    /** No read is stamped with the current operation yet. */
    ghost predicate Unread()
      reads `counters, `bus
    {
      counters.foreground > 0 && forall id :: id in bus.calls && bus.calls[id].Read? ==> bus.calls[id].wait < counters.foreground
    }

    function Here(): Scene
      reads `link, `counters, `busy, `wait, `capture, `reading, `bus
    {
      Scene(link, counters, busy, wait, capture, reading, bus.next)
    }

    function Now(): Stamp
      reads `link, `counters
    {
      Stamp(link.backend, link.session, counters.foreground)
    }

    /** Sends the call that decides the operation just begun. */
    method SendOwning(call: Call)
      requires Valid() && link.pinned && wait.NoWait? && owner.NoCall? && Unread()
      requires call.Owns() && call.stamp == Now() && (call.Operation? ==> !call.op.CaptureOp?) && (call.Control? ==> call.owned)
      requires !call.Key? && call.op.Connection? ==>
                 && call.op.connection == counters.connection && call.op.target == trace.seen.connection.target
                 && !trace.seen.connection.finished && trace.seen.connection.call.NoCall?
      modifies `bus, `owner, `trace
      ensures Valid() && bus.calls == old(bus.calls)[old(bus.next) := call] && bus.next == old(bus.next) + 1
      ensures trace.log == old(trace.log) + [Sent(old(bus.next), call.Purpose())]
    {
      NoteSent(call.Purpose());
      bus := bus.Put(bus.next - 1, call);
      owner := CallIs(bus.next - 1);
    }

    /** A message leaves under the next number. */
    method NoteSent(purpose: Purpose)
      requires Valid() && !purpose.ForCapture?
      requires purpose.ForConnection? ==> !trace.seen.connection.finished && trace.seen.connection.call.NoCall? && owner.NoCall?
      modifies `bus, `trace
      ensures Valid() && bus == Bus(old(bus.calls), old(bus.next) + 1) && trace.log == old(trace.log) + [Sent(old(bus.next), purpose)]
      ensures trace.seen.connection == NextConnection(old(trace.seen.connection), Sent(old(bus.next), purpose))
      ensures trace.seen.reconciliation == NextReconciliation(old(trace.seen.reconciliation), Sent(old(bus.next), purpose))
      ensures trace.seen.capture == old(trace.seen.capture)
    {
      hide Run, Agree, Allowed;
      Note(Sent(bus.next, purpose));
      bus := Bus(bus.calls, bus.next + 1);
    }

    /**
     A new capture operation: the answer to an earlier one no longer counts. A start also withdraws a stop
     asked for before it.
     */
    method ExpectCapture(start: bool)
      requires Sound() && link.pinned && Unread()
      modifies `counters, `capture, `captureCall
      ensures Sound() && captureCall.NoCapture? && Unread()
      ensures counters == old(counters).(capture := old(counters.capture) + 1)
      ensures capture == Expecting(old(capture), start)
    {
      counters := counters.(capture := counters.capture + 1);
      capture, captureCall := Expecting(capture, start), NoCapture;
    }

    static function Expecting(c: Capture, start: bool): Capture {
      c.(pending := false, expected := Expect(start), failed := false, stopRequested := c.stopRequested && !start)
    }

    method SendCapture(start: bool)
      requires Sound() && link.pinned && wait.NoWait? && owner.NoCall? && Unread() && captureCall.NoCapture?
      requires capture.expected == Expect(start) && !capture.pending
      requires capture.stopRequested == !start && trace.seen.capture.running == capture.active
      requires !start ==> trace.seen.capture.asked
      modifies `capture, `captureCall, `bus, `owner, `trace
      ensures Valid() && capture == old(capture).(pending := true) && bus.next == old(bus.next) + 1
      ensures bus.calls == old(bus.calls)[old(bus.next) := Operation(Now(), CaptureOp(counters.capture, start))]
      ensures trace.log == old(trace.log) + [Sent(old(bus.next), ForCapture(start))]
      ensures trace.seen.capture == NextCapture(old(trace.seen.capture), Sent(old(bus.next), ForCapture(start)))
    {
      AddCapture(start);
      Note(Sent(bus.next - 1, ForCapture(start)));
    }

    method AddCapture(start: bool)
      requires Sound() && link.pinned && wait.NoWait? && owner.NoCall? && Unread() && captureCall.NoCapture?
      modifies `capture, `captureCall, `bus, `owner
      ensures Sound() && capture == old(capture).(pending := true) && bus.next == old(bus.next) + 1 && captureCall == CaptureIs(old(bus.next), start)
      ensures bus.calls == old(bus.calls)[old(bus.next) := Operation(Now(), CaptureOp(counters.capture, start))]
    {
      capture := capture.(pending := true);
      owner, captureCall := CallIs(bus.next), CaptureIs(bus.next, start);
      bus := Bus(bus.calls[bus.next := Operation(Now(), CaptureOp(counters.capture, start))], bus.next + 1);
    }

    method StartConnection(target: Target)
      requires Valid() && wait.NoWait? && owner.NoCall? && Unread()
      modifies `counters, `trace
      ensures Valid() && counters == old(counters).(connection := old(counters.connection) + 1) && Unread()
      ensures trace.log == old(trace.log) + [ConnectionStarted(counters.connection, target)]
      ensures trace.seen.connection == ConnectionView(counters.connection, target, false, NoCall)
    {
      Note(ConnectionStarted(counters.connection + 1, target));
      counters := counters.(connection := counters.connection + 1);
    }

    method Refresh()
      requires Valid()
      modifies `reading, `bus, `readers, `trace
      ensures readers.givenUp == old(readers.givenUp)
      ensures trace.seen.capture == old(trace.seen.capture)
      ensures Valid() && ReadsExact() == old(ReadsExact()) && (link.pinned ==> reading.pending)
      ensures if !link.pinned || old(reading.pending) then
                reading == old(reading) && bus.calls == old(bus.calls) && bus.next == old(bus.next) && trace == old(trace)
              else
                && bus.next == old(bus.next) + 1
                && reading == old(reading).(pending := true)
                && bus.calls == old(bus.calls)[old(bus.next) := Read(link.backend, if wait.Wait? then wait.foreground else 0)]
                && trace.log == old(trace.log) + [Sent(old(bus.next), ForRead)]
    {
      if !link.pinned || reading.pending {
        return;
      }
      assert bus.next !in bus.calls;
      NoteSent(ForRead);
      AddRead(bus.next - 1);
    }

    method AddRead(id: nat)
      requires Valid() && link.pinned && !reading.pending && id < bus.next && id !in bus.calls
      requires wait.Wait? ==> id in trace.seen.reconciliation.sent
      modifies `reading, `bus, `readers
      ensures Valid() && ReadsExact() == old(ReadsExact()) && reading == old(reading).(pending := true)
      ensures bus == old(bus).Put(id, Read(link.backend, if wait.Wait? then wait.foreground else 0))
      ensures readers.givenUp == old(readers.givenUp)
    {
      reading := reading.(pending := true);
      bus := bus.Put(id, Read(link.backend, if wait.Wait? then wait.foreground else 0));
      readers := readers.(latest := CallIs(id), live := readers.live + {id});
    }

    // ---- Operations ----

    predicate Reachable()
      reads `link
    {
      link.available && link.pinned
    }

    /** A capture may be stopped even when the last snapshot was unusable. */
    predicate CanCall(request: Request)
      reads `link
    {
      Reachable() && (link.healthy || request.StopCapture?)
    }

    /** The operation a request becomes once it is begun. */
    function OpOf(request: Request): Op
      reads `counters
    {
      match request
      case Connect => Connection(counters.connection, Connected)
      case StartCapture => CaptureOp(counters.capture, true)
      case StopCapture => CaptureOp(counters.capture, false)
      case LogOut => Logout
      case Account => Plain
    }

    /** One operation was begun, and its one call is on its way. */
    ghost predicate Began(request: Request, counted: Counters, oldCapture: Capture, oldCalls: map<nat, Call>, id: nat, oldLog: seq<Event>)
      reads `link, `counters, `busy, `wait, `capture, `bus, `trace
    {
      && busy && wait.NoWait? && counters == Counted(request, counted)
      && capture == (if request.ForCapture() then Expecting(oldCapture, request.StartCapture?).(pending := true) else oldCapture)
      && bus.calls == oldCalls[id := Operation(Now(), OpOf(request))] && bus.next == id + 1
      && trace.log == oldLog + Announcements(request, counters.connection, id)
    }

    static function Counted(request: Request, c: Counters): Counters {
      Counters(c.foreground + 1, if request.Connect? then c.connection + 1 else c.connection,
               if request.ForCapture() then c.capture + 1 else c.capture)
    }

    static function Announcements(request: Request, connection: nat, id: nat): seq<Event> {
      if request.Connect? then [OperationBegan, ConnectionStarted(connection, Connected), Sent(id, ForConnection)]
      else if request.ForCapture() then [OperationBegan, Sent(id, ForCapture(request.StartCapture?))]
      else [OperationBegan, Sent(id, ForOther)]
    }

    method CallOperation(request: Request)
      requires Valid()
      requires request.StopCapture? ==> capture.stopRequested
      modifies `counters, `busy, `wait, `capture, `captureCall, `bus, `owner, `trace
      ensures Valid()
      ensures if CanCall(request) then Began(request, old(counters), old(capture), old(bus.calls), old(bus.next), old(trace.log))
              else
                && counters == old(counters) && busy == old(busy) && wait == old(wait) && capture == old(capture)
                && bus.calls == old(bus.calls) && trace == old(trace)
      ensures CanCall(request) && request.ForCapture() ==>
                trace.seen.capture == NextCapture(old(trace.seen.capture), Sent(old(bus.next), ForCapture(request.StartCapture?)))
    {
      if !link.available || !link.pinned || (!link.healthy && !request.StopCapture?) {
        return;
      }
      match request
      case Connect => BeginConnection(Connected);
      case StartCapture => BeginCapture(true);
      case StopCapture => BeginCapture(false);
      case LogOut => BeginAccount(Logout);
      case Account => BeginAccount(Plain);
    }

    function ConnectionCall(target: Target): Call
      reads `link, `counters
    {
      if target.Connected? then Operation(Now(), Connection(counters.connection, target))
      else Control(Now(), true, Connection(counters.connection, target))
    }

    method BeginConnection(target: Target)
      requires Valid() && link.pinned
      modifies `counters, `busy, `wait, `bus, `owner, `trace
      ensures Valid() && busy && wait.NoWait? && bus.next == old(bus.next) + 1
      ensures counters == Counters(old(counters.foreground) + 1, old(counters.connection) + 1, old(counters.capture))
      ensures bus.calls == old(bus.calls)[old(bus.next) := ConnectionCall(target)]
      ensures trace.log == old(trace.log) + [OperationBegan, ConnectionStarted(counters.connection, target), Sent(old(bus.next), ForConnection)]
    {
      Take();
      StartConnection(target);
      SendOwning(ConnectionCall(target));
    }

    method BeginCapture(start: bool)
      requires Valid() && link.pinned && (!start ==> capture.stopRequested)
      modifies `counters, `busy, `wait, `capture, `captureCall, `bus, `owner, `trace
      ensures Valid() && busy && wait.NoWait? && bus.next == old(bus.next) + 1
      ensures counters == Counters(old(counters.foreground) + 1, old(counters.connection), old(counters.capture) + 1)
      ensures capture == Expecting(old(capture), start).(pending := true)
      ensures bus.calls == old(bus.calls)[old(bus.next) := Operation(Now(), CaptureOp(counters.capture, start))]
      ensures trace.log == old(trace.log) + [OperationBegan, Sent(old(bus.next), ForCapture(start))]
      ensures trace.seen.capture == NextCapture(old(trace.seen.capture), Sent(old(bus.next), ForCapture(start)))
    {
      hide Run, NextCapture, CaptureExact, ReaderExact, Matches, Fits, Tracked, NextReconciliation, NextConnection, Allowed;
      Take();
      ExpectCapture(start);
      SendCapture(start);
    }

    method BeginAccount(op: Op)
      requires Valid() && link.pinned && (op.Plain? || op.Logout?)
      modifies `counters, `busy, `wait, `bus, `owner, `trace
      ensures Valid() && busy && wait.NoWait? && bus.next == old(bus.next) + 1
      ensures counters == old(counters).(foreground := old(counters.foreground) + 1)
      ensures bus.calls == old(bus.calls)[old(bus.next) := Operation(Now(), op)]
      ensures trace.log == old(trace.log) + [OperationBegan, Sent(old(bus.next), ForOther)]
    {
      Take();
      SendOwning(Operation(Now(), op));
    }

    /** A reachable, healthy and idle session of an account in good standing that has a connection to make or to change. */
    predicate CanConnect()
      reads `link, `busy, `wait
    {
      && link.pinned && link.available && link.ready && link.healthy && link.loggedIn && !busy && wait.NoWait?
      && (link.auth.SignedIn? || link.auth.SignedInDegraded?)
      && (link.state.Disconnected? || link.state.Connected? || link.state.Error?)
    }

    /** There is a connection to end, or one may be about to be made. */
    predicate CanDisconnect()
      reads `link, `busy, `wait
    {
      && link.pinned && link.available && link.ready && link.healthy
      && match link.state
         case Connected => true
         case Connecting => true
         case Error => true
         case Disconnected => busy || wait.Wait?
         case _ => false
    }

    /** The user picks a target; the countries, groups and servers differ only in the message. */
    method ConnectTarget()
      requires Valid()
      modifies `counters, `busy, `wait, `capture, `captureCall, `bus, `owner, `trace
      ensures Valid()
      ensures if old(CanConnect()) then
                Began(Connect, old(counters), old(capture), old(bus.calls), old(bus.next), old(trace.log))
              else counters == old(counters) && capture == old(capture) && busy == old(busy) && bus.calls == old(bus.calls) && trace == old(trace)
    {
      if Capabilities().connect || Capabilities().activate {
        CallOperation(Connect);
      }
    }

    method ActivatePrimaryAction()
      requires Valid()
      modifies `counters, `busy, `wait, `capture, `captureCall, `bus, `owner, `trace
      ensures Valid() && capture == old(capture)
      ensures match link.state
              case Disconnected =>
                if old(CanConnect()) then Began(Connect, old(counters), old(capture), old(bus.calls), old(bus.next), old(trace.log))
                else bus.calls == old(bus.calls) && trace == old(trace)
              case _ =>
                if old(CanDisconnect()) then DisconnectBegan(old(counters), old(bus.calls), old(bus.next), old(trace.log))
                else bus.calls == old(bus.calls) && trace == old(trace)
    {
      if Capabilities().primaryDisconnects {
        Disconnect();
      } else {
        ConnectTarget();
      }
    }

    /** The account can only be recovered, in one of five ways. */
    predicate NeedsRecovery()
      reads `link
    {
      match link.auth
      case OtherAuth("authentication_unknown") => true
      case OtherAuth("expired") => true
      case OtherAuth("account_restart_required") => true
      case OtherAuth("settings_unavailable") => true
      case OtherAuth("protection_unknown") => true
      case _ => false
    }

    /** Signing in, a second factor and a security key are refused while the account needs recovery. */
    method SubmitSecret(updateBusy: bool)
      requires Valid()
      modifies `counters, `busy, `wait, `bus, `owner, `trace
      ensures Valid()
      ensures if NeedsRecovery() || (updateBusy && (!link.available || !link.ready || link.loggedIn || old(Busy()))) then
                counters == old(counters) && busy == old(busy) && wait == old(wait) && bus.calls == old(bus.calls) && trace == old(trace)
              else AsksForKey(updateBusy, old(counters), old(busy), old(wait), old(bus.calls), old(bus.next), old(trace.log))
    {
      if updateBusy && (!link.available || !link.ready || link.loggedIn || Busy()) {
        return;
      }
      if RecoveryRequired(link.auth) {
        return;
      }
      CallSecret(updateBusy);
    }

    method CallAccount(request: Request)
      requires Valid() && (request.LogOut? || request.Account?)
      modifies `counters, `busy, `wait, `capture, `captureCall, `bus, `owner, `trace
      ensures Valid() && capture == old(capture)
      ensures if !NeedsRecovery() && CanCall(request) then
                Began(request, old(counters), old(capture), old(bus.calls), old(bus.next), old(trace.log))
              else counters == old(counters) && busy == old(busy) && bus.calls == old(bus.calls) && trace == old(trace)
    {
      if RecoveryRequired(link.auth) {
        return;
      }
      CallOperation(request);
    }

    /** A disconnect is the operation in progress, and its one control call is on its way. */
    ghost predicate DisconnectBegan(counted: Counters, oldCalls: map<nat, Call>, id: nat, oldLog: seq<Event>)
      reads `link, `counters, `busy, `wait, `bus, `trace
    {
      && busy && wait.NoWait? && counters == Counters(counted.foreground + 1, counted.connection + 1, counted.capture)
      && bus.calls == oldCalls[id := Control(Now(), true, Connection(counters.connection, Disconnected))]
      && trace.log == oldLog + [OperationBegan, ConnectionStarted(counters.connection, Disconnected), Sent(id, ForConnection)]
    }

    /** Control calls do not wait for the operation in progress; a disconnect takes it over. */
    method Disconnect()
      requires Valid()
      modifies `counters, `busy, `wait, `bus, `owner, `trace
      ensures Valid()
      ensures if old(CanDisconnect()) then DisconnectBegan(old(counters), old(bus.calls), old(bus.next), old(trace.log))
              else counters == old(counters) && busy == old(busy) && wait == old(wait) && bus.calls == old(bus.calls) && trace == old(trace)
    {
      if !Capabilities().disconnect {
        return;
      }
      if !link.available || !link.pinned || !link.healthy {
        return;
      }
      BeginConnection(Disconnected);
    }

    function Capabilities(): Actions.Capabilities
      reads `link, `busy, `wait
    {
      Actions.ConnectionCapabilities(link.available, link.ready, link.healthy, link.loggedIn, Busy(), link.state, link.auth, false)
    }

    predicate Busy()
      reads `busy, `wait
    {
      busy || wait.Wait?
    }

    /** Another control call, which leaves the operation in progress alone. */
    method CallControl()
      requires Valid()
      modifies `bus, `trace
      ensures Valid()
      ensures if Reachable() && link.healthy then
                && bus.next == old(bus.next) + 1 && bus.calls == old(bus.calls)[old(bus.next) := Control(Now(), true, Plain)]
                && trace.log == old(trace.log) + [Sent(old(bus.next), ForOther)]
              else bus.calls == old(bus.calls) && bus.next == old(bus.next) && trace == old(trace)
    {
      if !link.available || !link.pinned || !link.healthy {
        return;
      }
      SendBeside(Control(Now(), true, Plain));
    }

    method SendBeside(call: Call)
      requires Valid() && link.pinned && !call.Read? && !call.Owns() && !call.Operation?
      requires call.Purpose().ForOther? && call.stamp.backend <= link.backend
      requires call.stamp.session <= link.session && call.stamp.foreground <= counters.foreground
      modifies `bus, `trace
      ensures Valid() && bus.calls == old(bus.calls)[old(bus.next) := call] && bus.next == old(bus.next) + 1
      ensures trace.log == old(trace.log) + [Sent(old(bus.next), ForOther)]
    {
      NoteSent(ForOther);
      bus := bus.Put(bus.next - 1, call);
    }

    /**
     The key call of a healthy, reachable backend; for an operation that shows as busy it is the operation's one
     call, and such an operation ends at once if the backend cannot be reached.
     */
    ghost predicate AsksForKey(updateBusy: bool, counted: Counters, wasBusy: bool, waited: Wait, oldCalls: map<nat, Call>, id: nat, oldLog: seq<Event>)
      reads `link, `counters, `busy, `wait, `bus, `trace
    {
      if !link.healthy || (!updateBusy && !Reachable()) then
        busy == wasBusy && wait == waited && counters == counted && bus.calls == oldCalls && trace.log == oldLog
      else
        && counters == counted.(foreground := counted.foreground + (if updateBusy then 1 else 0))
        && busy == (if updateBusy then Reachable() else wasBusy) && wait == (if updateBusy then NoWait else waited)
        && bus.calls == (if Reachable() then oldCalls[id := Key(Now().(foreground := if updateBusy then counters.foreground else 0), updateBusy)]
                     else oldCalls)
        && trace.log == oldLog + (if updateBusy then [OperationBegan] else []) + (if Reachable() then [Sent(id, ForOther)] else [])
    }

    /** An operation with protected data first asks for the key to protect it with. */
    method CallSecret(updateBusy: bool)
      requires Valid()
      modifies `counters, `busy, `wait, `bus, `owner, `trace
      ensures Valid()
      ensures AsksForKey(updateBusy, old(counters), old(busy), old(wait), old(bus.calls), old(bus.next), old(trace.log))
    {
      if !link.healthy {
        return;
      }
      if !updateBusy {
        if link.available && link.pinned {
          SendBeside(Key(Now().(foreground := 0), false));
        }
        return;
      }
      BeginSecret();
    }

    method BeginSecret()
      requires Valid()
      modifies `counters, `busy, `wait, `bus, `owner, `trace
      ensures Valid() && wait.NoWait? && busy == Reachable()
      ensures counters == old(counters).(foreground := old(counters.foreground) + 1)
      ensures if Reachable() then
                bus.calls == old(bus.calls)[old(bus.next) := Key(Now(), true)]
                && trace.log == old(trace.log) + [OperationBegan, Sent(old(bus.next), ForOther)]
              else bus.calls == old(bus.calls) && trace.log == old(trace.log) + [OperationBegan]
    {
      hide Run, Agree, NextCapture, CaptureExact, ReaderExact, Matches, Fits, Tracked, NextReconciliation, NextConnection, Allowed;
      Take();
      busy := link.available && link.pinned;
      if busy {
        SendOwning(Key(Now(), true));
      }
    }

    // ---- Packet capture and shutdown ----

    /** An unusable folder starts nothing. */
    method StartPacketCapture(directory: string)
      requires Valid()
      modifies `counters, `busy, `wait, `capture, `captureCall, `bus, `owner, `trace
      ensures Valid()
      ensures if !old(CanStartCapture()) then capture == old(capture) && counters == old(counters) && trace == old(trace)
              else if UsableFolder(directory) then
                Began(StartCapture, old(counters), old(capture), old(bus.calls), old(bus.next), old(trace.log))
              else
                && capture == old(capture).(stopRequested := false, expected := NoExpectation, failed := true)
                && counters == old(counters) && trace.log == old(trace.log) + [FolderRefused]
                && link == old(link) && busy == old(busy) && wait == old(wait)
      ensures old(CanStartCapture()) ==> trace.seen.capture.owed == (UsableFolder(directory) || old(trace.seen.capture.owed))
      ensures old(CanStartCapture()) && UsableFolder(directory) ==> trace.seen.capture.starts == old(trace.seen.capture.starts) + {old(bus.next)}
      ensures var path := Text.Trim(directory);
              old(CanStartCapture()) && 1 <= |path| <= 4096 && (forall i :: 0 <= i < |path| ==> path[i] !in "\n\r") ==>
                && capture == Capture(false, Expect(true), false, true, false) && busy && wait.NoWait?
                && trace.log == old(trace.log) + [OperationBegan, Sent(old(bus.next), ForCapture(true))]
      ensures var path := Text.Trim(directory);
              old(CanStartCapture()) && !(1 <= |path| <= 4096 && forall i :: 0 <= i < |path| ==> path[i] !in "\n\r") ==>
                capture == Capture(false, NoExpectation, true, old(capture.pending), false) && trace.log == old(trace.log) + [FolderRefused]
    {
      if !link.available || !link.ready || !link.loggedIn || !link.healthy || Busy()
         || !link.state.Connected? || capture.active {
        return;
      }
      if !UsableFolder(directory) {
        RefuseFolder();
        return;
      }
      CallOperation(StartCapture);
    }

    /** Even the expectation of a start already sent is dropped, and a stop asked for. */
    method RefuseFolder()
      requires Valid()
      modifies `capture, `trace
      ensures Valid() && trace.log == old(trace.log) + [FolderRefused]
      ensures capture == old(capture).(stopRequested := false, expected := NoExpectation, failed := true)
      ensures trace.seen.capture == NextCapture(old(trace.seen.capture), FolderRefused)
    {
      Note(FolderRefused);
      capture := capture.(stopRequested := false, expected := NoExpectation, failed := true);
    }

    predicate CanStartCapture()
      reads `link, `busy, `wait, `capture
    {
      link.available && link.ready && link.loggedIn && link.healthy && !Busy() && link.state.Connected? && !capture.active
    }

    static predicate UsableFolder(directory: string) {
      var path := Text.Trim(directory);
      0 < |path| <= 4096 && '\n' !in path && '\r' !in path
    }

    method StopPacketCapture()
      requires Valid()
      modifies `counters, `busy, `wait, `capture, `captureCall, `bus, `owner, `trace
      ensures Valid() && (old(capture.CleanupRequired()) ==> capture.CleanupRequired())
      ensures if old(capture.Stopping() || !(capture.stopRequested || shutdownPending || capture.active || capture.expected == Expect(true))) then
                capture == old(capture) && counters == old(counters) && trace == old(trace)
              else StopDispatched(false, old(Here()).(capture := old(capture).(failed := false, stopRequested := true)), old(bus.calls),
                                  old(trace.log) + [StopAsked])
      ensures trace.seen.capture.starts == old(trace.seen.capture.starts)
    {
      if capture.Stopping() {
        return;
      }
      if !capture.stopRequested && !shutdownPending && !capture.active && capture.expected != Expect(true) {
        return;
      }
      AskToStop();
      DispatchStop(false);
    }

    method AskToStop()
      requires Valid() && link.pinned
      modifies `capture, `trace
      ensures Valid() && trace.log == old(trace.log) + [StopAsked]
      ensures capture == old(capture).(failed := false, stopRequested := true)
      ensures trace.seen.capture.starts == old(trace.seen.capture.starts)
    {
      Note(StopAsked);
      capture := capture.(failed := false, stopRequested := true);
    }

    /** The stop was sent if it was due, and nothing changed otherwise. */
    ghost predicate StopDispatched(allowUnconfirmed: bool, before: Scene, oldCalls: map<nat, Call>, oldLog: seq<Event>)
      reads `link, `counters, `busy, `wait, `capture, `reading, `bus, `trace
    {
      && Here() == before.Stopped(allowUnconfirmed) && trace.log == oldLog + before.StopNews(allowUnconfirmed)
      && bus.calls == if before.StopDue(allowUnconfirmed) then oldCalls[before.next := Operation(Now(), CaptureOp(counters.capture, false))]
                      else oldCalls
    }

    method DispatchStop(allowUnconfirmed: bool)
      requires Valid()
      modifies `counters, `busy, `wait, `capture, `captureCall, `bus, `owner, `trace
      ensures Valid() && (old(capture.CleanupRequired()) ==> capture.CleanupRequired())
      ensures StopDispatched(allowUnconfirmed, old(Here()), old(bus.calls), old(trace.log))
      ensures !old(Here()).StopDue(allowUnconfirmed) ==> trace == old(trace) && owner == old(owner)
      ensures trace.seen.capture.starts == old(trace.seen.capture.starts)
    {
      hide Run, Fits, Tracked, NextReconciliation, NextConnection, Allowed;
      if !capture.stopRequested || capture.Stopping() {
        return;
      }
      if !link.available || !link.ready || (capture.failed && !allowUnconfirmed) {
        return;
      }
      if !capture.active && capture.expected != Expect(true) && !allowUnconfirmed {
        return;
      }
      CallOperation(StopCapture);
    }

    /** Asks to quit: at once if no capture needs cleaning up, otherwise once it was stopped. */
    method RequestShutdown() returns (now: bool)
      requires Valid()
      modifies `counters, `busy, `wait, `capture, `captureCall, `bus, `owner, `trace, `shutdownPending
      ensures Valid() && now == !old(capture.CleanupRequired())
      ensures if now then
                && shutdownPending == old(shutdownPending) && capture == old(capture)
                && trace.log == old(trace.log) + [ShutdownGranted] && trace.seen.capture == old(trace.seen.capture)
              else
                && shutdownPending && capture.CleanupRequired()
                && var deferred := old(trace.log) + if old(shutdownPending) then [] else [ShutdownDeferred];
                if old(capture.Stopping()) then trace.log == deferred && capture == old(capture)
                else StopDispatched(false, old(Here()).(capture := old(capture).(failed := false, stopRequested := true)), old(bus.calls),
                                    deferred + [StopAsked])
      ensures now <==> !old(KeepsFromQuitting(trace.log, |trace.log|))
      ensures now ==> (old(MayRun(trace.log, |trace.log|)) <==> old(LeftBehind(trace.log, |trace.log|)))
      ensures old(trace.log) <= trace.log
      ensures trace.log != old(trace.log) ==>
                trace.log[|old(trace.log)|] == if now then ShutdownGranted else if old(shutdownPending) then StopAsked else ShutdownDeferred
    {
      hide Run, Agree, NextCapture, CaptureExact, ReaderExact, Matches, Fits, Tracked, NextReconciliation, NextConnection,
           Allowed;
      QuitAbandonsExactly(this);
      if !capture.CleanupRequired() {
        GrantShutdown();
        return true;
      }
      if !shutdownPending {
        DeferShutdown();
      }
      StopPacketCapture();
      now := false;
    }

    method GrantShutdown()
      requires Valid() && !capture.CleanupRequired()
      modifies `trace
      ensures Valid() && trace.log == old(trace.log) + [ShutdownGranted] && trace.seen.capture == old(trace.seen.capture)
    {
      Note(ShutdownGranted);
    }

    method DeferShutdown()
      requires Valid() && !shutdownPending && capture.CleanupRequired()
      modifies `shutdownPending, `trace
      ensures Valid() && shutdownPending && trace.log == old(trace.log) + [ShutdownDeferred]
    {
      Note(ShutdownDeferred);
      shutdownPending := true;
    }

    /** Readiness is announced only when a request to quit would be granted. */
    method CompleteShutdownIfSafe()
      requires Valid()
      modifies `shutdownPending, `trace
      ensures Valid() && (shutdownPending ==> capture.CleanupRequired())
      ensures if old(shutdownPending) && !capture.CleanupRequired() then !shutdownPending && trace.log == old(trace.log) + [ShutdownReady]
              else shutdownPending == old(shutdownPending) && trace == old(trace)
      ensures old(shutdownPending) ==> (!shutdownPending <==> !old(KeepsFromQuitting(trace.log, |trace.log|)))
      ensures old(shutdownPending) && !shutdownPending ==>
                (old(MayRun(trace.log, |trace.log|)) <==> old(LeftBehind(trace.log, |trace.log|)))
      ensures trace.seen.capture.starts == old(trace.seen.capture.starts)
    {
      QuitAbandonsExactly(this);
      if !shutdownPending || capture.CleanupRequired() {
        return;
      }
      Note(ShutdownReady);
      shutdownPending := false;
    }

    // ---- Answers ----

    /** Another read is tried soon, or the backend is given up after three. */
    method ScheduleRetry()
      requires Valid()
      modifies `link, `busy, `reading, `readers
      ensures Valid() && (link, busy, reading) == AfterRetry(old(link), old(busy), old(reading))
      ensures ReadsExact() <==> old(ReadsExact()) && !GivesUp(old(link), old(reading))
      ensures readers.givenUp == old(readers.givenUp) + (if GivesUp(old(link), old(reading)) then 1 else 0)
      ensures Strayed(old(readers.givenUp), old(ReadsExact()))
    {
      if !link.pinned || reading.armed {
        return;
      }
      if reading.retries >= READ_RETRIES {
        GiveUp();
      } else {
        reading := reading.(retries := reading.retries + 1, armed := true);
      }
    }

    method GiveUp()
      requires Valid() && link.pinned && !reading.armed && reading.retries >= READ_RETRIES
      modifies `link, `busy, `reading, `readers
      ensures Valid() && (link, busy, reading) == AfterRetry(old(link), old(busy), old(reading))
      ensures ReadsExact() <==> old(ReadsExact()) && !old(reading.pending)
      ensures readers.givenUp == old(readers.givenUp) + (if old(reading.pending) then 1 else 0)
    {
      DropRefresh();
      busy, link := false, link.(ready := false, state := Actions.OtherState("unresponsive"));
    }

    /** Nothing is pending any more; the read that was sent stays on its way. */
    method DropRefresh()
      requires Valid()
      modifies `reading, `readers
      ensures Valid() && reading == old(reading).(pending := false)
      ensures ReadsExact() <==> old(ReadsExact()) && !old(reading.pending)
      ensures readers.givenUp == old(readers.givenUp) + (if old(reading.pending) then 1 else 0)
    {
      assert reading.pending ==> readers.latest.id in readers.live;
      readers := readers.(givenUp := readers.givenUp + if reading.pending then 1 else 0);
      reading := reading.(pending := false);
    }

    /** The retries are used up while a refresh is pending: its read stays out although nothing is pending any more. */
    static predicate GivesUp(l: Link, r: Reading) {
      l.pinned && !r.armed && r.retries >= READ_RETRIES && r.pending
    }

    static function AfterRetry(l: Link, b: bool, r: Reading): (Link, bool, Reading) {
      if !l.pinned || r.armed then (l, b, r)
      else if r.retries >= READ_RETRIES then
        (l.(ready := false, state := Actions.OtherState("unresponsive")), false, r.(pending := false))
      else (l, b, r.(retries := r.retries + 1, armed := true))
    }

    /** The answered call no longer decides anything; if it decided the current operation, that is now undecided. */
    method Dismiss(id: nat, answer: Answer)
      requires Valid() && id in bus.calls && !bus.calls[id].Read? && !CurrentCapture(bus.calls[id])
      modifies `bus, `owner, `trace
      ensures Valid() && bus == old(bus).Remove(id) && trace.log == old(trace.log) + [Replied(id, answer)]
      ensures trace.seen.last == LastReply(id, answer) && trace.seen.connection == old(trace.seen.connection)
      ensures old(bus.calls[id].stamp.backend) == link.backend ==> link.pinned
      ensures old(Decides(bus.calls[id])) ==> owner.NoCall? && wait.NoWait? && Unread()
      ensures old(Decides(bus.calls[id]) && !bus.calls[id].Key? && bus.calls[id].op.Connection?) ==> Undecided(id, old(bus.calls[id].op.target))
      ensures trace.seen.capture.starts == old(trace.seen.capture.starts) - {id}
    {
      RemoveCall(id);
      Note(Replied(id, answer));
    }

    method RemoveCall(id: nat)
      requires Valid() && id in bus.calls && !bus.calls[id].Read? && !CurrentCapture(bus.calls[id])
      modifies `bus, `owner
      ensures Valid() && bus == old(bus).Remove(id)
      ensures old(Decides(bus.calls[id])) ==> owner.NoCall? && wait.NoWait? && Unread()
      ensures old(Decides(bus.calls[id]) && !bus.calls[id].Key? && bus.calls[id].op.Connection?) ==> Undecided(id, old(bus.calls[id].op.target))
    {
      bus := bus.Remove(id);
      owner := if owner == CallIs(id) then NoCall else owner;
    }

    predicate Decides(c: Call)
      reads `counters
    {
      c.Owns() && c.stamp.foreground == counters.foreground
    }

    ghost predicate Undecided(id: nat, target: Target)
      reads `counters, `trace
    {
      var v := trace.seen.connection;
      v == ConnectionView(counters.connection, target, false, CallIs(id))
    }

    method DismissCapture(id: nat, answer: Answer)
      requires Valid() && id in bus.calls && CurrentCapture(bus.calls[id])
      modifies `bus, `owner, `captureCall, `capture, `trace
      ensures Sound() && bus == old(bus).Remove(id) && trace.log == old(trace.log) + [Replied(id, answer)]
      ensures capture == old(capture).(pending := false)
      ensures trace.seen.last == LastReply(id, answer) && link.pinned
      ensures trace.seen.capture.starts == old(trace.seen.capture.starts) - {id}
      ensures old(Decides(bus.calls[id])) ==> owner.NoCall? && wait.NoWait? && Unread()
      ensures trace.seen.capture == NextCapture(old(trace.seen.capture), Replied(id, answer))
      ensures if answer.Success? && !old(bus.calls[id].op.start) then CaptureOver() else Valid()
      ensures old(bus.calls[id].op.start) ==> trace.seen.capture.owed == old(trace.seen.capture.owed)
    {
      AlwaysRemembered(trace.views, trace.log, |trace.log|);
      RemoveCapture(id);
      Note(Replied(id, answer));
    }

    /** The history gives nothing to wait for. */
    ghost predicate CaptureOver()
      reads `captureCall, `trace
    {
      captureCall.NoCapture? && !trace.seen.capture.Obliged()
    }

    method RemoveCapture(id: nat)
      requires Sound() && id in bus.calls && CurrentCapture(bus.calls[id])
      modifies `bus, `owner, `captureCall, `capture
      ensures Sound() && captureCall.NoCapture? && bus == old(bus).Remove(id) && capture == old(capture).(pending := false)
      ensures old(Decides(bus.calls[id])) ==> owner.NoCall? && wait.NoWait? && Unread()
    {
      bus := bus.Remove(id);
      owner := if owner == CallIs(id) then NoCall else owner;
      captureCall, capture := NoCapture, capture.(pending := false);
    }

    /** The outcome of the current operation is unknown; only reads sent from now on can settle it. */
    method OpenWait(aim: Aim)
      requires Valid() && wait.NoWait? && owner.NoCall? && Unread()
      requires trace.seen.last.LastReply? && trace.seen.last.answer == Failure(NoAnswer)
      requires aim.AimAt? ==> aim.target == trace.seen.connection.target && !trace.seen.connection.finished
      modifies `wait, `trace
      ensures Valid() && trace.log == old(trace.log) + [ReconciliationOpened]
      ensures trace.seen.connection == old(trace.seen.connection)
      ensures wait == Wait(counters.foreground, if aim.AimAt? then counters.connection else 0, aim, false)
      ensures trace.seen.capture.starts == old(trace.seen.capture.starts)
    {
      Note(ReconciliationOpened);
      wait := Wait(counters.foreground, if aim.AimAt? then counters.connection else 0, aim, false);
    }

    method Announce(target: Target, acknowledged: bool)
      requires Valid() && wait.NoWait? && owner.NoCall? && !trace.seen.connection.finished && trace.seen.connection.target == target
      requires acknowledged ==> trace.seen.connection.call.CallIs? && trace.seen.last == LastReply(trace.seen.connection.call.id, Success)
      modifies `trace
      ensures Valid() && trace.log == old(trace.log) + [ConnectionFinished(counters.connection, target, acknowledged)]
      ensures trace.seen.capture.starts == old(trace.seen.capture.starts)
    {
      Note(ConnectionFinished(counters.connection, target, acknowledged));
    }

    /** A failed call: its operation is over, or waits for a fresh read if the owner may still be at work. */
    method Fail(global: bool, aim: Aim, r: Outcome)
      requires Valid() && r.Failed?
      requires global ==> wait.NoWait? && owner.NoCall? && Unread() && trace.seen.last.LastReply? && trace.seen.last.answer == r.Answer()
      requires global && aim.AimAt? ==> aim.target == trace.seen.connection.target && !trace.seen.connection.finished
      modifies `link, `busy, `wait, `trace
      ensures Valid() && trace.seen.connection == old(trace.seen.connection)
      ensures if global && r.Transient() then
                && trace.log == old(trace.log) + [ReconciliationOpened]
                && wait == Wait(counters.foreground, if aim.AimAt? then counters.connection else 0, aim, false)
              else
                trace == old(trace) && wait == old(wait)
      ensures (link, busy) == Lost(old(link), old(busy), global, r)
      ensures trace.seen.capture.starts == old(trace.seen.capture.starts)
    {
      if !global {
        return;
      }
      if r.Transient() {
        OpenWait(aim);
        return;
      }
      EndFailed(r.Gone());
    }

    method EndFailed(gone: bool)
      requires Valid()
      modifies `link, `busy
      ensures Valid() && !busy && link == old(link).(available := old(link.available) && !gone)
    {
      link, busy := link.(available := link.available && !gone), false;
    }

    /** What a failed call says of the owner, and whether the operation it decided is over. */
    static function Lost(l: Link, b: bool, global: bool, r: Outcome): (Link, bool) {
      if r.Transient() then (l, b) else (l.(available := l.available && !(global && r.Gone())), b && !global)
    }

    /** The state after a failed call, as long as no stop of a capture is asked for. */
    static function AfterFailed(l: Link, b: bool, reading: Reading, global: bool, r: Outcome): (Link, bool, Reading) {
      if r.Transient() then AfterRetry(l, b, reading)
      else var (lost, still) := Lost(l, b, global, r); (lost, still, reading)
    }

    /** A failed call, and a stop of a capture that was asked for and can be sent now. */
    ghost predicate FailedWith(global: bool, aim: Aim, r: Outcome, before: Scene, oldCalls: map<nat, Call>, oldLog: seq<Event>)
      reads `link, `counters, `busy, `wait, `capture, `reading, `bus, `trace
    {
      StopDispatched(false, FailedScene(global, aim, r, before), oldCalls, oldLog)
    }

    static function FailedScene(global: bool, aim: Aim, r: Outcome, before: Scene): Scene {
      var (lost, still, retried) := AfterFailed(before.link, before.busy, before.reading, global, r);
      var awaited := Wait(before.counters.foreground, if aim.AimAt? then before.counters.connection else 0, aim, false);
      before.(link := lost, busy := still, reading := retried, wait := if global && r.Transient() then awaited else before.wait)
    }

    /** What the answer to a connection's own call makes known. */
    static function ConnectionNews(id: nat, connection: nat, target: Target, global: bool, r: Outcome): seq<Event> {
      [Replied(id, r.Answer())] + ConnectionOutcome(connection, target, global, r)
    }

    static function ConnectionOutcome(connection: nat, target: Target, global: bool, r: Outcome): seq<Event> {
      if !global then []
      else if r.Transient() then [ReconciliationOpened]
      else [ConnectionFinished(connection, target, r.Succeeded?)]
    }

    /** From a position on no outcome is announced, and no wait opened or ended. */
    static ghost predicate Quiet(log: seq<Event>, from: nat) {
      forall i :: from <= i < |log| ==> !log[i].ConnectionFinished? && !log[i].ReconciliationOpened? && !log[i].Reconciled?
    }

    /** No outcome of a connection is announced from a position on. */
    static ghost predicate Unannounced(log: seq<Event>, from: nat) {
      forall i :: from <= i < |log| ==> !log[i].ConnectionFinished?
    }

    /** No wait for a missing answer is opened from a position on. */
    static ghost predicate Unopened(log: seq<Event>, from: nat) {
      forall i :: from <= i < |log| ==> !log[i].ReconciliationOpened?
    }

    /** The answer to a connect call sent as the foreground operation. */
    method OnConnectReply(id: nat, r: Outcome)
      requires Valid() && id in bus.calls && bus.calls[id].Operation? && bus.calls[id].op.Connection?
      modifies `link, `busy, `wait, `reading, `readers, `capture, `captureCall, `counters, `bus, `owner, `trace
      ensures Strayed(old(readers.givenUp), old(ReadsExact()))
      ensures Valid() && (old(capture.CleanupRequired()) ==> capture.CleanupRequired())
      ensures var c := old(bus.calls[id]);
              if c.stamp.backend != link.backend || c.op.connection != old(counters.connection) then
                && trace.log == old(trace.log) + [Replied(id, r.Answer())] && bus.calls == old(bus.calls) - {id}
                && capture == old(capture) && link == old(link) && busy == old(busy) && wait == old(wait) && reading == old(reading)
              else
                var global := c.stamp.foreground == old(counters.foreground);
                && old(trace.log) + ConnectionNews(id, c.op.connection, c.op.target, global, r) <= trace.log
                && (r.Succeeded? ==> reading.pending && link == old(link) && busy == old(busy) && wait == old(wait))
                && (r.Failed? ==> FailedWith(global, AimAt(c.op.target), r, old(Here()), old(bus.calls) - {id},
                                             old(trace.log) + ConnectionNews(id, c.op.connection, c.op.target, global, r)))
      ensures old(bus.calls[id].stamp.backend == link.backend && bus.calls[id].op.connection == counters.connection
                  && bus.calls[id].stamp.foreground == counters.foreground) && r.Failed? && r.errorType == NoAnswer ==>
                && old(trace.log) + [Replied(id, Failure(NoAnswer)), ReconciliationOpened] <= trace.log
                && Unannounced(trace.log, |old(trace.log)|)
                && (!old(capture.stopRequested) ==> wait.Wait? && !wait.observed && wait.aim == AimAt(old(bus.calls[id].op.target)))
      ensures old(bus.calls[id].stamp.backend == link.backend && bus.calls[id].op.connection == counters.connection
                  && bus.calls[id].stamp.foreground == counters.foreground)
              && r.Failed? && (r.errorType == OwnerUnknown || r.errorType == OtherType) ==>
                Unopened(trace.log, |old(trace.log)|)
                && old(trace.log) + [Replied(id, Failure(r.errorType)),
                                     ConnectionFinished(old(bus.calls[id].op.connection), old(bus.calls[id].op.target), false)] <= trace.log
                && (!old(capture.stopRequested) ==> !busy && wait == old(wait))
    {
      hide Run, Agree, NextCapture, CaptureExact, ReaderExact, Matches, Fits, Tracked, NextReconciliation, NextConnection,
           Allowed, Quiet, FailedWith;
      var c := bus.calls[id];
      var current := c.stamp.backend == link.backend && c.op.connection == counters.connection;
      var global := c.stamp.foreground == counters.foreground;
      Dismiss(id, r.Answer());
      if current {
        DecideConnect(id, global, c.op.target, r);
        assert old(trace.log) + [Replied(id, r.Answer())] + ConnectionOutcome(c.op.connection, c.op.target, global, r)
            == old(trace.log) + ConnectionNews(id, c.op.connection, c.op.target, global, r);
      }
    }

    method DecideConnect(id: nat, global: bool, target: Target, r: Outcome)
      requires Valid() && link.pinned && trace.seen.last == LastReply(id, r.Answer())
      requires global ==> wait.NoWait? && owner.NoCall? && Unread() && Undecided(id, target)
      modifies `link, `busy, `wait, `reading, `readers, `capture, `captureCall, `counters, `bus, `owner, `trace
      ensures Valid() && Strayed(old(readers.givenUp), old(ReadsExact())) && link.backend == old(link.backend)
      ensures old(capture.CleanupRequired()) ==> capture.CleanupRequired()
      ensures old(trace.log) + ConnectionOutcome(old(counters.connection), target, global, r) <= trace.log
      ensures r.Succeeded? ==> reading.pending && link == old(link) && busy == old(busy) && wait == old(wait)
      ensures r.Failed? ==> FailedWith(global, AimAt(target), r, old(Here()), old(bus.calls),
                                       old(trace.log) + ConnectionOutcome(old(counters.connection), target, global, r))
      ensures Quiet(trace.log, |old(trace.log)| + if global then 1 else 0)
      ensures global && r.Failed? && r.errorType == NoAnswer ==>
                Unannounced(trace.log, |old(trace.log)|)
                && (!old(capture.stopRequested) ==> wait.Wait? && !wait.observed && wait.aim == AimAt(target))
      ensures global && r.Failed? && r.errorType != NoAnswer ==>
                Unopened(trace.log, |old(trace.log)|) && (!old(capture.stopRequested) ==> !busy && wait == old(wait))
    {
      hide Run, Agree, NextCapture, CaptureExact, ReaderExact, Matches, Fits, Tracked, NextReconciliation, NextConnection,
           Allowed;
      if r.Failed? {
        FailConnect(global, target, r);
      } else {
        Succeed(id, global, target);
      }
    }

    /** The answer that decides a connection is announced as its success, and the new state is read. */
    method Succeed(id: nat, decides: bool, target: Target)
      requires Valid() && link.pinned
      requires decides ==> wait.NoWait? && owner.NoCall? && Undecided(id, target) && trace.seen.last == LastReply(id, Success)
      modifies `reading, `readers, `bus, `trace
      ensures readers.givenUp == old(readers.givenUp)
      ensures Valid() && reading.pending && ReadsExact() == old(ReadsExact())
      ensures old(trace.log) + (if decides then [ConnectionFinished(counters.connection, target, true)] else []) <= trace.log
      ensures if old(reading.pending) then reading == old(reading) && bus.calls == old(bus.calls) && bus.next == old(bus.next)
              else bus.next == old(bus.next) + 1 && bus.calls == old(bus.calls)[old(bus.next) := Read(link.backend, if wait.Wait? then wait.foreground else 0)]
      ensures Quiet(trace.log, |old(trace.log)| + if decides then 1 else 0)
    {
      if decides {
        Announce(target, true);
      }
      Refresh();
    }

    method FailConnect(global: bool, target: Target, r: Outcome)
      requires Valid() && r.Failed?
      requires global ==> wait.NoWait? && owner.NoCall? && Unread() && trace.seen.last.LastReply? && trace.seen.last.answer == r.Answer()
      requires global ==> target == trace.seen.connection.target && !trace.seen.connection.finished
      modifies `link, `busy, `wait, `reading, `readers, `capture, `captureCall, `counters, `bus, `owner, `trace
      ensures Strayed(old(readers.givenUp), old(ReadsExact()))
      ensures Valid() && (old(capture.CleanupRequired()) ==> capture.CleanupRequired()) && link.backend == old(link.backend)
      ensures old(trace.log) + (if !global then [] else if r.Transient() then [ReconciliationOpened]
                                else [ConnectionFinished(old(counters.connection), target, false)]) <= trace.log
      ensures FailedWith(global, AimAt(target), r, old(Here()), old(bus.calls),
                         old(trace.log) + if !global then [] else if r.Transient() then [ReconciliationOpened]
                                          else [ConnectionFinished(old(counters.connection), target, false)])
      ensures Quiet(trace.log, |old(trace.log)| + if global then 1 else 0)
    {
      hide Run, Agree, NextCapture, CaptureExact, ReaderExact, Matches, Fits, Tracked, NextReconciliation, NextConnection,
           Allowed;
      LoseConnect(global, target, r);
      AfterFailure(r);
    }

    method LoseConnect(global: bool, target: Target, r: Outcome)
      requires Valid() && r.Failed?
      requires global ==> wait.NoWait? && owner.NoCall? && Unread() && trace.seen.last.LastReply? && trace.seen.last.answer == r.Answer()
      requires global ==> target == trace.seen.connection.target && !trace.seen.connection.finished
      modifies `link, `busy, `wait, `trace
      ensures Valid()
      ensures trace.log == old(trace.log) + if !global then [] else if r.Transient() then [ReconciliationOpened]
                                            else [ConnectionFinished(counters.connection, target, false)]
      ensures (link, busy) == Lost(old(link), old(busy), global, r)
      ensures wait == if global && r.Transient() then Wait(counters.foreground, counters.connection, AimAt(target), false) else old(wait)
    {
      Fail(global, AimAt(target), r);
      if global && !r.Transient() {
        Announce(target, false);
      }
    }

    method FailAccount(r: Outcome)
      requires Valid() && r.Failed? && wait.NoWait? && owner.NoCall? && Unread() && trace.seen.last.LastReply? && trace.seen.last.answer == r.Answer()
      modifies `link, `busy, `wait, `reading, `readers, `capture, `captureCall, `counters, `bus, `owner, `trace
      ensures Strayed(old(readers.givenUp), old(ReadsExact()))
      ensures Valid() && (old(capture.CleanupRequired()) ==> capture.CleanupRequired()) && link.backend == old(link.backend)
      ensures old(trace.log) + (if r.Transient() then [ReconciliationOpened] else []) <= trace.log
      ensures FailedWith(true, NoAim, r, old(Here()), old(bus.calls), old(trace.log) + if r.Transient() then [ReconciliationOpened] else [])
      ensures Quiet(trace.log, |old(trace.log)| + if r.Transient() then 1 else 0)
    {
      hide Run, Agree, NextCapture, CaptureExact, ReaderExact, Matches, Fits, Tracked, NextReconciliation, NextConnection,
           Allowed;
      Fail(true, NoAim, r);
      AfterFailure(r);
    }

    method AfterFailure(r: Outcome)
      requires Valid()
      modifies `link, `busy, `wait, `reading, `readers, `capture, `captureCall, `counters, `bus, `owner, `trace
      ensures Strayed(old(readers.givenUp), old(ReadsExact()))
      ensures Valid() && old(trace.log) <= trace.log && (old(capture.CleanupRequired()) ==> capture.CleanupRequired())
      ensures link.backend == old(link.backend)
      ensures var (lost, still, retried) := if r.Transient() then AfterRetry(old(link), old(busy), old(reading))
                                            else (old(link), old(busy), old(reading));
              StopDispatched(false, old(Here()).(link := lost, busy := still, reading := retried), old(bus.calls), old(trace.log))
      ensures Quiet(trace.log, |old(trace.log)|)
    {
      hide Run, Agree, NextCapture, CaptureExact, ReaderExact, Matches, Fits, Tracked, NextReconciliation, NextConnection,
           Allowed;
      if r.Transient() {
        ScheduleRetry();
      }
      DispatchStop(false);
    }

    static function AccountNews(id: nat, r: Outcome): seq<Event> {
      if r.Transient() then [Replied(id, r.Answer()), ReconciliationOpened] else [Replied(id, r.Answer())]
    }

    /** The answer to an account operation: signing out retires the backend, anything else is followed by a read. */
    method OnAccountReply(id: nat, r: Outcome)
      requires Valid() && id in bus.calls && bus.calls[id].Operation? && !bus.calls[id].op.Connection? && !bus.calls[id].op.CaptureOp?
      modifies `link, `busy, `wait, `reading, `readers, `capture, `captureCall, `counters, `bus, `owner, `trace
      ensures Strayed(old(readers.givenUp), old(ReadsExact()))
      ensures Valid() && (old(capture.CleanupRequired()) ==> capture.CleanupRequired())
      ensures var c := old(bus.calls[id]);
              if c.stamp.backend != link.backend || c.stamp.foreground != old(counters.foreground) then
                && trace.log == old(trace.log) + [Replied(id, r.Answer())] && bus.calls == old(bus.calls) - {id}
                && capture == old(capture) && link == old(link) && busy == old(busy) && wait == old(wait) && reading == old(reading)
              else
                && old(trace.log) + AccountNews(id, r) <= trace.log
                && (r.Succeeded? && c.op.Logout? ==> !busy && bus.calls == old(bus.calls) - {id})
                && (r.Succeeded? && c.op.Plain? ==> reading.pending && busy == old(busy))
                && (r.Failed? ==> FailedWith(true, NoAim, r, old(Here()), old(bus.calls) - {id}, old(trace.log) + AccountNews(id, r)))
    {
      hide Run, Agree, NextCapture, CaptureExact, ReaderExact, Matches, Fits, Tracked, NextReconciliation, NextConnection,
           Allowed;
      var c := bus.calls[id];
      var current := c.stamp.backend == link.backend && c.stamp.foreground == counters.foreground;
      Dismiss(id, r.Answer());
      if !current {
        return;
      }
      if r.Failed? {
        FailAccount(r);
      } else {
        EndAccount(c.op.Logout?);
      }
    }

    method EndAccount(signedOut: bool)
      requires Valid() && link.pinned
      modifies `busy, `reading, `readers, `bus, `trace
      ensures readers.givenUp == old(readers.givenUp)
      ensures Valid() && ReadsExact() == old(ReadsExact()) && old(trace.log) <= trace.log
      ensures if signedOut then !busy && bus.calls == old(bus.calls) && reading == old(reading) else reading.pending && busy == old(busy)
    {
      if signedOut {
        busy := false;
        return;
      }
      Refresh();
    }

    /** The answer to a control call; only the operation that owns it may decide anything. */
    method OnControlReply(id: nat, r: Outcome)
      requires Valid() && id in bus.calls && bus.calls[id].Control?
      modifies `link, `busy, `wait, `reading, `readers, `bus, `owner, `trace
      ensures Strayed(old(readers.givenUp), old(ReadsExact()))
      ensures Valid() && capture == old(capture)
      ensures var c := old(bus.calls[id]);
              var current := c.stamp.backend == link.backend && c.stamp.session == link.session
                             && (c.owned ==> c.stamp.foreground == old(counters.foreground))
                             && (c.op.Connection? ==> c.op.connection == old(counters.connection));
              if !current then
                && trace.log == old(trace.log) + [Replied(id, r.Answer())] && bus.calls == old(bus.calls) - {id}
                && link == old(link) && busy == old(busy) && wait == old(wait) && reading == old(reading)
              else
                && old(trace.log) + ControlNews(id, c.op, r) <= trace.log
                && (r.Succeeded? ==> reading.pending && link == old(link) && busy == old(busy) && wait == old(wait))
                && (r.Failed? ==> ControlFailed(c.op, Classify(r.errorType, r.name), old(link), old(busy), old(reading), old(wait)))
                && if r.Succeeded? && !old(reading.pending) then
                     && bus.next == old(bus.next) + 1
                     && bus.calls == (old(bus.calls) - {id})[old(bus.next) := Read(link.backend, if wait.Wait? then wait.foreground else 0)]
                   else bus.calls == old(bus.calls) - {id}
    {
      hide Run, Agree, NextCapture, CaptureExact, ReaderExact, Matches, NextReconciliation, NextConnection, Allowed;
      var c := bus.calls[id];
      var current := ControlCurrent(c);
      Dismiss(id, r.Answer());
      if current {
        DecideControl(id, c.op, r);
      }
    }

    /** The answer to a control call that still counts. */
    method DecideControl(id: nat, op: Op, r: Outcome)
      requires Valid() && link.pinned && trace.seen.last == LastReply(id, r.Answer())
      requires op.Connection? ==>
                 wait.NoWait? && owner.NoCall? && Unread() && op.connection == counters.connection && Undecided(id, op.target)
      modifies `link, `busy, `wait, `reading, `readers, `bus, `owner, `trace
      ensures Valid() && Strayed(old(readers.givenUp), old(ReadsExact()))
      ensures old(trace.log) + ControlOutcome(op, r) <= trace.log
      ensures r.Succeeded? ==> reading.pending && link == old(link) && busy == old(busy) && wait == old(wait)
      ensures r.Failed? ==> ControlFailed(op, Classify(r.errorType, r.name), old(link), old(busy), old(reading), old(wait))
      ensures if r.Succeeded? && !old(reading.pending) then
                bus.next == old(bus.next) + 1 && bus.calls == old(bus.calls)[old(bus.next) := Read(link.backend, if wait.Wait? then wait.foreground else 0)]
              else bus.calls == old(bus.calls)
    {
      if r.Succeeded? {
        Succeed(id, op.Connection?, if op.Connection? then op.target else Disconnected);
      } else {
        FailControl(op, Classify(r.errorType, r.name));
      }
    }

    method FailControl(op: Op, failure: Failure)
      requires Valid() && trace.seen.last.LastReply? && (failure.CompletionUnknown? ==> trace.seen.last.answer == Failure(NoAnswer))
      requires op.Connection? ==>
                 && wait.NoWait? && owner.NoCall? && Unread() && op.connection == counters.connection
                 && trace.seen.connection.target == op.target && !trace.seen.connection.finished
      modifies `link, `busy, `wait, `reading, `readers, `trace
      ensures Strayed(old(readers.givenUp), old(ReadsExact()))
      ensures Valid() && ControlFailed(op, failure, old(link), old(busy), old(reading), old(wait))
      ensures trace.log == old(trace.log) + if !op.Connection? then []
                                            else if failure.CompletionUnknown? then [ReconciliationOpened]
                                            else [ConnectionFinished(op.connection, op.target, false)]
    {
      if failure.CompletionUnknown? {
        ConfirmControl(op);
      } else {
        EndControl(op, failure);
      }
    }

    /** A control call that failed for good ends its connection; one whose outcome is unknown waits for a fresh read. */
    ghost predicate ControlFailed(op: Op, failure: Failure, oldLink: Link, oldBusy: bool, oldReading: Reading, oldWait: Wait)
      reads `link, `busy, `reading, `wait, `counters
    {
      if failure.CompletionUnknown? then
        && (link, busy, reading) == AfterRetry(oldLink, oldBusy, oldReading)
        && wait == if op.Connection? then Wait(counters.foreground, counters.connection, AimAt(op.target), false) else oldWait
      else
        && link == oldLink.(available := oldLink.available && !failure.Unavailable?)
        && busy == (oldBusy && !op.Connection?) && reading == oldReading && wait == oldWait
    }

    /** A connection's control call was answered for good. */
    method EndControl(op: Op, failure: Failure)
      requires Valid() && !failure.CompletionUnknown?
      requires op.Connection? ==>
                 && wait.NoWait? && owner.NoCall? && op.connection == counters.connection
                 && trace.seen.connection.target == op.target && !trace.seen.connection.finished
      modifies `link, `busy, `trace
      ensures Valid() && busy == (old(busy) && !op.Connection?)
      ensures link == old(link).(available := old(link.available) && !failure.Unavailable?)
      ensures trace.log == old(trace.log) + if op.Connection? then [ConnectionFinished(op.connection, op.target, false)] else []
    {
      if failure.Unavailable? {
        link := link.(available := false);
      }
      if op.Connection? {
        busy := false;
        Announce(op.target, false);
      }
    }

    method ConfirmControl(op: Op)
      requires Valid() && trace.seen.last.LastReply? && trace.seen.last.answer == Failure(NoAnswer)
      requires op.Connection? ==>
                 && wait.NoWait? && owner.NoCall? && Unread()
                 && trace.seen.connection.target == op.target && !trace.seen.connection.finished
      modifies `link, `busy, `wait, `reading, `readers, `trace
      ensures Strayed(old(readers.givenUp), old(ReadsExact()))
      ensures Valid()
      ensures trace.log == old(trace.log) + if op.Connection? then [ReconciliationOpened] else []
      ensures ControlFailed(op, CompletionUnknown, old(link), old(busy), old(reading), old(wait))
    {
      ScheduleRetry();
      if op.Connection? {
        OpenWait(AimAt(op.target));
      }
    }

    predicate ControlCurrent(c: Call)
      requires c.Control?
      reads `link, `counters
    {
      && c.stamp.backend == link.backend && c.stamp.session == link.session
      && (c.owned ==> c.stamp.foreground == counters.foreground)
      && (c.op.Connection? ==> c.op.connection == counters.connection)
    }

    static function ControlNews(id: nat, op: Op, r: Outcome): seq<Event> {
      [Replied(id, r.Answer())] + ControlOutcome(op, r)
    }

    static function ControlOutcome(op: Op, r: Outcome): seq<Event> {
      if !op.Connection? then []
      else if r.Failed? && Classify(r.errorType, r.name).CompletionUnknown? then [ReconciliationOpened]
      else [ConnectionFinished(op.connection, op.target, r.Succeeded?)]
    }

    /** The key for protected data arrived, or not: only now is the operation itself sent. */
    method OnKeyReply(id: nat, r: Outcome, protected: bool)
      requires Valid() && id in bus.calls && bus.calls[id].Key?
      modifies `busy, `bus, `owner, `trace
      ensures Valid() && capture == old(capture) && wait == old(wait)
      ensures var c := old(bus.calls[id]);
              var current := c.stamp.backend == link.backend && c.stamp.session == link.session
                             && (c.updateBusy ==> c.stamp.foreground == counters.foreground);
              if current && r.Succeeded? && protected then
                && busy == old(busy) && trace.log == old(trace.log) + [Replied(id, r.Answer()), Sent(old(bus.next), ForOther)]
                && bus.calls == (old(bus.calls) - {id})[old(bus.next) := if c.updateBusy then Operation(c.stamp, Plain) else Control(c.stamp, false, Plain)]
              else
                && bus.calls == old(bus.calls) - {id} && busy == (old(busy) && !(current && c.updateBusy))
                && trace.log == old(trace.log) + [Replied(id, r.Answer())]
    {
      var c := bus.calls[id];
      Dismiss(id, r.Answer());
      if c.updateBusy && c.stamp.foreground != counters.foreground {
        return;
      }
      if c.stamp.backend != link.backend || c.stamp.session != link.session {
        return;
      }
      if r.Failed? || !protected {
        if c.updateBusy {
          busy := false;
        }
        return;
      }
      if c.updateBusy {
        SendOwning(Operation(c.stamp, Plain));
      } else {
        SendBeside(Control(c.stamp, false, Plain));
      }
    }

    /** The answer to a capture call; one of an earlier capture operation changes nothing about the capture. */
    method OnCaptureReply(id: nat, r: Outcome)
      requires Valid() && id in bus.calls && bus.calls[id].Operation? && bus.calls[id].op.CaptureOp?
      modifies `link, `busy, `wait, `reading, `readers, `capture, `captureCall, `counters, `bus, `owner, `trace, `shutdownPending
      ensures Strayed(old(readers.givenUp), old(ReadsExact()))
      ensures Valid()
      ensures !old(CurrentCapture(bus.calls[id])) ==>
                && capture == old(capture) && shutdownPending == old(shutdownPending) && counters == old(counters)
                && link == old(link) && busy == old(busy) && wait == old(wait)
      ensures old(CurrentCapture(bus.calls[id]) && !bus.calls[id].op.start) && r.Succeeded? ==> capture == NO_CAPTURE && !shutdownPending
      ensures old(CurrentCapture(bus.calls[id]) && !bus.calls[id].op.start) && r.Failed? ==>
                capture == old(capture).(pending := false, failed := true) && shutdownPending == old(shutdownPending)
      ensures old(CurrentCapture(bus.calls[id]) && bus.calls[id].op.start && capture.stopRequested) ==>
                capture.CleanupRequired() && shutdownPending == old(shutdownPending)
      ensures old(CurrentCapture(bus.calls[id]) && bus.calls[id].op.start && !capture.stopRequested) ==>
                capture == old(capture).(pending := false, failed := old(capture.failed) || r.Failed?) && shutdownPending == old(shutdownPending)
      ensures old(CurrentCapture(bus.calls[id]) && bus.calls[id].op.start && !capture.stopRequested) && r.Succeeded? ==>
                && link == old(link) && wait == old(wait) && trace.seen.capture.owed == old(trace.seen.capture.owed)
                && busy == (old(busy) && old(bus.calls[id].stamp.foreground) != old(counters.foreground))
      ensures trace.seen.capture.starts == old(trace.seen.capture.starts) - {id} && link.pinned == old(link.pinned)
      ensures old(CurrentCapture(bus.calls[id])) ==>
                CaptureAnswered(old(bus.calls[id].op.start), old(bus.calls[id].stamp.foreground == counters.foreground), r, old(Here()),
                                old(shutdownPending), old(trace.log) + [Replied(id, r.Answer())])
      ensures r.Succeeded? && old(CurrentCapture(bus.calls[id]) && bus.calls[id].op.start && capture.stopRequested
                                  && link.available && link.ready) ==>
                && old(trace.log) + [Replied(id, Success), OperationBegan, Sent(old(bus.next), ForCapture(false))] <= trace.log
                && busy && capture == old(capture).(expected := Expect(false), failed := false, pending := true)
      ensures !old(CurrentCapture(bus.calls[id])) ==>
                trace.log == old(trace.log) + [Replied(id, r.Answer())]
                  + if old(bus.calls[id].stamp.backend) == link.backend then old(Here()).ReadNews() else []
      ensures old(trace.log) + [Replied(id, r.Answer())] <= trace.log
    {
      hide Run, Agree, NextCapture, CaptureExact, ReaderExact, Matches, Fits, Tracked, NextReconciliation, NextConnection, Allowed;
      var c := bus.calls[id];
      if c.stamp.backend != link.backend {
        Dismiss(id, r.Answer());
        return;
      }
      if c.op.generation != counters.capture {
        Dismiss(id, r.Answer());
        Refresh();
        return;
      }
      AnswerCapture(id, r);
      assert old(trace.log) + [Replied(id, r.Answer())] + [OperationBegan, Sent(old(bus.next), ForCapture(false))]
          == old(trace.log) + [Replied(id, r.Answer()), OperationBegan, Sent(old(bus.next), ForCapture(false))];
    }

    /**
     The answer to the current capture call: an acknowledged start is stopped if that was asked for, an acknowledged
     stop forgets the capture.
     */
    ghost predicate CaptureAnswered(start: bool, global: bool, r: Outcome, before: Scene, shutdown: bool, oldLog: seq<Event>)
      reads `link, `counters, `busy, `wait, `capture, `reading, `bus, `trace
    {
      var answered := before.(capture := before.capture.(pending := false));
      var ended := answered.(busy := before.busy && !global);
      if r.Failed? then CaptureFailed(global, start, r, answered, oldLog)
      else if start then
        Here() == ended.Stopped(true).Refreshed() && trace.log == oldLog + ended.StopNews(true) + ended.Stopped(true).ReadNews()
      else
        && Here() == ended.(capture := NO_CAPTURE).Refreshed()
        && trace.log == oldLog + (if shutdown then [ShutdownReady] else []) + ended.ReadNews()
    }

    method AnswerCapture(id: nat, r: Outcome)
      requires Valid() && id in bus.calls && CurrentCapture(bus.calls[id])
      modifies `link, `busy, `wait, `reading, `readers, `capture, `captureCall, `counters, `bus, `owner, `trace, `shutdownPending
      ensures Strayed(old(readers.givenUp), old(ReadsExact()))
      ensures Valid()
      ensures !old(bus.calls[id].op.start) && r.Succeeded? ==> capture == NO_CAPTURE && !shutdownPending
      ensures !old(bus.calls[id].op.start) && r.Failed? ==>
                capture == old(capture).(pending := false, failed := true) && shutdownPending == old(shutdownPending)
      ensures old(bus.calls[id].op.start && capture.stopRequested) ==>
                capture.CleanupRequired() && shutdownPending == old(shutdownPending)
      ensures old(bus.calls[id].op.start && !capture.stopRequested) ==>
                capture == old(capture).(pending := false, failed := old(capture.failed) || r.Failed?) && shutdownPending == old(shutdownPending)
      ensures old(bus.calls[id].op.start && !capture.stopRequested) && r.Succeeded? ==>
                && link == old(link) && wait == old(wait) && trace.seen.capture.owed == old(trace.seen.capture.owed)
                && busy == (old(busy) && old(bus.calls[id].stamp.foreground) != old(counters.foreground))
      ensures trace.seen.capture.starts == old(trace.seen.capture.starts) - {id} && link.pinned && old(link.pinned)
      ensures CaptureAnswered(old(bus.calls[id].op.start), old(bus.calls[id].stamp.foreground == counters.foreground), r, old(Here()),
                              old(shutdownPending), old(trace.log) + [Replied(id, r.Answer())])
    {
      hide Run, Agree, NextCapture, CaptureExact, ReaderExact, Matches, Fits, Tracked, NextReconciliation, NextConnection,
           Allowed;
      var c := bus.calls[id];
      var global := c.stamp.foreground == counters.foreground;
      DismissCapture(id, r.Answer());
      if r.Failed? {
        FailCapture(global, c.op.start, r);
      } else if c.op.start {
        CaptureStarted(global);
      } else {
        CaptureStopped(global);
      }
    }

    method CaptureStarted(global: bool)
      requires Valid() && link.pinned
      modifies `busy, `wait, `reading, `readers, `capture, `captureCall, `counters, `bus, `owner, `trace
      ensures readers.givenUp == old(readers.givenUp)
      ensures ReadsExact() == old(ReadsExact())
      ensures Valid() && (old(capture.CleanupRequired()) ==> capture.CleanupRequired())
      ensures !old(capture.stopRequested) ==>
                && capture == old(capture) && busy == (old(busy) && !global) && wait == old(wait)
                && trace.seen.capture == old(trace.seen.capture)
      ensures trace.seen.capture.starts == old(trace.seen.capture.starts)
      ensures var ended := old(Here()).(busy := old(busy) && !global);
              Here() == ended.Stopped(true).Refreshed()
              && trace.log == old(trace.log) + ended.StopNews(true) + ended.Stopped(true).ReadNews()
    {
      hide Run, Agree, NextCapture, CaptureExact, ReaderExact, Matches, Fits, Tracked, NextReconciliation, NextConnection, Allowed;
      if global {
        busy := false;
      }
      StopUnconfirmed();
      Refresh();
    }

    /** A stop asked for while the start was under way is sent although no snapshot shows the capture. */
    method StopUnconfirmed()
      requires Valid()
      modifies `busy, `wait, `capture, `captureCall, `counters, `bus, `owner, `trace
      ensures Valid() && (old(capture.CleanupRequired()) ==> capture.CleanupRequired())
      ensures !old(capture.stopRequested) ==> capture == old(capture) && busy == old(busy) && wait == old(wait) && trace == old(trace)
      ensures trace.seen.capture.starts == old(trace.seen.capture.starts)
      ensures StopDispatched(true, old(Here()), old(bus.calls), old(trace.log))
    {
      if capture.stopRequested {
        DispatchStop(true);
      }
    }

    /** The stop was acknowledged, and the history gives nothing more to wait for. */
    method ForgetStopped(global: bool)
      requires Sound() && !capture.pending && CaptureOver()
      modifies `busy, `capture
      ensures Valid() && capture == NO_CAPTURE && busy == (old(busy) && !global)
    {
      if global {
        busy := false;
      }
      capture := NO_CAPTURE;
    }

    method CaptureStopped(global: bool)
      requires Sound() && !capture.pending && CaptureOver()
      modifies `busy, `reading, `readers, `capture, `bus, `trace, `shutdownPending
      ensures readers.givenUp == old(readers.givenUp)
      ensures ReadsExact() == old(ReadsExact())
      ensures Valid() && capture == NO_CAPTURE && !shutdownPending
      ensures trace.seen.capture.starts == old(trace.seen.capture.starts)
      ensures Here() == old(Here()).(busy := old(busy) && !global, capture := NO_CAPTURE).Refreshed()
      ensures trace.log == old(trace.log) + (if old(shutdownPending) then [ShutdownReady] else []) + old(Here()).ReadNews()
    {
      hide Run, Agree, NextCapture, CaptureExact, ReaderExact, Matches, Fits, Tracked, NextReconciliation, NextConnection,
           Allowed;
      ForgetStopped(global);
      if shutdownPending {
        CompleteShutdownIfSafe();
      }
      Refresh();
    }

    /** A failed capture call; a stop asked for meanwhile is sent although the capture is not confirmed. */
    method FailCapture(global: bool, start: bool, r: Outcome)
      requires Valid() && r.Failed? && link.pinned && !capture.pending
      requires global ==> wait.NoWait? && owner.NoCall? && Unread() && trace.seen.last.LastReply? && trace.seen.last.answer == r.Answer()
      modifies `link, `busy, `wait, `reading, `readers, `capture, `captureCall, `counters, `bus, `owner, `trace
      ensures Strayed(old(readers.givenUp), old(ReadsExact()))
      ensures Valid() && (old(capture.CleanupRequired()) ==> capture.CleanupRequired())
      ensures !start || !old(capture.stopRequested) ==> capture == old(capture).(failed := true)
      ensures trace.seen.capture.starts == old(trace.seen.capture.starts)
      ensures link.pinned == old(link.pinned)
      ensures CaptureFailed(global, start, r, old(Here()), old(trace.log))
    {
      hide Run, Agree, NextCapture, CaptureExact, ReaderExact, Matches, Fits, Tracked, NextReconciliation, NextConnection,
           Allowed;
      FailAndRead(global, r);
      if start {
        StopAfterFailedStart();
      }
    }

    /** The failure, a read, and after a failed start a stop that was asked for meanwhile. */
    ghost predicate CaptureFailed(global: bool, start: bool, r: Outcome, before: Scene, oldLog: seq<Event>)
      reads `link, `counters, `busy, `wait, `capture, `reading, `bus, `trace
    {
      var failed := FailedScene(global, NoAim, r, before).(capture := before.capture.(failed := true));
      && Here() == (if start then failed.Refreshed().Stopped(true) else failed.Refreshed())
      && trace.log == oldLog + (if global && r.Transient() then [ReconciliationOpened] else []) + failed.ReadNews()
                      + if start then failed.Refreshed().StopNews(true) else []
    }

    method FailAndRead(global: bool, r: Outcome)
      requires Valid() && r.Failed? && link.pinned && !capture.pending
      requires global ==> wait.NoWait? && owner.NoCall? && Unread() && trace.seen.last.LastReply? && trace.seen.last.answer == r.Answer()
      modifies `link, `busy, `wait, `reading, `readers, `capture, `bus, `trace
      ensures Valid() && Strayed(old(readers.givenUp), old(ReadsExact()))
      ensures CaptureFailed(global, false, r, old(Here()), old(trace.log))
      ensures trace.seen.capture.starts == old(trace.seen.capture.starts)
      ensures link.pinned == old(link.pinned)
    {
      hide Run, Agree, NextCapture, CaptureExact, ReaderExact, Matches, Fits, Tracked, NextReconciliation, NextConnection,
           Allowed;
      EndCaptureCall(global, r);
      ReadAfterFailure(r.Transient());
    }

    method MarkFailed()
      requires Valid() && link.pinned
      modifies `capture
      ensures Valid() && capture == old(capture).(failed := true)
    {
      hide Run, NextCapture, NextReconciliation, NextConnection, Allowed;
      capture := capture.(failed := true);
    }

    method EndCaptureCall(global: bool, r: Outcome)
      requires Valid() && r.Failed? && link.pinned
      requires global ==> wait.NoWait? && owner.NoCall? && Unread() && trace.seen.last.LastReply? && trace.seen.last.answer == r.Answer()
      modifies `link, `busy, `wait, `capture, `trace
      ensures Valid() && capture == old(capture).(failed := true) && link.pinned
      ensures trace.seen.capture.starts == old(trace.seen.capture.starts)
      ensures link.pinned == old(link.pinned)
      ensures (link, busy) == Lost(old(link), old(busy), global, r)
      ensures wait == if global && r.Transient() then Wait(counters.foreground, 0, NoAim, false) else old(wait)
      ensures trace.log == old(trace.log) + if global && r.Transient() then [ReconciliationOpened] else []
    {
      hide Run, Agree, NextCapture, CaptureExact, ReaderExact, Matches, Fits, Tracked, NextReconciliation, NextConnection,
           Allowed;
      Fail(global, NoAim, r);
      MarkFailed();
    }

    method ReadAfterFailure(transient: bool)
      requires Valid() && link.pinned
      modifies `link, `busy, `reading, `readers, `bus, `trace
      ensures Valid() && Strayed(old(readers.givenUp), old(ReadsExact()))
      ensures trace.seen.capture.starts == old(trace.seen.capture.starts)
      ensures link.pinned == old(link.pinned)
      ensures var (lost, still, retried) := if transient then AfterRetry(old(link), old(busy), old(reading))
                                            else (old(link), old(busy), old(reading));
              var after := old(Here()).(link := lost, busy := still, reading := retried);
              Here() == after.Refreshed() && trace.log == old(trace.log) + after.ReadNews()
    {
      hide Run, Agree, NextCapture, CaptureExact, ReaderExact, Matches, Fits, Tracked, NextReconciliation, NextConnection,
           Allowed;
      if transient {
        ScheduleRetry();
      }
      Refresh();
    }

    method StopAfterFailedStart()
      requires Valid()
      modifies `busy, `wait, `capture, `captureCall, `counters, `bus, `owner, `trace
      ensures Valid() && (old(capture.CleanupRequired()) ==> capture.CleanupRequired())
      ensures !old(capture.stopRequested) ==> capture == old(capture) && busy == old(busy) && wait == old(wait)
      ensures trace.seen.capture.starts == old(trace.seen.capture.starts)
      ensures StopDispatched(true, old(Here()), old(bus.calls), old(trace.log))
    {
      StopUnconfirmed();
      DispatchStop(false);
    }

    // ---- Snapshots ----

    method Observe(source: Source, stamp: nat, s: Snapshot)
      requires Valid()
      requires wait.Wait? && stamp == wait.foreground ==> source.FromRead? && source.id in trace.seen.reconciliation.sent
      modifies `wait, `trace
      ensures Sound() && trace.log == old(trace.log) + [Adoption(source, s, old(link.loggedIn))]
      ensures trace.seen.last == LastSnapshot(s.busy)
      ensures Foreseen(trace.seen.capture, capture, captureCall, s.loggedIn != link.loggedIn, s.captureActive, s.busy)
      ensures wait == Observed(old(wait), stamp)
      ensures trace.seen.capture.starts == old(trace.seen.capture.starts)
    {
      NoteSnapshot(source, s);
      if wait.Wait? && stamp == wait.foreground {
        wait := wait.(observed := true);
      }
    }

    ghost method NoteSnapshot(source: Source, s: Snapshot)
      requires Valid()
      modifies `trace
      ensures Sound() && trace.log == old(trace.log) + [Adoption(source, s, link.loggedIn)]
      ensures trace.seen.last == LastSnapshot(s.busy)
      ensures Foreseen(trace.seen.capture, capture, captureCall, s.loggedIn != link.loggedIn, s.captureActive, s.busy)
      ensures trace.seen.capture.starts == old(trace.seen.capture.starts)
      ensures source.FromRead? && old(trace.seen.reconciliation).Open? && source.id in old(trace.seen.reconciliation).sent ==>
                trace.seen.reconciliation.observed
    {
      Note(Adoption(source, s, link.loggedIn));
    }

    static function Adoption(source: Source, s: Snapshot, wasLoggedIn: bool): Event {
      SnapshotAdopted(source, s.busy, s.captureActive, s.loggedIn != wasLoggedIn)
    }

    /** The history already knows the snapshot; the flags are yet to follow it. */
    static ghost predicate Foreseen(v: CaptureView, c: Capture, call: CaptureCall, renewed: bool, active: bool, snapshotBusy: bool) {
      var free := renewed || call.NoCapture?;
      && v.call == (if renewed then NoCapture else call) && v.running == active
      && v.expected == (c.expected == Expect(true) && !(free && (active || !snapshotBusy)))
      && v.asked == (c.stopRequested && !(free && !active && !snapshotBusy))
    }

    /** A sign-in or sign-out: no capture operation of the old session is waited for. */
    method ChangeSession()
      requires Sound()
      modifies `link, `counters, `capture, `captureCall
      ensures Sound() && link == old(link).(session := old(link.session) + 1) && captureCall.NoCapture?
      ensures capture == old(capture).(failed := false, pending := false)
      ensures counters == old(counters).(capture := old(counters.capture) + 1)
    {
      link := link.(session := link.session + 1);
      counters := counters.(capture := counters.capture + 1);
      capture, captureCall := capture.(failed := false, pending := false), NoCapture;
    }

    /** What a snapshot says about the capture settles the expectations it confirms. */
    method AdoptCapture(active: bool, snapshotBusy: bool)
      requires Sound() && link.pinned
      requires Foreseen(trace.seen.capture, capture, captureCall, false, active, snapshotBusy)
      modifies `capture
      ensures Valid() && capture.active == active && capture.pending == old(capture.pending)
      ensures capture.pending ==> capture == old(capture).(active := active)
      ensures !capture.pending && !active && !snapshotBusy ==> !capture.CleanupRequired() && capture.expected.NoExpectation?
      ensures !capture.pending && (active || snapshotBusy) ==>
                && capture.stopRequested == old(capture.stopRequested)
                && capture.expected == if old(capture.expected) == Expect(active) then NoExpectation else old(capture.expected)
      ensures capture.failed == (old(capture.failed) && (capture.pending || active || old(capture.expected) != Expect(false)))
      ensures !old(capture.stopRequested) ==> !capture.stopRequested
      ensures capture == Settled(old(capture), false, active, snapshotBusy)
    {
      var c := capture.(active := active);
      if !c.pending && c.expected == Expect(active) {
        c := c.(expected := NoExpectation, failed := c.failed && active);
      }
      if !c.pending && !snapshotBusy && !active && c.expected == Expect(true) {
        c := c.(expected := NoExpectation);
      }
      if !c.pending && !snapshotBusy && !active && c.expected != Expect(true) {
        c := c.(stopRequested := false);
      }
      capture := c;
    }

    method AdoptLink(s: Snapshot)
      requires Sound() && link.pinned
      modifies `link, `busy
      ensures Sound() && busy == s.busy
      ensures link == old(link).(ready := s.ready, healthy := true, loggedIn := s.loggedIn, state := s.state, auth := s.auth)
    {
      link := link.(ready := s.ready, healthy := true, loggedIn := s.loggedIn, state := s.state, auth := s.auth);
      busy := s.busy;
    }

    /** An idle state read after the timeout ends the wait; it cannot recover the missing reply. */
    method Reconcile()
      requires Valid() && trace.seen.last == LastSnapshot(busy)
      modifies `wait, `trace
      ensures Valid()
      ensures if old(wait).Wait? && old(wait).observed && !busy then
                && wait.NoWait?
                && trace.log == old(trace.log) + [Reconciled]
                     + match old(wait).aim
                       case NoAim => []
                       case AimAt(target) => [ConnectionFinished(counters.connection, target, false)]
              else wait == old(wait) && trace == old(trace)
      ensures trace.seen.capture.starts == old(trace.seen.capture.starts)
    {
      if wait.NoWait? || !wait.observed || busy {
        return;
      }
      var done := wait;
      Retire();
      if done.foreground == counters.foreground && done.connection == counters.connection && done.aim.AimAt? {
        Announce(done.aim.target, false);
      }
    }

    method Retire()
      requires Valid() && wait.Wait? && wait.observed && trace.seen.last == LastSnapshot(false)
      modifies `wait, `trace
      ensures Valid() && wait.NoWait? && trace.log == old(trace.log) + [Reconciled]
      ensures trace.seen.connection == old(trace.seen.connection)
      ensures trace.seen.capture.starts == old(trace.seen.capture.starts)
    {
      Note(Reconciled);
      wait := NoWait;
    }

    /** No event of a stretch of the history says that a connection succeeded. */
    static ghost predicate NoSuccess(log: seq<Event>, from: nat) {
      forall i :: from <= i < |log| && log[i].ConnectionFinished? ==> !log[i].acknowledged
    }

    static ghost predicate NoReconciliation(log: seq<Event>, from: nat) {
      forall i :: from <= i < |log| ==> !log[i].Reconciled?
    }

    /** The wait once a read with a stamp was adopted: only a read sent during it counts. */
    static function Observed(w: Wait, stamp: nat): Wait {
      if w.Wait? && stamp == w.foreground then w.(observed := true) else w
    }

    /** The capture as a snapshot shows it; one of another session settles nothing of an operation still waited for. */
    static function Settled(c: Capture, renewed: bool, active: bool, snapshotBusy: bool): Capture {
      if c.pending && !renewed then c.(active := active)
      else
        var idle := !active && !snapshotBusy;
        Capture(active, if idle || c.expected == Expect(active) then NoExpectation else c.expected,
                c.failed && !renewed && (active || c.expected != Expect(false)), false, c.stopRequested && !idle)
    }

    /** The state as a snapshot shows it, and a wait that it ends. */
    static function Seen(before: Scene, s: Snapshot, stamp: nat): Scene {
      var renewed := s.loggedIn != before.link.loggedIn;
      var observed := Observed(before.wait, stamp);
      Scene(Shown(before.link, s), before.counters.(capture := before.counters.capture + if renewed then 1 else 0), s.busy,
            if observed.Wait? && observed.observed && !s.busy then NoWait else observed,
            Settled(before.capture, renewed, s.captureActive, s.busy), before.reading, before.next)
    }

    /** What a snapshot makes known; an idle one ends a wait that a read sent during it has confirmed. */
    static function SnapshotNews(before: Scene, source: Source, s: Snapshot, stamp: nat): seq<Event> {
      var observed := Observed(before.wait, stamp);
      [Adoption(source, s, before.link.loggedIn)]
      + if observed.Wait? && observed.observed && !s.busy then
          [Reconciled] + match observed.aim
                         case NoAim => []
                         case AimAt(target) => [ConnectionFinished(before.counters.connection, target, false)]
        else []
    }

    /** The owner's state as a snapshot shows it. */
    static function Shown(l: Link, s: Snapshot): Link {
      l.(ready := s.ready, healthy := true, loggedIn := s.loggedIn, state := s.state, auth := s.auth,
         session := l.session + if s.loggedIn != l.loggedIn then 1 else 0)
    }

    method LoseHealth()
      requires Valid()
      modifies `link
      ensures Valid() && link == old(link).(healthy := false)
    {
      hide Run, Agree, NextCapture, NextReconciliation, NextConnection, Allowed;
      link := link.(healthy := false);
    }

    method ApplySnapshot(payload: Payload, source: Source, stamp: nat)
      requires Valid() && link.pinned
      requires wait.Wait? && stamp == wait.foreground ==> source.FromRead? && source.id in trace.seen.reconciliation.sent
      modifies `link, `busy, `wait, `capture, `captureCall, `counters, `bus, `owner, `trace, `shutdownPending
      ensures Valid() && link.pinned && link.backend == old(link.backend) && link.available == old(link.available)
      ensures old(trace.log) <= trace.log
      ensures NoSuccess(trace.log, |old(trace.log)|)
      ensures payload.Unusable? ==>
                link == old(link).(healthy := false) && trace == old(trace) && wait == old(wait) && capture == old(capture)
      ensures payload.Usable? ==> link == Shown(old(link), payload.snapshot) && (shutdownPending ==> capture.CleanupRequired())
      ensures payload.Usable? && !old(capture.stopRequested) ==>
                && busy == payload.snapshot.busy && capture.active == payload.snapshot.captureActive && !capture.stopRequested
      ensures payload.Usable? ==> wait == Observed(old(wait), stamp) || wait.NoWait?
      ensures !(Observed(old(wait), stamp).Wait? && Observed(old(wait), stamp).observed) ==>
                NoReconciliation(trace.log, |old(trace.log)|)
      ensures trace.seen.capture.starts == old(trace.seen.capture.starts)
      ensures payload.Usable? && !payload.snapshot.captureActive && !payload.snapshot.busy &&
              (!old(capture.pending) || payload.snapshot.loggedIn != old(link.loggedIn)) ==>
                !capture.CleanupRequired()
      ensures payload.Usable? ==>
                var seen := Seen(old(Here()), payload.snapshot, stamp);
                && Here() == seen.Stopped(false)
                && trace.log == old(trace.log) + SnapshotNews(old(Here()), source, payload.snapshot, stamp) + seen.StopNews(false)
                     + if old(shutdownPending) && !seen.capture.CleanupRequired() then [ShutdownReady] else []
      ensures payload.Unusable? ==> Here() == old(Here()).(link := old(link).(healthy := false)) && trace == old(trace)
    {
      hide Run, Agree, NextCapture, CaptureExact, ReaderExact, Matches, Fits, Tracked, NextReconciliation, NextConnection,
           Allowed, Settled;
      if payload.Unusable? {
        LoseHealth();
        return;
      }
      Adopt(payload.snapshot, source, stamp);
      ContinueCleanup();
    }

    /** Sends a stop that was asked for and can be sent now, or completes a shutdown that waited for it. */
    method ContinueCleanup()
      requires Valid()
      modifies `busy, `wait, `capture, `captureCall, `counters, `bus, `owner, `trace, `shutdownPending
      ensures Valid() && (shutdownPending ==> capture.CleanupRequired())
      ensures old(trace.log) <= trace.log
      ensures forall i :: |old(trace.log)| <= i < |trace.log| ==> !trace.log[i].ConnectionFinished? && !trace.log[i].Reconciled?
      ensures wait == old(wait) || wait.NoWait?
      ensures !old(capture.stopRequested) ==> wait == old(wait) && busy == old(busy) && capture == old(capture)
      ensures trace.seen.capture.starts == old(trace.seen.capture.starts)
      ensures Here() == old(Here()).Stopped(false)
      ensures trace.log == old(trace.log) + old(Here()).StopNews(false)
                + if old(shutdownPending) && !old(capture.CleanupRequired()) then [ShutdownReady] else []
    {
      hide Run, Agree, NextCapture, CaptureExact, ReaderExact, Matches, Fits, Tracked, NextReconciliation, NextConnection,
           Allowed;
      DispatchStop(false);
      CompleteShutdownIfSafe();
    }

    method Adopt(s: Snapshot, source: Source, stamp: nat)
      requires Valid() && link.pinned
      requires wait.Wait? && stamp == wait.foreground ==> source.FromRead? && source.id in trace.seen.reconciliation.sent
      modifies `link, `busy, `wait, `capture, `captureCall, `counters, `trace
      ensures Valid() && busy == s.busy
      ensures link == Shown(old(link), s)
      ensures var observed := Observed(old(wait), stamp);
              if observed.Wait? && observed.observed && !s.busy then
                && wait.NoWait?
                && trace.log == old(trace.log) + [Adoption(source, s, old(link.loggedIn)), Reconciled]
                     + match observed.aim
                       case NoAim => []
                       case AimAt(target) => [ConnectionFinished(counters.connection, target, false)]
              else wait == observed && trace.log == old(trace.log) + [Adoption(source, s, old(link.loggedIn))]
      ensures !capture.pending && !s.captureActive && !s.busy ==> !capture.CleanupRequired()
      ensures capture.pending == (old(capture.pending) && s.loggedIn == old(link.loggedIn))
      ensures capture.active == s.captureActive && (!old(capture.stopRequested) ==> !capture.stopRequested)
      ensures trace.seen.capture.starts == old(trace.seen.capture.starts)
      ensures Here() == Seen(old(Here()), s, stamp) && trace.log == old(trace.log) + SnapshotNews(old(Here()), source, s, stamp)
    {
      hide Run, Agree, NextCapture, CaptureExact, ReaderExact, Matches, Fits, Tracked, NextReconciliation, NextConnection,
           Allowed;
      Believe(s, source, stamp);
      Reconcile();
    }

    method Believe(s: Snapshot, source: Source, stamp: nat)
      requires Valid() && link.pinned
      requires wait.Wait? && stamp == wait.foreground ==> source.FromRead? && source.id in trace.seen.reconciliation.sent
      modifies `link, `busy, `wait, `capture, `captureCall, `counters, `trace
      ensures Valid() && busy == s.busy && trace.seen.last == LastSnapshot(busy)
      ensures link == Shown(old(link), s)
      ensures wait == Observed(old(wait), stamp)
      ensures trace.log == old(trace.log) + [Adoption(source, s, old(link.loggedIn))]
      ensures !capture.pending && !s.captureActive && !s.busy ==> !capture.CleanupRequired()
      ensures capture.pending == (old(capture.pending) && s.loggedIn == old(link.loggedIn))
      ensures capture.active == s.captureActive && (!old(capture.stopRequested) ==> !capture.stopRequested)
      ensures trace.seen.capture.starts == old(trace.seen.capture.starts)
      ensures capture == Settled(old(capture), s.loggedIn != old(link.loggedIn), s.captureActive, s.busy)
      ensures counters == old(counters).(capture := old(counters.capture) + if s.loggedIn != old(link.loggedIn) then 1 else 0)
    {
      Observe(source, stamp, s);
      AdoptState(s);
    }

    method AdoptState(s: Snapshot)
      requires Sound() && link.pinned
      requires Foreseen(trace.seen.capture, capture, captureCall, s.loggedIn != link.loggedIn, s.captureActive, s.busy)
      modifies `link, `busy, `capture, `captureCall, `counters
      ensures Valid() && busy == s.busy
      ensures link == Shown(old(link), s)
      ensures counters.connection == old(counters.connection)
      ensures !capture.pending && !s.captureActive && !s.busy ==> !capture.CleanupRequired()
      ensures capture.pending == (old(capture.pending) && s.loggedIn == old(link.loggedIn))
      ensures capture.active == s.captureActive && (!old(capture.stopRequested) ==> !capture.stopRequested)
      ensures capture == Settled(old(capture), s.loggedIn != old(link.loggedIn), s.captureActive, s.busy)
      ensures counters == old(counters).(capture := old(counters.capture) + if s.loggedIn != old(link.loggedIn) then 1 else 0)
    {
      if link.loggedIn != s.loggedIn {
        ChangeSession();
      }
      AdoptLink(s);
      AdoptCapture(s.captureActive, s.busy);
    }

    /** A signal of the owner; it never counts as the read a wait needs. */
    method OnSnapshotSignal(payload: Payload)
      requires Valid() && link.pinned
      modifies `link, `busy, `wait, `capture, `captureCall, `counters, `bus, `owner, `trace, `shutdownPending
      ensures Valid() && old(trace.log) <= trace.log && NoSuccess(trace.log, |old(trace.log)|)
      ensures payload.Usable? ==> link == Shown(old(link), payload.snapshot) && (shutdownPending ==> capture.CleanupRequired())
      ensures wait == old(wait) || wait.NoWait?
      ensures old(wait).Wait? && !old(wait).observed ==> NoReconciliation(trace.log, |old(trace.log)|)
      ensures payload.Usable? && !old(capture.stopRequested) ==>
                busy == payload.snapshot.busy && capture.active == payload.snapshot.captureActive && !capture.stopRequested
      ensures trace.seen.capture.starts == old(trace.seen.capture.starts)
      ensures payload.Usable? && !payload.snapshot.captureActive && !payload.snapshot.busy &&
              (!old(capture.pending) || payload.snapshot.loggedIn != old(link.loggedIn)) ==>
                !capture.CleanupRequired()
      ensures payload.Usable? ==>
                var seen := Seen(old(Here()), payload.snapshot, 0);
                && Here() == seen.Stopped(false)
                && trace.log == old(trace.log) + SnapshotNews(old(Here()), FromSignal, payload.snapshot, 0) + seen.StopNews(false)
                     + if old(shutdownPending) && !seen.capture.CleanupRequired() then [ShutdownReady] else []
      ensures payload.Unusable? ==> trace == old(trace) && Here() == old(Here()).(link := old(link).(healthy := false))
      ensures payload.Usable? ==>
                |trace.log| > |old(trace.log)| && trace.log[|old(trace.log)|] == Adoption(FromSignal, payload.snapshot, old(link.loggedIn))
    {
      hide Run, Agree, NextCapture, CaptureExact, ReaderExact, Fits, Tracked, NextReconciliation, NextConnection, Allowed;
      ApplySnapshot(payload, FromSignal, 0);
    }

    method OnSnapshotReply(id: nat, outcome: ReadOutcome)
      requires Valid() && id in bus.calls && bus.calls[id].Read?
      modifies `link, `busy, `wait, `reading, `readers, `capture, `captureCall, `counters, `bus, `owner, `trace, `shutdownPending
      ensures Valid() && old(trace.log) <= trace.log && NoSuccess(trace.log, |old(trace.log)|)
      ensures readers.givenUp == old(readers.givenUp) && (old(ReadsExact()) ==> ReadsExact())
      ensures old(bus.calls[id].backend) != link.backend ==>
                && link == old(link) && busy == old(busy) && wait == old(wait) && reading == old(reading)
                && capture == old(capture) && trace == old(trace)
      ensures old(bus.calls[id].backend) == link.backend && outcome.ReadFailed? ==> !link.healthy && trace == old(trace) && wait == old(wait)
      ensures old(bus.calls[id].backend) == link.backend && outcome.Got? ==>
                && link.available && (outcome.payload.Usable? ==> shutdownPending ==> capture.CleanupRequired())
                && (wait.Wait? && !wait.observed && link.healthy ==> reading.pending)
      ensures old(bus.calls[id].backend) == link.backend && outcome.Got? ==>
                Taken(id, outcome.payload, old(bus.calls[id].wait), old(Here()), old(shutdownPending), old(trace.log))
      ensures trace.log != old(trace.log) ==> trace.log[|old(trace.log)|].SnapshotAdopted? && trace.log[|old(trace.log)|].source == FromRead(id)
    {
      hide Run, Agree, NextCapture, CaptureExact, ReaderExact, Matches, Fits, Tracked, NextReconciliation, NextConnection,
           Allowed;
      var c := bus.calls[id];
      DismissRead(id);
      if c.backend != link.backend {
        return;
      }
      if outcome.ReadFailed? {
        FailRead(Failed(outcome.errorType, outcome.name));
        return;
      }
      TakeRead(id, outcome.payload, c.wait);
    }

    /** The owner answered: it is within reach, and the retries start over. */
    method Reached()
      requires Valid() && link.pinned && !reading.pending
      modifies `link, `reading
      ensures Valid() && link == old(link).(available := true) && reading == Reading(false, 0, false)
    {
      reading := Reading(false, 0, false);
      link := link.(available := true);
    }

    method AdoptRead(id: nat, payload: Payload, stamp: nat)
      requires Valid() && link.pinned && !reading.pending
      requires wait.Wait? && stamp == wait.foreground ==> id in trace.seen.reconciliation.sent
      modifies `link, `busy, `wait, `reading, `capture, `captureCall, `counters, `bus, `owner, `trace, `shutdownPending
      ensures Valid() && ReadsExact() == old(ReadsExact()) && link.backend == old(link.backend) && link.available && link.pinned
      ensures old(trace.log) <= trace.log && NoSuccess(trace.log, |old(trace.log)|)
      ensures payload.Usable? ==> shutdownPending ==> capture.CleanupRequired()
      ensures var reached := old(Here()).(link := old(link).(available := true), reading := Reading(false, 0, false));
              match payload
              case Unusable => Here() == reached.(link := reached.link.(healthy := false)) && trace.log == old(trace.log)
              case Usable(s) =>
                var seen := Seen(reached, s, stamp);
                && Here() == seen.Stopped(false)
                && trace.log == old(trace.log) + SnapshotNews(reached, FromRead(id), s, stamp) + seen.StopNews(false)
                     + if old(shutdownPending) && !seen.capture.CleanupRequired() then [ShutdownReady] else []
    {
      hide Run, Agree, NextCapture, CaptureExact, ReaderExact, Matches, Fits, Tracked, NextReconciliation, NextConnection,
           Allowed, Settled;
      Reached();
      ApplySnapshot(payload, FromRead(id), stamp);
    }

    /** A read is adopted, capture and shutdown follow, and a wait it was sent too early for is read for again. */
    ghost predicate Taken(id: nat, payload: Payload, stamp: nat, before: Scene, shutdown: bool, oldLog: seq<Event>)
      reads `link, `counters, `busy, `wait, `capture, `reading, `bus, `trace
    {
      var reached := before.(link := before.link.(available := true), reading := Reading(false, 0, false));
      match payload
      case Unusable => Here() == reached.(link := reached.link.(healthy := false)) && trace.log == oldLog
      case Usable(s) =>
        var seen := Seen(reached, s, stamp);
        var stopped := seen.Stopped(false);
        var early := stopped.wait.Wait? && !stopped.wait.observed;
        && Here() == (if early then stopped.Refreshed() else stopped)
        && trace.log == oldLog + SnapshotNews(reached, FromRead(id), s, stamp) + seen.StopNews(false)
                        + (if shutdown && !seen.capture.CleanupRequired() then [ShutdownReady] else [])
                        + if early then stopped.ReadNews() else []
    }

    method TakeRead(id: nat, payload: Payload, stamp: nat)
      requires Valid() && link.pinned && !reading.pending
      requires wait.Wait? && stamp == wait.foreground ==> id in trace.seen.reconciliation.sent
      modifies `link, `busy, `wait, `reading, `readers, `capture, `captureCall, `counters, `bus, `owner, `trace, `shutdownPending
      ensures readers.givenUp == old(readers.givenUp)
      ensures Valid() && ReadsExact() == old(ReadsExact()) && link.backend == old(link.backend) && link.available
      ensures old(trace.log) <= trace.log && NoSuccess(trace.log, |old(trace.log)|)
      ensures payload.Usable? ==> shutdownPending ==> capture.CleanupRequired()
      ensures wait.Wait? && !wait.observed && link.healthy ==> reading.pending
      ensures Taken(id, payload, stamp, old(Here()), old(shutdownPending), old(trace.log))
    {
      hide Run, Agree, NextCapture, CaptureExact, ReaderExact, Matches, Fits, Tracked, NextReconciliation, NextConnection,
           Allowed, Settled, SnapshotNews;
      AdoptRead(id, payload, stamp);
      ReadAgain();
    }

    method DismissRead(id: nat)
      requires Valid() && id in bus.calls && bus.calls[id].Read?
      modifies `reading, `readers, `bus
      ensures readers.givenUp == old(readers.givenUp)
      ensures Valid() && bus == old(bus).Remove(id)
      ensures old(ReadsExact()) ==> ReadsExact()
      ensures reading == if old(bus.calls[id].backend) == link.backend then old(reading).(pending := false) else old(reading)
      ensures wait.Wait? && old(bus.calls[id].wait) == wait.foreground ==> id in trace.seen.reconciliation.sent
      ensures old(bus.calls[id].backend) == link.backend ==> link.pinned
    {
      if bus.calls[id].backend == link.backend {
        assert id in readers.live;
        reading, readers := reading.(pending := false), readers.(live := readers.live - {id});
      }
      bus := bus.Remove(id);
    }

    method FailRead(r: Outcome)
      requires Valid() && r.Failed? && link.pinned && !reading.pending
      modifies `link, `busy, `reading, `readers
      ensures ReadsExact() == old(ReadsExact()) && readers.givenUp == old(readers.givenUp)
      ensures Valid() && !link.healthy && link.backend == old(link.backend)
      ensures !r.Transient() ==> link == old(link).(healthy := false, available := old(link.available) && !r.Gone()) && busy == old(busy)
      ensures r.Transient() ==> (link, busy, reading) == AfterRetry(old(link).(healthy := false), old(busy), old(reading))
    {
      hide Run, Agree, NextCapture, NextReconciliation, NextConnection, Allowed;
      if r.Transient() {
        link := link.(healthy := false);
        ScheduleRetry();
      } else {
        link := link.(healthy := false, available := link.available && !r.Gone());
      }
    }

    /** A read sent before the timeout does not count, so another one is sent. */
    method ReadAgain()
      requires Valid() && link.pinned
      modifies `reading, `readers, `bus, `trace
      ensures readers.givenUp == old(readers.givenUp)
      ensures ReadsExact() == old(ReadsExact())
      ensures Valid() && (wait.Wait? && !wait.observed && link.healthy ==> reading.pending)
      ensures trace.log == old(trace.log) || trace.log == old(trace.log) + [Sent(old(bus.next), ForRead)]
      ensures if wait.Wait? && !wait.observed && link.healthy then
                Here() == old(Here()).Refreshed() && trace.log == old(trace.log) + old(Here()).ReadNews()
              else Here() == old(Here()) && trace == old(trace)
    {
      if wait.Wait? && !wait.observed && link.healthy {
        Refresh();
      }
    }

    method OnRetryTimer()
      requires Valid() && reading.armed
      modifies `reading, `readers, `bus, `trace
      ensures readers.givenUp == old(readers.givenUp)
      ensures ReadsExact() == old(ReadsExact())
      ensures Valid() && reading == old(reading).(armed := false, pending := old(reading.pending) || link.pinned)
      ensures old(reading.pending) ==> bus.calls == old(bus.calls) && bus.next == old(bus.next)
      ensures trace.log == old(trace.log) + old(Here()).ReadNews()
    {
      reading := reading.(armed := false);
      Refresh();
    }

    // ---- Lifecycle ----

    /** The registration of this client was answered. */
    method OnRegistered(backend: nat)
      requires Valid() && backend <= link.backend && (backend == link.backend ==> link.pinned)
      modifies `link, `reading, `readers, `bus, `trace
      ensures readers.givenUp == old(readers.givenUp)
      ensures Valid() && ReadsExact() == old(ReadsExact())
      ensures if backend == link.backend then
                link == old(link).(available := true) && reading == old(reading).(pending := true)
              else link == old(link) && trace == old(trace)
      ensures backend == link.backend ==>
                trace.log == old(trace.log) + (if link.healthy then [Sent(old(bus.next), ForOther)] else [])
                  + if old(reading.pending) then [] else [Sent(old(bus.next) + (if link.healthy then 1 else 0), ForRead)]
    {
      if backend != link.backend {
        return;
      }
      link := link.(available := true);
      CallControl();
      Refresh();
    }

    method OnRegistrationRejected(backend: nat)
      requires Valid()
      modifies `link, `busy
      ensures Valid()
      ensures if backend == link.backend then
                !busy && link == old(link).(available := false, ready := false, state := Actions.VpnState.Unavailable)
              else link == old(link) && busy == old(busy)
    {
      if backend != link.backend {
        return;
      }
      link := link.(available := false, ready := false, state := Actions.VpnState.Unavailable);
      busy := false;
    }

    method OnServiceRegistered()
      requires Valid() && !link.pinned
      modifies `link, `capture, `captureCall, `counters, `reading, `readers
      ensures readers.givenUp == old(readers.givenUp)
      ensures ReadsExact()
      ensures Valid() && capture == NO_CAPTURE && reading == Reading(false, 0, false)
      ensures link == old(link).(backend := old(link.backend) + 1, available := false, healthy := true)
      ensures counters == old(counters).(capture := old(counters.capture) + 1)
    {
      hide Run, NextCapture, NextReconciliation, NextConnection, Allowed;
      link := link.(backend := link.backend + 1, available := false, healthy := true);
      counters := counters.(capture := counters.capture + 1);
      capture, captureCall := NO_CAPTURE.(active := capture.active), NoCapture;
      reading, readers := Reading(reading.pending, 0, false), readers.(live := {});
    }

    method PinOwner()
      requires Valid()
      modifies `link
      ensures Valid() && link == old(link).(pinned := true)
    {
      link := link.(pinned := true);
    }

    method OnServiceUnregistered()
      requires Valid()
      modifies `link, `busy, `wait, `capture, `captureCall, `counters, `reading, `readers, `trace, `shutdownPending
      ensures readers.givenUp == old(readers.givenUp)
      ensures ReadsExact()
      ensures Valid() && capture == NO_CAPTURE && !shutdownPending && wait.NoWait? && !busy
      ensures trace.log == old(trace.log) + [OwnerGone] + if old(shutdownPending) then [ShutdownReady] else []
      ensures link == Link(false, false, false, true, false, Actions.VpnState.Unavailable, Actions.SignedOut, old(link.backend) + 1,
                           old(link.session) + if old(link.loggedIn) then 1 else 0)
      ensures reading == Reading(false, 0, false) && counters == old(counters).(capture := old(counters.capture) + 1)
    {
      LoseOwner();
      CompleteShutdownIfSafe();
      UnpinOwner();
    }

    /** Everything the owner told is forgotten, but a deferred shutdown is still to be answered. */
    method LoseOwner()
      requires Valid()
      modifies `link, `busy, `wait, `capture, `captureCall, `counters, `reading, `readers, `trace
      ensures readers.givenUp == old(readers.givenUp)
      ensures Valid() && capture == NO_CAPTURE && wait.NoWait? && !busy && !reading.pending && ReadsExact()
      ensures !link.loggedIn && !link.available
      ensures forall id :: id in bus.calls ==> bus.calls[id].Backend() < link.backend
      ensures trace.log == old(trace.log) + [OwnerGone]
      ensures link == Link(link.pinned, false, false, true, false, Actions.VpnState.Unavailable, Actions.SignedOut, old(link.backend) + 1,
                           old(link.session) + if old(link.loggedIn) then 1 else 0)
      ensures reading == Reading(false, 0, false) && counters == old(counters).(capture := old(counters.capture) + 1)
    {
      EndOperation();
      ForgetCapture();
      RenewLink();
    }

    method RenewLink()
      requires Valid() && capture == NO_CAPTURE && captureCall.NoCapture?
      modifies `link, `reading, `readers
      ensures readers.givenUp == old(readers.givenUp)
      ensures Valid() && !link.loggedIn && !link.available && link.backend == old(link.backend) + 1
      ensures !reading.pending && ReadsExact()
      ensures forall id :: id in bus.calls ==> bus.calls[id].Backend() < link.backend
      ensures link == Link(link.pinned, false, false, true, false, Actions.VpnState.Unavailable, Actions.SignedOut, old(link.backend) + 1,
                           old(link.session) + if old(link.loggedIn) then 1 else 0)
      ensures link.pinned == old(link.pinned) && reading == Reading(false, 0, false)
    {
      reading, readers := Reading(false, 0, false), readers.(live := {});
      link := Link(link.pinned, false, false, true, false, Actions.VpnState.Unavailable, Actions.SignedOut, link.backend + 1,
                   link.session + if link.loggedIn then 1 else 0);
    }

    method EndOperation()
      requires Valid()
      modifies `wait, `busy, `trace
      ensures Sound() && wait.NoWait? && !busy && trace.log == old(trace.log) + [OwnerGone]
      ensures !trace.seen.capture.Obliged()
    {
      hide Run, Agree, CaptureExact, ReaderExact, Allowed;
      Note(OwnerGone);
      wait, busy := NoWait, false;
    }

    method ForgetCapture()
      requires Sound() && !trace.seen.capture.Obliged()
      modifies `counters, `capture, `captureCall
      ensures Valid() && capture == NO_CAPTURE && captureCall.NoCapture?
      ensures counters == old(counters).(capture := old(counters.capture) + 1)
    {
      counters := counters.(capture := counters.capture + 1);
      capture, captureCall := NO_CAPTURE, NoCapture;
    }

    method UnpinOwner()
      requires Valid() && capture == NO_CAPTURE && !shutdownPending && !reading.pending && !link.loggedIn && !link.available
      requires forall id :: id in bus.calls ==> bus.calls[id].Backend() < link.backend
      modifies `link
      ensures Valid() && link == old(link).(pinned := false)
    {
      link := link.(pinned := false);
    }
  }

  // ---- What every reachable state guarantees ----

  /** A capture operation is pending exactly while one call of the current capture generation is out. */
  lemma CapturePendingIsExact(f: ForegroundController)
    requires f.Valid()
    ensures var out := set id | id in f.bus.calls && f.CurrentCapture(f.bus.calls[id]);
            |out| == if f.capture.pending then 1 else 0
  {
    var out := set id | id in f.bus.calls && f.CurrentCapture(f.bus.calls[id]);
    if f.capture.pending {
      assert out == {f.captureCall.id};
    } else {
      assert out == {};
    }
  }

  /** At most one call decides the current operation, and none while its outcome is being reconciled. */
  lemma OneCallDecides(f: ForegroundController)
    requires f.Valid()
    ensures var deciding := set id | id in f.bus.calls && f.Decides(f.bus.calls[id]);
            |deciding| <= (if f.wait.Wait? then 0 else 1) && (f.wait.Wait? ==> f.wait.foreground == f.counters.foreground)
  {
    var deciding := set id | id in f.bus.calls && f.Decides(f.bus.calls[id]);
    if id :| id in deciding {
      assert deciding == {id};
    } else {
      assert deciding == {};
    }
  }

  /** Reads on their way to the present owner. */
  ghost function LiveReads(f: ForegroundController): set<nat>
    reads f
  {
    set id | id in f.bus.calls && IsLiveRead(f.bus.calls, id, f.link.backend)
  }

  /** The pending mark counts the reads on their way exactly while no read is left over from a refresh given up. */
  lemma PendingCountsReads(f: ForegroundController)
    requires f.Valid()
    ensures f.ReadsExact() <==> LiveReads(f) == if f.reading.pending then {f.readers.latest.id} else {}
    ensures f.ReadsExact() ==> |LiveReads(f)| == if f.reading.pending then 1 else 0
    ensures f.readers.givenUp == 0 ==> f.ReadsExact()
  {
    assert LiveReads(f) == f.readers.live;
  }

  /**
   In every reachable state the flags keep the client from quitting exactly if the history gives it something to
   wait for. If they do not, a capture may still be running or start exactly if an unusable folder was chosen while
   one may have been running, or a start was overtaken before its answer.
   */
  lemma QuitAbandonsExactly(f: ForegroundController)
    requires f.Valid()
    ensures f.capture.CleanupRequired() <==> KeepsFromQuitting(f.trace.log, |f.trace.log|)
    ensures !f.capture.CleanupRequired() ==>
              (MayRun(f.trace.log, |f.trace.log|) <==> LeftBehind(f.trace.log, |f.trace.log|))
  {
    ObligedExactly(f.trace.views, f.trace.log, |f.trace.log|);
    if !f.capture.CleanupRequired() {
      LeftBehindExactly(f.trace.views, f.trace.log, |f.trace.log|);
    }
  }

  /** A control call that is not answered. */
  method LoseControl(f: ForegroundController)
    requires f.Valid() && f.link.pinned && f.link.available && f.link.healthy && f.reading.pending && !f.reading.armed
    modifies f
    ensures f.Valid() && f.link.pinned && f.link.available && f.link.healthy && LiveReads(f) == old(LiveReads(f))
    ensures f.reading == if old(f.reading.retries) < READ_RETRIES then Reading(true, old(f.reading.retries) + 1, true)
                         else Reading(false, old(f.reading.retries), false)
  {
    f.CallControl();
    f.OnControlReply(f.bus.next - 1, Failed(NoAnswer, OtherName));
  }

  /** The retry it schedules finds the pending read still on its way. */
  method TimeOut(f: ForegroundController)
    requires f.Valid() && f.link.pinned && f.link.available && f.link.healthy && f.reading.pending && !f.reading.armed
    modifies f
    ensures f.Valid() && f.link.pinned && f.link.available && f.link.healthy && LiveReads(f) == old(LiveReads(f))
    ensures f.reading == if old(f.reading.retries) < READ_RETRIES then Reading(true, old(f.reading.retries) + 1, false)
                         else Reading(false, old(f.reading.retries), false)
  {
    LoseControl(f);
    if f.reading.armed {
      f.OnRetryTimer();
    }
  }

  method GiveUp(f: ForegroundController)
    requires f.Valid() && f.link.pinned && f.link.available && f.link.healthy && f.reading == Reading(true, 0, false)
    modifies f
    ensures f.Valid() && f.link.pinned && f.link.available && f.link.healthy && !f.reading.pending
    ensures LiveReads(f) == old(LiveReads(f))
  {
    for n := 0 to READ_RETRIES
      invariant f.Valid() && f.link.pinned && f.link.available && f.link.healthy && f.reading == Reading(true, n, false)
      invariant LiveReads(f) == old(LiveReads(f))
    {
      TimeOut(f);
    }
    TimeOut(f);
  }

  /** A refresh while none is pending. */
  method ReadOnce(f: ForegroundController) returns (ghost id: nat)
    requires f.Valid() && f.link.pinned && f.link.available && f.link.healthy && !f.reading.pending
    modifies f
    ensures f.Valid() && id !in old(LiveReads(f)) && LiveReads(f) == old(LiveReads(f)) + {id}
  {
    f.CallControl();
    id := f.bus.next;
    f.OnControlReply(f.bus.next - 1, Succeeded);
  }

  /** The pending mark does not count the reads: giving up clears it, and the next refresh sends a second one. */
  method TwoReadsTogether() returns (f: ForegroundController)
    ensures fresh(f) && f.Valid() && |LiveReads(f)| >= 2
  {
    f := new ForegroundController();
    f.PinOwner();
    f.OnRegistered(0);
    ghost var before := LiveReads(f);
    assert f.readers.latest.id in before;
    GiveUp(f);
    ghost var second := ReadOnce(f);
    assert |before + {second}| == |before| + 1;
  }

  /** A backend that is connected, signed in and idle, with no capture. */
  method Connect() returns (f: ForegroundController)
    ensures fresh(f) && f.Valid() && f.CanStartCapture() && f.link.pinned && f.wait.NoWait?
    ensures !f.capture.stopRequested && !f.capture.pending
  {
    f := new ForegroundController();
    f.PinOwner();
    f.OnRegistered(0);
    f.OnSnapshotSignal(Usable(Idle(true)));
  }

  /** An idle state without a capture. */
  function Idle(loggedIn: bool): Snapshot {
    Snapshot(true, loggedIn, false, Actions.VpnState.Connected, Actions.SignedIn, false)
  }

  /** A capture is started, and its start acknowledged. */
  method Acknowledge(f: ForegroundController)
    requires f.Valid() && f.CanStartCapture() && f.link.pinned
    modifies f
    ensures f.Valid() && f.CanStartCapture() && f.trace.seen.capture.owed && !f.capture.pending
  {
    var id := f.bus.next;
    f.StartPacketCapture("/");
    f.OnCaptureReply(id, Succeeded);
  }

  /** Quitting was granted last, and a capture may be running or may still start. */
  ghost predicate GrantedTooEarly(f: ForegroundController)
    reads f
  {
    var n := |f.trace.log|;
    n > 0 && f.trace.log[n - 1] == ShutdownGranted && MayRun(f.trace.log, n)
  }

  /** Asks to quit when nothing keeps the client from it although a capture is owed. */
  method Quit(f: ForegroundController)
    requires f.Valid() && !f.capture.CleanupRequired() && f.trace.seen.capture.owed
    modifies f
    ensures f.Valid() && GrantedTooEarly(f) && f.trace.seen.capture == old(f.trace.seen.capture)
  {
    var now := f.RequestShutdown();
    OwedExactly(f.trace.views, f.trace.log, |f.trace.log|);
  }

  /**
   A capture is started and acknowledged; before the next snapshot an unusable folder is chosen. Quitting is
   then granted at once, although nothing has stopped the capture and nobody is going to.
   */
  method CaptureLeftBehind() returns (f: ForegroundController)
    ensures fresh(f) && f.Valid() && GrantedTooEarly(f)
  {
    f := Connect();
    Acknowledge(f);
    f.StartPacketCapture("");
    Quit(f);
  }

  /** A start of a capture is still unanswered by the present owner. */
  ghost predicate StartOut(f: ForegroundController)
    reads f
  {
    exists p: nat :: Unanswered(f.trace.log, p, |f.trace.log|)
  }

  /** A start that is out may bring a capture: the client owes it. */
  lemma StartIsOwed(f: ForegroundController)
    requires f.Valid() && f.trace.seen.capture.starts != {}
    ensures f.trace.seen.capture.owed && StartOut(f)
  {
    AlwaysRemembered(f.trace.views, f.trace.log, |f.trace.log|);
    AllAnsweredExactly(f.trace.views, f.trace.log, |f.trace.log|);
  }

  /**
   The stop of a capture overtakes its start and is refused; an idle snapshot without a capture arrives, and
   quitting is granted while the start is still unanswered.
   */
  method StopRefusedFirst() returns (f: ForegroundController)
    ensures fresh(f) && f.Valid() && GrantedTooEarly(f) && StartOut(f)
  {
    f := Connect();
    ghost var start := f.bus.next;
    f.StartPacketCapture("/");
    OvertakeStart(f, start);
    f.OnSnapshotSignal(Usable(Idle(true)));
    StartIsOwed(f);
    Quit(f);
    StartIsOwed(f);
  }

  /** The stop is sent at once, and refused before the start is answered. */
  method OvertakeStart(f: ForegroundController, ghost start: nat)
    requires f.Valid() && f.link.pinned && f.link.available && f.link.ready && start in f.bus.calls
    requires start in f.trace.seen.capture.starts
    requires f.capture.pending && f.capture.expected == Expect(true) && !f.capture.failed
    modifies f
    ensures f.Valid() && f.link.pinned && !f.capture.pending && start in f.trace.seen.capture.starts
  {
    var stop := f.bus.next;
    f.StopPacketCapture();
    f.OnCaptureReply(stop, Failed(OtherType, OtherName));
  }

  /** An idle snapshot of a signed-out session arrives before a start is answered, and quitting is granted. */
  method SignedOutFirst() returns (f: ForegroundController)
    ensures fresh(f) && f.Valid() && GrantedTooEarly(f) && StartOut(f)
  {
    f := Connect();
    f.StartPacketCapture("/");
    f.OnSnapshotSignal(Usable(Idle(false)));
    StartIsOwed(f);
    Quit(f);
    StartIsOwed(f);
  }
}
