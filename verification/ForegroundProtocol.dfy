/**
 What the Control Center's foreground operations may announce, as a monitor over their history, and
 what every accepted history guarantees (src/VpnControllerActions.cpp, src/VpnControllerSnapshot.cpp).
 */
module ForegroundProtocol {
  import opened Histories

  datatype Target = Connected | Disconnected

  datatype Purpose = ForRead | ForConnection | ForCapture(start: bool) | ForOther

  datatype Source = FromRead(id: nat) | FromSignal

  /** NoAnswer: no reply, a timeout or no network. OwnerUnknown: no such service, no server or disconnected. */
  datatype ErrorType = NoAnswer | OwnerUnknown | OtherType

  datatype Answer = Success | Failure(errorType: ErrorType)

  datatype Event =
    | OperationBegan
    | ConnectionStarted(connection: nat, target: Target)
    | ConnectionFinished(connection: nat, target: Target, acknowledged: bool)
    | Sent(id: nat, purpose: Purpose)
    | Replied(id: nat, answer: Answer)
    | ReconciliationOpened
    | SnapshotAdopted(source: Source, busy: bool, capturing: bool, renewed: bool)
    | Reconciled
    | OwnerGone
    | StopAsked
    | FolderRefused
    | ShutdownDeferred
    | ShutdownGranted
    | ShutdownReady
  {
    predicate SendsCapture() {
      Sent? && purpose.ForCapture?
    }

    predicate Starts() {
      SendsCapture() && purpose.start
    }

    predicate Stops() {
      SendsCapture() && !purpose.start
    }

    /** The answer to an earlier capture call no longer counts. */
    predicate TakesTurn() {
      SendsCapture() || (SnapshotAdopted? && renewed)
    }

    /** From here on a capture may be running. */
    predicate MayCapture() {
      Starts() || (SnapshotAdopted? && capturing)
    }
  }

  // ---- Connection outcomes ----

  datatype Awaited = NoCall | CallIs(id: nat)

  datatype ConnectionView = ConnectionView(connection: nat, target: Target, finished: bool, call: Awaited)

  function NextConnection(v: ConnectionView, e: Event): ConnectionView {
    match e
    case ConnectionStarted(connection, target) => ConnectionView(connection, target, false, NoCall)
    case ConnectionFinished(_, _, _) => v.(finished := true)
    case Sent(id, ForConnection) => v.(call := CallIs(id))
    case _ => v
  }

  // ---- Reconciliation ----

  /** sent: the snapshot reads sent since it opened; observed: one of them was adopted. */
  datatype Reconciliation = Closed | Open(sent: set<nat>, observed: bool)

  function NextReconciliation(v: Reconciliation, e: Event): Reconciliation {
    match e
    case OperationBegan => Closed
    case OwnerGone => Closed
    case Reconciled => Closed
    case ReconciliationOpened => Open({}, false)
    case Sent(id, ForRead) => if v.Open? then v.(sent := v.sent + {id}) else v
    case SnapshotAdopted(FromRead(id), _, _, _) => if v.Open? then v.(observed := v.observed || id in v.sent) else v
    case _ => v
  }

  // ---- Packet capture ----

  datatype CaptureCall = NoCapture | CaptureIs(id: nat, start: bool)

  /**
   owed: a capture may be running or may yet start, since one was started or seen and nothing has shown its end.
   starts: the starts this owner has not answered. stops: the stops it has not answered, sent since the last start.
   call: the capture call that counts, until it is answered or its session ends.
   running: the latest snapshot shows a capture. expected: a start is expected to show. asked: a stop is asked for.
   refused: an unusable folder was chosen while owed, and since then nothing was started and no stop was asked for.
   overtaken: a start lost its turn to another capture call or to a new session before it was answered.
   */
  datatype CaptureView = CaptureView(
    owed: bool, starts: set<nat>, stops: set<nat>, call: CaptureCall, running: bool, expected: bool, asked: bool,
    refused: bool, overtaken: bool)
  {
    /** Something keeps the client from quitting. */
    predicate Obliged() {
      running || expected || asked || call.CaptureIs?
    }
  }

  /** The call that counts is a stop, and it succeeded. */
  predicate StopCounts(v: CaptureView, e: Event) {
    e.Replied? && e.answer.Success? && v.call == CaptureIs(e.id, false)
  }

  /** A snapshot while no capture call counts. */
  predicate Settles(v: CaptureView, e: Event) {
    e.SnapshotAdopted? && (e.renewed || v.call.NoCapture?)
  }

  /**
   The end of whatever may have been running: the owner is gone; or, with every start answered, a stop sent after
   the last one succeeded, or a snapshot shows no capture and is idle or shows the first one gone.
   */
  predicate EndIsShown(v: CaptureView, e: Event) {
    || e.OwnerGone?
    || (v.starts == {} && e.Replied? && e.answer.Success? && e.id in v.stops)
    || (v.starts == {} && e.SnapshotAdopted? && !e.capturing && (!e.busy || v.running))
  }

  function NextCall(v: CaptureView, e: Event): CaptureCall {
    match e
    case Sent(id, ForCapture(start)) => CaptureIs(id, start)
    case Replied(id, _) => if v.call.CaptureIs? && v.call.id == id then NoCapture else v.call
    case SnapshotAdopted(_, _, _, renewed) => if renewed then NoCapture else v.call
    case OwnerGone => NoCapture
    case _ => v.call
  }

  function NextStarts(v: CaptureView, e: Event): set<nat> {
    match e
    case Sent(id, ForCapture(start)) => if start then v.starts + {id} else v.starts
    case Replied(id, _) => v.starts - {id}
    case OwnerGone => {}
    case _ => v.starts
  }

  function NextStops(v: CaptureView, e: Event): set<nat> {
    match e
    case Sent(id, ForCapture(start)) => if start then {} else v.stops + {id}
    case Replied(id, _) => v.stops - {id}
    case OwnerGone => {}
    case _ => v.stops
  }

  function NextCapture(v: CaptureView, e: Event): CaptureView {
    CaptureView(
      e.MayCapture() || (v.owed && !EndIsShown(v, e)),
      NextStarts(v, e), NextStops(v, e), NextCall(v, e),
      if e.SnapshotAdopted? then e.capturing else v.running && !e.OwnerGone? && !StopCounts(v, e),
      e.Starts() || (v.expected && !DropsExpectation(v, e)),
      e.StopAsked? || (v.asked && !DropsRequest(v, e)),
      (e.FolderRefused? && v.owed) || (v.refused && !e.Starts() && !e.StopAsked? && !EndIsShown(v, e)),
      (e.TakesTurn() && v.starts != {}) || (v.overtaken && !EndIsShown(v, e)))
  }

  predicate DropsExpectation(v: CaptureView, e: Event) {
    || e.OwnerGone? || e.FolderRefused? || StopCounts(v, e) || e.Stops()
    || (Settles(v, e) && (e.capturing || !e.busy))
  }

  predicate DropsRequest(v: CaptureView, e: Event) {
    || e.OwnerGone? || e.FolderRefused? || StopCounts(v, e) || e.Starts()
    || (Settles(v, e) && !e.capturing && !e.busy)
  }

  // ---- The product ----

  datatype Last = Other | LastReply(id: nat, answer: Answer) | LastSnapshot(busy: bool)

  function NextLast(e: Event): Last {
    match e
    case Replied(id, answer) => LastReply(id, answer)
    case SnapshotAdopted(_, busy, _, _) => LastSnapshot(busy)
    case _ => Other
  }

  datatype View = View(next: nat, connection: ConnectionView, reconciliation: Reconciliation, capture: CaptureView,
                       shutdown: bool, last: Last)

  const START := View(0, ConnectionView(0, Disconnected, true, NoCall), Closed,
                      CaptureView(false, {}, {}, NoCapture, false, false, false, false, false), false, Other)

  function Next(v: View, e: Event): View {
    View(if e.Sent? then e.id + 1 else v.next,
         NextConnection(v.connection, e), NextReconciliation(v.reconciliation, e), NextCapture(v.capture, e),
         if e.ShutdownDeferred? then true else if e.ShutdownReady? then false else v.shutdown,
         NextLast(e))
  }

  predicate Allowed(v: View, e: Event) {
    match e
    case Sent(id, ForConnection) => v.next <= id && !v.connection.finished && v.connection.call.NoCall?
    case Sent(id, ForCapture(start)) => v.next <= id && (start || v.capture.asked)
    case Sent(id, _) => v.next <= id
    case ConnectionStarted(connection, _) => v.connection.connection < connection
    case ConnectionFinished(connection, target, acknowledged) =>
      && v.connection.connection == connection && v.connection.target == target && !v.connection.finished
      && (acknowledged ==> v.connection.call.CallIs? && v.last == LastReply(v.connection.call.id, Success))
    case ReconciliationOpened => v.reconciliation.Closed? && v.last.LastReply? && v.last.answer == Failure(NoAnswer)
    case Reconciled => v.reconciliation.Open? && v.reconciliation.observed && v.last == LastSnapshot(false)
    case ShutdownDeferred => !v.shutdown
    case ShutdownGranted => !v.capture.Obliged()
    case ShutdownReady => v.shutdown && !v.capture.Obliged()
    case _ => true
  }

  ghost predicate Step(views: seq<View>, log: seq<Event>, i: nat)
    requires |views| == |log| + 1 && i < |log|
  {
    Allowed(views[i], log[i]) && views[i + 1] == Next(views[i], log[i])
  }

  ghost predicate Run(views: seq<View>, log: seq<Event>) {
    && |views| == |log| + 1
    && views[0] == START
    && forall i: nat {:trigger Step(views, log, i)} :: i < |log| ==> Step(views, log, i)
  }

  lemma Extend(views: seq<View>, log: seq<Event>, e: Event)
    requires Run(views, log) && Allowed(views[|log|], e)
    ensures Run(views + [Next(views[|log|], e)], log + [e])
  {
    var longerViews, longerLog := views + [Next(views[|log|], e)], log + [e];
    forall i: nat | i < |longerLog|
      ensures Step(longerViews, longerLog, i)
    {
      if i < |log| {
        assert Step(views, log, i);
      }
    }
  }

  // ---- What accepted histories guarantee: connection outcomes ----

  lemma {:induction false} StartedSince(views: seq<View>, log: seq<Event>, n: nat) returns (s: nat)
    requires Run(views, log) && n <= |log| && !views[n].connection.finished
    ensures s < n && log[s] == ConnectionStarted(views[n].connection.connection, views[n].connection.target)
    ensures forall k :: s < k < n ==> !log[k].ConnectionStarted? && !log[k].ConnectionFinished?
    ensures match views[n].connection.call
            case CallIs(id) => exists c :: s < c < n && log[c] == Sent(id, ForConnection)
            case NoCall => true
  {
    if n == 0 {
      assert false;
    }
    assert Step(views, log, n - 1);
    if log[n - 1].ConnectionStarted? {
      s := n - 1;
    } else {
      s := StartedSince(views, log, n - 1);
      if log[n - 1].Sent? && log[n - 1].purpose.ForConnection? {
        assert s < n - 1 < n && log[n - 1] == Sent(views[n].connection.call.id, ForConnection);
      }
    }
  }

  /**
   An announced outcome is the first one since the most recent start and names it; success is announced
   only as that operation's own call, sent after its start, has just been answered with success.
   */
  lemma OutcomeNamesLatestOperation(views: seq<View>, log: seq<Event>, i: nat) returns (s: nat)
    requires Run(views, log) && i < |log| && log[i].ConnectionFinished?
    ensures s < i && log[s] == ConnectionStarted(log[i].connection, log[i].target)
    ensures forall k :: s < k < i ==> !log[k].ConnectionStarted? && !log[k].ConnectionFinished?
    ensures log[i].acknowledged ==>
              exists c, id :: s < c < i - 1 && log[c] == Sent(id, ForConnection) && log[i - 1] == Replied(id, Success)
  {
    assert Step(views, log, i);
    s := StartedSince(views, log, i);
    if log[i].acknowledged {
      assert i > 0 && Step(views, log, i - 1);
      var id := views[i].connection.call.id;
      assert log[i - 1] == Replied(id, Success);
      var c :| s < c < i && log[c] == Sent(id, ForConnection);
      assert c != i - 1;
    }
  }

  lemma {:induction false} ConnectionsOnlyGrow(views: seq<View>, log: seq<Event>, m: nat, n: nat)
    requires Run(views, log) && m <= n <= |log|
    ensures views[m].connection.connection <= views[n].connection.connection
    ensures views[m].connection.connection == views[n].connection.connection && views[m].connection.finished ==>
              views[n].connection.finished
  {
    if m < n {
      ConnectionsOnlyGrow(views, log, m, n - 1);
      assert Step(views, log, n - 1);
    }
  }

  /** No operation has two outcomes. */
  lemma AtMostOneOutcome(views: seq<View>, log: seq<Event>, i: nat, j: nat)
    requires Run(views, log) && i < j < |log| && log[i].ConnectionFinished? && log[j].ConnectionFinished?
    ensures log[i].connection < log[j].connection
  {
    assert Step(views, log, i) && Step(views, log, j);
    ConnectionsOnlyGrow(views, log, i + 1, j);
  }

  // ---- Reconciliation ----

  predicate EndsReconciliation(e: Event) {
    e.OperationBegan? || e.OwnerGone? || e.Reconciled?
  }

  lemma {:induction false} OpenSince(views: seq<View>, log: seq<Event>, n: nat) returns (o: nat)
    requires Run(views, log) && n <= |log| && views[n].reconciliation.Open?
    ensures o < n && log[o] == ReconciliationOpened
    ensures forall k :: o < k < n ==> !EndsReconciliation(log[k])
    ensures forall id <- views[n].reconciliation.sent :: exists s :: o < s < n && log[s] == Sent(id, ForRead)
    ensures views[n].reconciliation.observed ==> FreshRead(log, o, n)
  {
    if n == 0 {
      assert false;
    }
    assert Step(views, log, n - 1);
    if log[n - 1].ReconciliationOpened? {
      o := n - 1;
    } else {
      o := OpenSince(views, log, n - 1);
      var (before, after) := (views[n - 1].reconciliation, views[n].reconciliation);
      forall id <- after.sent ensures exists s :: o < s < n && log[s] == Sent(id, ForRead) {
        if id in before.sent {
          var s :| o < s < n - 1 && log[s] == Sent(id, ForRead);
        } else {
          assert log[n - 1] == Sent(id, ForRead);
        }
      }
      if after.observed && !before.observed {
        var id := log[n - 1].source.id;
        var s :| o < s < n - 1 && log[s] == Sent(id, ForRead);
        assert IsFreshRead(log, o, n, s, n - 1);
      } else if after.observed {
        var s: nat, a: nat :| IsFreshRead(log, o, n - 1, s, a);
        assert IsFreshRead(log, o, n, s, a);
      }
    }
  }

  ghost predicate IsFreshRead(log: seq<Event>, from: nat, to: nat, s: nat, a: nat) {
    && from < s < a < to <= |log| && log[s].Sent? && log[s].purpose.ForRead?
    && log[a].SnapshotAdopted? && log[a].source == FromRead(log[s].id)
  }

  /** A snapshot read was sent and then adopted between two positions. */
  ghost predicate FreshRead(log: seq<Event>, from: nat, to: nat) {
    exists s: nat, a: nat :: IsFreshRead(log, from, to, s, a)
  }

  /**
   A wait for the outcome of a timed-out operation ends by a snapshot only after a read sent during the wait
   was adopted and the snapshot just adopted was idle; a read sent before the timeout never counts.
   */
  lemma ReconciliationNeedsFreshRead(views: seq<View>, log: seq<Event>, i: nat) returns (o: nat)
    requires Run(views, log) && i < |log| && log[i].Reconciled?
    ensures o < i && log[o] == ReconciliationOpened && FreshRead(log, o, i)
    ensures forall k :: o < k < i ==> !EndsReconciliation(log[k])
    ensures log[i - 1].SnapshotAdopted? && !log[i - 1].busy
    ensures o > 0 && log[o - 1].Replied? && log[o - 1].answer == Failure(NoAnswer)
  {
    assert Step(views, log, i);
    o := OpenSince(views, log, i);
    assert i > 0 && Step(views, log, i - 1) && Step(views, log, o);
    if o > 0 {
      assert Step(views, log, o - 1);
    }
  }

  /** A wait opens directly after an answer that did not come in time, and after no other. */
  lemma WaitsAfterTimeout(views: seq<View>, log: seq<Event>, i: nat)
    requires Run(views, log) && i < |log| && log[i].ReconciliationOpened?
    ensures i > 0 && log[i - 1].Replied? && log[i - 1].answer == Failure(NoAnswer)
  {
    assert Step(views, log, i);
    if i > 0 {
      assert Step(views, log, i - 1);
    }
  }

  // ---- Shutdown ----

  lemma {:induction false} DeferredSince(views: seq<View>, log: seq<Event>, n: nat) returns (d: nat)
    requires Run(views, log) && n <= |log| && views[n].shutdown
    ensures d < n && log[d].ShutdownDeferred?
    ensures forall k :: d < k < n ==> !log[k].ShutdownReady? && !log[k].ShutdownDeferred?
  {
    if n == 0 {
      assert false;
    }
    assert Step(views, log, n - 1);
    if log[n - 1].ShutdownDeferred? {
      d := n - 1;
    } else {
      d := DeferredSince(views, log, n - 1);
    }
  }

  /** Readiness is announced at most once for each deferred shutdown, and never without one. */
  lemma ReadyOncePerDeferral(views: seq<View>, log: seq<Event>, i: nat) returns (d: nat)
    requires Run(views, log) && i < |log| && log[i].ShutdownReady?
    ensures d < i && log[d].ShutdownDeferred?
    ensures forall k :: d < k < i ==> !log[k].ShutdownReady?
  {
    assert Step(views, log, i);
    d := DeferredSince(views, log, i);
  }

  // ---- Packet capture, by positions in the history only ----

  /** A call ends by its own answer, which may be a failure or a timeout, or with its owner; nothing else ends it. */
  predicate Answers(e: Event, id: nat) {
    (e.Replied? && e.id == id) || e.OwnerGone?
  }

  /** A start was sent to the present owner, which has not answered it. */
  ghost predicate Unanswered(log: seq<Event>, p: nat, n: nat)
    requires n <= |log|
  {
    p < n && log[p].Starts() && forall k :: p < k < n ==> !Answers(log[k], log[p].id)
  }

  /** Every start sent before was answered. */
  ghost predicate AllAnswered(log: seq<Event>, n: nat)
    requires n <= |log|
  {
    forall p: nat :: !Unanswered(log, p, n)
  }

  /** A stop was sent after the last start, and was not answered yet. */
  ghost predicate StopOut(log: seq<Event>, p: nat, n: nat, id: nat)
    requires n <= |log|
  {
    p < n && log[p] == Sent(id, ForCapture(false)) && forall k :: p < k < n ==> !Answers(log[k], id) && !log[k].Starts()
  }

  /** The capture call whose answer counts: the latest one, in its session, not answered yet. */
  ghost predicate Counts(log: seq<Event>, p: nat, n: nat, call: CaptureCall)
    requires n <= |log|
  {
    && p < n && call.CaptureIs? && log[p] == Sent(call.id, ForCapture(call.start))
    && forall k :: p < k < n ==> !Answers(log[k], call.id) && !log[k].TakesTurn()
  }

  ghost predicate CallCounts(log: seq<Event>, n: nat, call: CaptureCall)
    requires n <= |log|
  {
    exists p: nat :: Counts(log, p, n, call)
  }

  /** A successful answer to the stop that counts. */
  ghost predicate StopSucceeds(log: seq<Event>, k: nat)
    requires k < |log|
  {
    log[k].Replied? && log[k].answer.Success? && CallCounts(log, k, CaptureIs(log[k].id, false))
  }

  /** The latest snapshot showed a capture, and no stop that counts has succeeded since. */
  ghost predicate Running(log: seq<Event>, r: nat, n: nat)
    requires n <= |log|
  {
    && r < n && log[r].SnapshotAdopted? && log[r].capturing
    && forall k :: r < k < n ==> !log[k].SnapshotAdopted? && !log[k].OwnerGone? && !StopSucceeds(log, k)
  }

  /** The events that show the end of whatever capture may have been running. */
  ghost predicate ShowsEnd(log: seq<Event>, t: nat)
    requires t < |log|
  {
    || log[t].OwnerGone?
    || (AllAnswered(log, t) && log[t].Replied? && log[t].answer.Success? && exists p: nat :: StopOut(log, p, t, log[t].id))
    || (AllAnswered(log, t) && log[t].SnapshotAdopted? && !log[t].capturing
        && (!log[t].busy || exists r: nat :: Running(log, r, t)))
  }

  /** A capture was started or seen, and nothing has shown its end. */
  ghost predicate MayRunSince(log: seq<Event>, s: nat, n: nat)
    requires n <= |log|
  {
    s < n && log[s].MayCapture() && forall k :: s < k < n ==> !ShowsEnd(log, k)
  }

  ghost predicate MayRun(log: seq<Event>, n: nat)
    requires n <= |log|
  {
    exists s: nat :: MayRunSince(log, s, n)
  }

  /** An unusable folder was chosen while a capture may have been running; nothing was started or asked for since. */
  ghost predicate RefusedAt(log: seq<Event>, r: nat, n: nat)
    requires n <= |log|
  {
    && r < n && log[r].FolderRefused? && MayRun(log, r)
    && forall k :: r < k < n ==> !log[k].Starts() && !log[k].StopAsked? && !ShowsEnd(log, k)
  }

  /** A later capture call or a new session overtook a start that was not answered; no end was shown since. */
  ghost predicate OvertakenAt(log: seq<Event>, q: nat, n: nat)
    requires n <= |log|
  {
    && q < n && log[q].TakesTurn() && !AllAnswered(log, q)
    && forall k :: q < k < n ==> !ShowsEnd(log, k)
  }

  // ---- The monitor's marks are these positions ----

  lemma UnansweredExactly(views: seq<View>, log: seq<Event>, n: nat, id: nat)
    requires Run(views, log) && n <= |log|
    ensures id in views[n].capture.starts <==> exists p: nat :: Unanswered(log, p, n) && log[p].id == id
  {
    var mark := (k: nat) => k < |views| && id in views[k].capture.starts;
    var sets := (k: nat) => k < |log| && log[k].Starts() && log[k].id == id;
    var clears := (k: nat) => k < |log| && Answers(log[k], id);
    forall k: nat | k < n ensures mark(k + 1) == (sets(k) || (mark(k) && !clears(k))) {
      assert Step(views, log, k);
    }
    MarkStands(mark, sets, clears, n);
    if p: nat :| StandsFrom(sets, clears, p, n) {
      forall k | p < k < n ensures !Answers(log[k], id) {
        assert !clears(k);
      }
      assert Unanswered(log, p, n);
    }
    if p: nat :| Unanswered(log, p, n) && log[p].id == id {
      assert StandsFrom(sets, clears, p, n);
    }
  }

  lemma AllAnsweredExactly(views: seq<View>, log: seq<Event>, n: nat)
    requires Run(views, log) && n <= |log|
    ensures views[n].capture.starts == {} <==> AllAnswered(log, n)
  {
    if views[n].capture.starts == {} {
      forall p: nat ensures !Unanswered(log, p, n) {
        if Unanswered(log, p, n) {
          UnansweredExactly(views, log, n, log[p].id);
        }
      }
    } else {
      var id :| id in views[n].capture.starts;
      UnansweredExactly(views, log, n, id);
    }
  }

  lemma StopOutExactly(views: seq<View>, log: seq<Event>, n: nat, id: nat)
    requires Run(views, log) && n <= |log|
    ensures id in views[n].capture.stops <==> exists p: nat :: StopOut(log, p, n, id)
  {
    var mark := (k: nat) => k < |views| && id in views[k].capture.stops;
    var sets := (k: nat) => k < |log| && log[k] == Sent(id, ForCapture(false));
    var clears := (k: nat) => k < |log| && (Answers(log[k], id) || log[k].Starts());
    forall k: nat | k < n ensures mark(k + 1) == (sets(k) || (mark(k) && !clears(k))) {
      assert Step(views, log, k);
    }
    MarkStands(mark, sets, clears, n);
    if p: nat :| StandsFrom(sets, clears, p, n) {
      forall k | p < k < n ensures !Answers(log[k], id) && !log[k].Starts() {
        assert !clears(k);
      }
      assert StopOut(log, p, n, id);
    }
    if p: nat :| StopOut(log, p, n, id) {
      assert StandsFrom(sets, clears, p, n);
    }
  }

  lemma CountsExactly(views: seq<View>, log: seq<Event>, n: nat, call: CaptureCall)
    requires Run(views, log) && n <= |log| && call.CaptureIs?
    ensures views[n].capture.call == call <==> CallCounts(log, n, call)
  {
    var mark := (k: nat) => k < |views| && views[k].capture.call == call;
    var sets := (k: nat) => k < |log| && log[k] == Sent(call.id, ForCapture(call.start));
    var clears := (k: nat) => k < |log| && (Answers(log[k], call.id) || log[k].TakesTurn());
    forall k: nat | k < n ensures mark(k + 1) == (sets(k) || (mark(k) && !clears(k))) {
      assert Step(views, log, k);
    }
    MarkStands(mark, sets, clears, n);
    if p: nat :| StandsFrom(sets, clears, p, n) {
      forall k | p < k < n ensures !Answers(log[k], call.id) && !log[k].TakesTurn() {
        assert !clears(k);
      }
      assert Counts(log, p, n, call);
    }
    if p: nat :| Counts(log, p, n, call) {
      assert StandsFrom(sets, clears, p, n);
    }
  }

  lemma StopSucceedsExactly(views: seq<View>, log: seq<Event>, k: nat)
    requires Run(views, log) && k < |log|
    ensures StopCounts(views[k].capture, log[k]) <==> StopSucceeds(log, k)
  {
    if log[k].Replied? {
      CountsExactly(views, log, k, CaptureIs(log[k].id, false));
    }
  }

  lemma RunningExactly(views: seq<View>, log: seq<Event>, n: nat)
    requires Run(views, log) && n <= |log|
    ensures views[n].capture.running <==> exists r: nat :: Running(log, r, n)
  {
    ghost var succeeds := seq(|log|, (k: nat) requires k < |log| => StopSucceeds(log, k));
    var mark := (k: nat) => k < |views| && views[k].capture.running;
    var sets := (k: nat) => k < |log| && log[k].SnapshotAdopted? && log[k].capturing;
    var clears := (k: nat) => k < |log| && (log[k].SnapshotAdopted? || log[k].OwnerGone? || succeeds[k]);
    forall k: nat | k < n ensures mark(k + 1) == (sets(k) || (mark(k) && !clears(k))) {
      assert Step(views, log, k);
      StopSucceedsExactly(views, log, k);
    }
    MarkStands(mark, sets, clears, n);
    if r: nat :| StandsFrom(sets, clears, r, n) {
      forall k | r < k < n ensures !log[k].SnapshotAdopted? && !log[k].OwnerGone? && !StopSucceeds(log, k) {
        assert !clears(k);
      }
      assert Running(log, r, n);
    }
    if r: nat :| Running(log, r, n) {
      assert StandsFrom(sets, clears, r, n);
    }
  }

  lemma ShowsEndExactly(views: seq<View>, log: seq<Event>, t: nat)
    requires Run(views, log) && t < |log|
    ensures EndIsShown(views[t].capture, log[t]) <==> ShowsEnd(log, t)
  {
    AllAnsweredExactly(views, log, t);
    RunningExactly(views, log, t);
    if log[t].Replied? {
      StopOutExactly(views, log, t, log[t].id);
    }
  }

  /** Which events show an end, as a sequence. */
  ghost function Ends(log: seq<Event>): (ends: seq<bool>)
    ensures |ends| == |log| && forall t :: 0 <= t < |log| ==> ends[t] == ShowsEnd(log, t)
  {
    seq(|log|, (t: nat) requires t < |log| => ShowsEnd(log, t))
  }

  /** A capture is owed exactly if one was started or seen and nothing has shown its end since. */
  lemma OwedExactly(views: seq<View>, log: seq<Event>, n: nat)
    requires Run(views, log) && n <= |log|
    ensures views[n].capture.owed <==> MayRun(log, n)
  {
    ghost var ends := Ends(log);
    var mark := (k: nat) => k < |views| && views[k].capture.owed;
    var sets := (k: nat) => k < |log| && log[k].MayCapture();
    var clears := (k: nat) => k < |log| && ends[k];
    forall k: nat | k < n ensures mark(k + 1) == (sets(k) || (mark(k) && !clears(k))) {
      assert Step(views, log, k);
      ShowsEndExactly(views, log, k);
    }
    MarkStands(mark, sets, clears, n);
    if s: nat :| StandsFrom(sets, clears, s, n) {
      forall k | s < k < n ensures !ShowsEnd(log, k) {
        assert !clears(k);
      }
      assert MayRunSince(log, s, n);
    }
    if s: nat :| MayRunSince(log, s, n) {
      assert StandsFrom(sets, clears, s, n);
    }
  }

  lemma RefusedExactly(views: seq<View>, log: seq<Event>, n: nat)
    requires Run(views, log) && n <= |log|
    ensures views[n].capture.refused <==> exists r: nat :: RefusedAt(log, r, n)
  {
    ghost var ends := Ends(log);
    ghost var owed := seq(|log|, (k: nat) requires k < |log| => MayRun(log, k));
    var mark := (k: nat) => k < |views| && views[k].capture.refused;
    var sets := (k: nat) => k < |log| && log[k].FolderRefused? && owed[k];
    var clears := (k: nat) => k < |log| && (log[k].Starts() || log[k].StopAsked? || ends[k]);
    forall k: nat | k < n ensures mark(k + 1) == (sets(k) || (mark(k) && !clears(k))) {
      assert Step(views, log, k);
      ShowsEndExactly(views, log, k);
      OwedExactly(views, log, k);
    }
    MarkStands(mark, sets, clears, n);
    if r: nat :| StandsFrom(sets, clears, r, n) {
      forall k | r < k < n ensures !log[k].Starts() && !log[k].StopAsked? && !ShowsEnd(log, k) {
        assert !clears(k);
      }
      assert RefusedAt(log, r, n);
    }
    if r: nat :| RefusedAt(log, r, n) {
      assert StandsFrom(sets, clears, r, n);
    }
  }

  lemma OvertakenExactly(views: seq<View>, log: seq<Event>, n: nat)
    requires Run(views, log) && n <= |log|
    ensures views[n].capture.overtaken <==> exists q: nat :: OvertakenAt(log, q, n)
  {
    ghost var ends := Ends(log);
    ghost var answered := seq(|log|, (k: nat) requires k < |log| => AllAnswered(log, k));
    var mark := (k: nat) => k < |views| && views[k].capture.overtaken;
    var sets := (k: nat) => k < |log| && log[k].TakesTurn() && !answered[k];
    var clears := (k: nat) => k < |log| && ends[k];
    forall k: nat | k < n ensures mark(k + 1) == (sets(k) || (mark(k) && !clears(k))) {
      assert Step(views, log, k);
      ShowsEndExactly(views, log, k);
      AllAnsweredExactly(views, log, k);
    }
    MarkStands(mark, sets, clears, n);
    if q: nat :| StandsFrom(sets, clears, q, n) {
      forall k | q < k < n ensures !ShowsEnd(log, k) {
        assert !clears(k);
      }
      assert OvertakenAt(log, q, n);
    }
    if q: nat :| OvertakenAt(log, q, n) {
      assert StandsFrom(sets, clears, q, n);
    }
  }

  // ---- Quitting ----

  /** A snapshot while no capture call counts, in its own session. */
  ghost predicate SettlesAt(log: seq<Event>, k: nat)
    requires k < |log|
  {
    log[k].SnapshotAdopted? && (log[k].renewed || forall call :: !CallCounts(log, k, call))
  }

  lemma SettlesExactly(views: seq<View>, log: seq<Event>, k: nat)
    requires Run(views, log) && k < |log|
    ensures Settles(views[k].capture, log[k]) <==> SettlesAt(log, k)
  {
    var current := views[k].capture.call;
    if current.CaptureIs? {
      CountsExactly(views, log, k, current);
    } else {
      forall call ensures !CallCounts(log, k, call) {
        if call.CaptureIs? {
          CountsExactly(views, log, k, call);
        }
      }
    }
  }

  /** The events that end the expectation of a capture, and those that end a request to stop it. */
  ghost predicate EndsExpectation(log: seq<Event>, k: nat)
    requires k < |log|
  {
    || log[k].OwnerGone? || log[k].FolderRefused? || StopSucceeds(log, k) || log[k].Stops()
    || (SettlesAt(log, k) && (log[k].capturing || !log[k].busy))
  }

  ghost predicate EndsRequest(log: seq<Event>, k: nat)
    requires k < |log|
  {
    || log[k].OwnerGone? || log[k].FolderRefused? || StopSucceeds(log, k) || log[k].Starts()
    || (SettlesAt(log, k) && !log[k].capturing && !log[k].busy)
  }

  /** A start was sent, and nothing has confirmed it, refuted it or taken its place. */
  ghost predicate ExpectedSince(log: seq<Event>, s: nat, n: nat)
    requires n <= |log|
  {
    s < n && log[s].Starts() && forall k :: s < k < n ==> !EndsExpectation(log, k)
  }

  /** A stop was asked for, and nothing has answered or taken back the request. */
  ghost predicate AskedSince(log: seq<Event>, a: nat, n: nat)
    requires n <= |log|
  {
    a < n && log[a].StopAsked? && forall k :: a < k < n ==> !EndsRequest(log, k)
  }

  lemma ExpectedExactly(views: seq<View>, log: seq<Event>, n: nat)
    requires Run(views, log) && n <= |log|
    ensures views[n].capture.expected <==> exists s: nat :: ExpectedSince(log, s, n)
  {
    ghost var drops := seq(|log|, (k: nat) requires k < |log| => EndsExpectation(log, k));
    var mark := (k: nat) => k < |views| && views[k].capture.expected;
    var sets := (k: nat) => k < |log| && log[k].Starts();
    var clears := (k: nat) => k < |log| && drops[k];
    forall k: nat | k < n ensures mark(k + 1) == (sets(k) || (mark(k) && !clears(k))) {
      assert Step(views, log, k);
      StopSucceedsExactly(views, log, k);
      SettlesExactly(views, log, k);
    }
    MarkStands(mark, sets, clears, n);
    if s: nat :| StandsFrom(sets, clears, s, n) {
      forall k | s < k < n ensures !EndsExpectation(log, k) {
        assert !clears(k);
      }
      assert ExpectedSince(log, s, n);
    }
    if s: nat :| ExpectedSince(log, s, n) {
      assert StandsFrom(sets, clears, s, n);
    }
  }

  lemma AskedExactly(views: seq<View>, log: seq<Event>, n: nat)
    requires Run(views, log) && n <= |log|
    ensures views[n].capture.asked <==> exists a: nat :: AskedSince(log, a, n)
  {
    ghost var drops := seq(|log|, (k: nat) requires k < |log| => EndsRequest(log, k));
    var mark := (k: nat) => k < |views| && views[k].capture.asked;
    var sets := (k: nat) => k < |log| && log[k].StopAsked?;
    var clears := (k: nat) => k < |log| && drops[k];
    forall k: nat | k < n ensures mark(k + 1) == (sets(k) || (mark(k) && !clears(k))) {
      assert Step(views, log, k);
      StopSucceedsExactly(views, log, k);
      SettlesExactly(views, log, k);
    }
    MarkStands(mark, sets, clears, n);
    if a: nat :| StandsFrom(sets, clears, a, n) {
      forall k | a < k < n ensures !EndsRequest(log, k) {
        assert !clears(k);
      }
      assert AskedSince(log, a, n);
    }
    if a: nat :| AskedSince(log, a, n) {
      assert StandsFrom(sets, clears, a, n);
    }
  }

  /** What the history gives a client to wait for before it quits. */
  ghost predicate KeepsFromQuitting(log: seq<Event>, n: nat)
    requires n <= |log|
  {
    || (exists r: nat :: Running(log, r, n)) || (exists s: nat :: ExpectedSince(log, s, n))
    || (exists a: nat :: AskedSince(log, a, n)) || exists call :: CallCounts(log, n, call)
  }

  lemma ObligedExactly(views: seq<View>, log: seq<Event>, n: nat)
    requires Run(views, log) && n <= |log|
    ensures views[n].capture.Obliged() <==> KeepsFromQuitting(log, n)
  {
    var current := views[n].capture.call;
    RunningExactly(views, log, n);
    ExpectedExactly(views, log, n);
    AskedExactly(views, log, n);
    if current.CaptureIs? {
      CountsExactly(views, log, n, current);
    }
    if call :| CallCounts(log, n, call) {
      CountsExactly(views, log, n, call);
    }
  }

  /** What keeps a capture from being forgotten, unless a folder was refused or a start was overtaken. */
  ghost predicate Remembered(v: CaptureView) {
    && (v.starts != {} || v.refused || v.overtaken ==> v.owed)
    && (v.call.CaptureIs? ==> v.call.id in if v.call.start then v.starts else v.stops)
    && (!v.overtaken ==> forall id :: id in v.starts ==> v.call == CaptureIs(id, true))
    && (v.owed && !v.refused && !v.overtaken ==>
          && (v.running || v.asked || v.expected)
          && (v.starts != {} ==> v.asked || v.expected))
  }

  lemma RememberedNext(v: CaptureView, e: Event)
    requires Remembered(v) && (e.Stops() ==> v.asked)
    ensures Remembered(NextCapture(v, e))
  {
  }

  lemma {:induction false} AlwaysRemembered(views: seq<View>, log: seq<Event>, n: nat)
    requires Run(views, log) && n <= |log|
    ensures Remembered(views[n].capture)
  {
    if n > 0 {
      AlwaysRemembered(views, log, n - 1);
      assert Step(views, log, n - 1);
      RememberedNext(views[n - 1].capture, log[n - 1]);
    }
  }

  ghost predicate LeftBehind(log: seq<Event>, n: nat)
    requires n <= |log|
  {
    (exists r: nat :: RefusedAt(log, r, n)) || exists q: nat :: OvertakenAt(log, q, n)
  }

  /**
   When nothing keeps the client from quitting, a capture may still be running or start exactly if an unusable
   folder was chosen while one may have been running, with nothing started and no stop asked for since, or a
   start was overtaken by another capture call or a new session before its answer; and no end was shown since.
   */
  lemma LeftBehindExactly(views: seq<View>, log: seq<Event>, n: nat)
    requires Run(views, log) && n <= |log| && !views[n].capture.Obliged()
    ensures MayRun(log, n) <==> LeftBehind(log, n)
  {
    AlwaysRemembered(views, log, n);
    OwedExactly(views, log, n);
    RefusedExactly(views, log, n);
    OvertakenExactly(views, log, n);
  }

  /**
   Whenever quitting is allowed after a capture was started or seen, its end was shown in between, or one of
   these two ways led to leaving it behind.
   */
  lemma QuitsAfterEnd(views: seq<View>, log: seq<Event>, s: nat, i: nat)
    requires Run(views, log) && s < i < |log| && log[s].MayCapture() && (log[i].ShutdownGranted? || log[i].ShutdownReady?)
    ensures (exists t: nat :: s < t < i && ShowsEnd(log, t)) || LeftBehind(log, i)
  {
    assert Step(views, log, i);
    LeftBehindExactly(views, log, i);
    if !exists t: nat :: s < t < i && ShowsEnd(log, t) {
      assert MayRunSince(log, s, i);
    }
  }

  /** Quitting leaves a capture behind exactly in these two ways. */
  lemma QuitLeavesBehindExactly(views: seq<View>, log: seq<Event>, i: nat)
    requires Run(views, log) && i < |log| && (log[i].ShutdownGranted? || log[i].ShutdownReady?)
    ensures MayRun(log, i) <==> LeftBehind(log, i)
  {
    assert Step(views, log, i);
    LeftBehindExactly(views, log, i);
  }
}
