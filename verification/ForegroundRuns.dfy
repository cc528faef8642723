/**
 Whole runs of the foreground controller: any events, in any order, with any replies.
 */
module ForegroundRuns {
  import opened ForegroundProtocol
  import opened Histories
  import F = Foreground

  datatype Stimulus =
    | ConnectAsked
    | DisconnectAsked
    | PrimaryAsked
    | SecretAsked(updateBusy: bool)
    | AccountAsked(signOut: bool)
    | ControlAsked
    | CaptureAsked(directory: string)
    | CaptureStopAsked
    | ShutdownAsked
    | Answered(id: nat, outcome: F.Outcome)
    | KeyAnswered(id: nat, outcome: F.Outcome, protected: bool)
    | ReadAnswered(id: nat, read: F.ReadOutcome)
    | SnapshotSignalled(payload: F.Payload)
    | TimerExpired
    | RegistrationAnswered(backend: nat, accepted: bool)
    | OwnerAppeared
    | OwnerTrusted
    | OwnerVanished

  /** At most one refresh is given up in one event, and then its read strays. */
  ghost predicate GivesUpOnce(before: nat, f: F.ForegroundController)
    reads f
  {
    f.readers.givenUp == before || (f.readers.givenUp == before + 1 && !f.ReadsExact())
  }

  /** What an event adds to the history at once, given the calls it finds; the rest depends on the state. */
  predicate Heard(s: Stimulus, calls: map<nat, F.Call>, added: seq<Event>) {
    match s
    case ConnectAsked => added == [] || Begins(added, Connected)
    case DisconnectAsked => added == [] || Begins(added, Disconnected)
    case PrimaryAsked => added == [] || Begins(added, Connected) || Begins(added, Disconnected)
    case CaptureAsked(directory) =>
      || added == []
      || (!F.ForegroundController.UsableFolder(directory) && added == [FolderRefused])
      || (F.ForegroundController.UsableFolder(directory) && |added| == 2 && added[0] == OperationBegan
          && added[1].Sent? && added[1].purpose == ForCapture(true))
    case CaptureStopAsked => added != [] ==> added[0] == StopAsked
    case ShutdownAsked => added != [] ==> added[0].ShutdownGranted? || added[0].ShutdownDeferred? || added[0].StopAsked?
    case Answered(id, outcome) =>
      id in calls && !calls[id].Read? && !calls[id].Key? ==> |added| > 0 && added[0] == Replied(id, outcome.Answer())
    case KeyAnswered(id, outcome, _) => id in calls && calls[id].Key? ==> |added| > 0 && added[0] == Replied(id, outcome.Answer())
    case SnapshotSignalled(payload) => payload.Usable? && added != [] ==> added[0].SnapshotAdopted? && added[0].source == FromSignal
    case ReadAnswered(id, _) => added != [] ==> added[0].SnapshotAdopted? && added[0].source == FromRead(id)
    case OwnerVanished => |added| > 0 && added[0] == OwnerGone
    case OwnerAppeared => added == []
    case OwnerTrusted => added == []
    case _ => forall e :: e in added ==> e.OperationBegan? || e.Sent?
  }

  /** What an event tells of the owner at once. */
  predicate Told(s: Stimulus, was: F.Link, now: F.Link) {
    match s
    case RegistrationAnswered(backend, accepted) =>
      && now.backend == was.backend
      && if backend == was.backend && was.pinned then now.available == accepted else accepted ==> now == was
    case OwnerAppeared =>
      now == if was.pinned then was else was.(backend := was.backend + 1, available := false, healthy := true)
    case OwnerTrusted => now == was.(pinned := true)
    case OwnerVanished => !now.pinned && !now.available && !now.loggedIn && now.backend == was.backend + 1
    case Answered(_, _) | ReadAnswered(_, _) | SnapshotSignalled(_) => true
    case _ => now == was
  }

  predicate Begins(added: seq<Event>, target: Target) {
    |added| == 3 && added[0] == OperationBegan && added[1].ConnectionStarted? && added[1].target == target && added[2].Sent?
  }

  ghost function Since(f: F.ForegroundController, before: seq<Event>): seq<Event>
    requires before <= f.trace.log
    reads f
  {
    f.trace.log[|before|..]
  }

  /** Events that cannot happen in the current state, such as an answer to no call, are skipped. */
  method React(f: F.ForegroundController, s: Stimulus)
    requires f.Valid()
    modifies f
    ensures f.Valid() && GivesUpOnce(old(f.readers.givenUp), f)
    ensures old(f.trace.log) <= f.trace.log && Heard(s, old(f.bus.calls), Since(f, old(f.trace.log)))
    ensures Told(s, old(f.link), f.link)
  {
    hide F.ForegroundController.Sound;
    match s
    case ConnectAsked | DisconnectAsked | PrimaryAsked => Operate(f, s);
    case SecretAsked(_) | AccountAsked(_) | ControlAsked => Manage(f, s);
    case CaptureAsked(_) | CaptureStopAsked | ShutdownAsked => Capture(f, s);
    case TimerExpired => Expire(f);
    case RegistrationAnswered(_, _) | OwnerAppeared | OwnerTrusted | OwnerVanished => Observe(f, s);
    case Answered(_, _) | KeyAnswered(_, _, _) => Hear(f, s);
    case ReadAnswered(_, _) | SnapshotSignalled(_) => See(f, s);
  }

  method Operate(f: F.ForegroundController, s: Stimulus)
    requires f.Valid()
    requires s.ConnectAsked? || s.DisconnectAsked? || s.PrimaryAsked?
    modifies f
    ensures f.Valid() && GivesUpOnce(old(f.readers.givenUp), f)
    ensures old(f.trace.log) <= f.trace.log && Heard(s, old(f.bus.calls), Since(f, old(f.trace.log)))
    ensures f.link == old(f.link)
  {
    hide F.ForegroundController.Sound, F.ForegroundController.ReadsExact;
    match s
    case ConnectAsked => f.ConnectTarget();
    case DisconnectAsked => f.Disconnect();
    case PrimaryAsked => f.ActivatePrimaryAction();
  }

  method Manage(f: F.ForegroundController, s: Stimulus)
    requires f.Valid() && (s.SecretAsked? || s.AccountAsked? || s.ControlAsked?)
    modifies f
    ensures f.Valid() && GivesUpOnce(old(f.readers.givenUp), f)
    ensures old(f.trace.log) <= f.trace.log && Heard(s, old(f.bus.calls), Since(f, old(f.trace.log)))
    ensures f.link == old(f.link)
  {
    hide F.ForegroundController.Sound, F.ForegroundController.ReadsExact;
    match s
    case SecretAsked(updateBusy) => f.SubmitSecret(updateBusy);
    case AccountAsked(signOut) => f.CallAccount(if signOut then F.LogOut else F.Account);
    case ControlAsked => f.CallControl();
  }

  method Capture(f: F.ForegroundController, s: Stimulus)
    requires f.Valid() && (s.CaptureAsked? || s.CaptureStopAsked? || s.ShutdownAsked?)
    modifies f
    ensures f.Valid() && GivesUpOnce(old(f.readers.givenUp), f)
    ensures old(f.trace.log) <= f.trace.log && Heard(s, old(f.bus.calls), Since(f, old(f.trace.log)))
    ensures f.link == old(f.link)
  {
    hide F.ForegroundController.Sound;
    match s
    case CaptureAsked(directory) => f.StartPacketCapture(directory);
    case CaptureStopAsked => f.StopPacketCapture();
    case ShutdownAsked => var _ := f.RequestShutdown();
  }

  method Hear(f: F.ForegroundController, s: Stimulus)
    requires f.Valid()
    requires s.Answered? || s.KeyAnswered?
    modifies f
    ensures f.Valid() && GivesUpOnce(old(f.readers.givenUp), f)
    ensures old(f.trace.log) <= f.trace.log && Heard(s, old(f.bus.calls), Since(f, old(f.trace.log)))
    ensures Told(s, old(f.link), f.link)
  {
    hide F.ForegroundController.Sound, F.ForegroundController.FailedWith, F.ForegroundController.CaptureAnswered,
         F.ForegroundController.ControlFailed, F.ForegroundController.Taken;
    match s
    case Answered(id, outcome) => if id in f.bus.calls { Answer(f, id, outcome); }
    case KeyAnswered(id, outcome, protected) => if id in f.bus.calls && f.bus.calls[id].Key? { f.OnKeyReply(id, outcome, protected); }
  }

  /** The owner's state was read or signalled. */
  method See(f: F.ForegroundController, s: Stimulus)
    requires f.Valid() && (s.ReadAnswered? || s.SnapshotSignalled?)
    modifies f
    ensures f.Valid() && GivesUpOnce(old(f.readers.givenUp), f)
    ensures old(f.trace.log) <= f.trace.log && Heard(s, old(f.bus.calls), Since(f, old(f.trace.log)))
  {
    hide F.ForegroundController.Sound, F.ForegroundController.Taken;
    match s
    case ReadAnswered(id, read) => if id in f.bus.calls && f.bus.calls[id].Read? { f.OnSnapshotReply(id, read); }
    case SnapshotSignalled(payload) => if f.link.pinned { f.OnSnapshotSignal(payload); }
  }

  method Expire(f: F.ForegroundController)
    requires f.Valid()
    modifies f
    ensures f.Valid() && GivesUpOnce(old(f.readers.givenUp), f) && f.link == old(f.link)
    ensures old(f.trace.log) <= f.trace.log && forall e :: e in Since(f, old(f.trace.log)) ==> e.Sent?
  {
    hide F.ForegroundController.Sound, F.ForegroundController.ReadsExact;
    if f.reading.armed {
      f.OnRetryTimer();
    }
  }

  /** What is heard of the owner. */
  method Observe(f: F.ForegroundController, s: Stimulus)
    requires f.Valid()
    requires s.RegistrationAnswered? || s.OwnerAppeared? || s.OwnerTrusted? || s.OwnerVanished?
    modifies f
    ensures f.Valid() && GivesUpOnce(old(f.readers.givenUp), f)
    ensures old(f.trace.log) <= f.trace.log && Heard(s, old(f.bus.calls), Since(f, old(f.trace.log)))
    ensures Told(s, old(f.link), f.link)
  {
    hide F.ForegroundController.Sound, F.ForegroundController.ReadsExact;
    match s
    case RegistrationAnswered(backend, accepted) => AnswerRegistration(f, backend, accepted);
    case OwnerAppeared => if !f.link.pinned { f.OnServiceRegistered(); }
    case OwnerTrusted => f.PinOwner();
    case OwnerVanished => f.OnServiceUnregistered();
  }

  method AnswerRegistration(f: F.ForegroundController, backend: nat, accepted: bool)
    requires f.Valid()
    modifies f
    ensures f.Valid() && GivesUpOnce(old(f.readers.givenUp), f) && old(f.trace.log) <= f.trace.log
    ensures Told(RegistrationAnswered(backend, accepted), old(f.link), f.link)
    ensures forall e :: e in Since(f, old(f.trace.log)) ==> e.Sent?
  {
    hide F.ForegroundController.Sound, F.ForegroundController.ReadsExact;
    if accepted && backend <= f.link.backend && f.link.pinned {
      f.OnRegistered(backend);
    } else if !accepted {
      f.OnRegistrationRejected(backend);
    }
  }

  method Answer(f: F.ForegroundController, id: nat, outcome: F.Outcome)
    requires f.Valid() && id in f.bus.calls
    modifies f
    ensures f.Valid() && GivesUpOnce(old(f.readers.givenUp), f) && old(f.trace.log) <= f.trace.log
    ensures !old(f.bus.calls[id].Read?) && !old(f.bus.calls[id].Key?) ==>
              |Since(f, old(f.trace.log))| > 0 && Since(f, old(f.trace.log))[0] == Replied(id, outcome.Answer())
  {
    hide F.ForegroundController.Sound, F.ForegroundController.FailedWith, F.ForegroundController.CaptureAnswered,
         F.ForegroundController.ControlFailed, F.ForegroundController.Taken;
    match f.bus.calls[id]
    case Operation(_, Connection(_, _)) => f.OnConnectReply(id, outcome);
    case Operation(_, CaptureOp(_, _)) => f.OnCaptureReply(id, outcome);
    case Operation(_, _) => f.OnAccountReply(id, outcome);
    case Control(_, _, _) => f.OnControlReply(id, outcome);
    case _ =>
  }

  /** What is asked of the reads at one moment. */
  datatype Reads = Reads(givenUp: nat, exact: bool)

  ghost function Glance(f: F.ForegroundController): Reads
    reads f
  {
    Reads(f.readers.givenUp, f.ReadsExact())
  }

  /** Two moments between which one event happened. */
  ghost predicate Moves(moments: seq<Reads>, i: nat)
    requires i + 1 < |moments|
  {
    var (before, after) := (moments[i], moments[i + 1]);
    after.givenUp == before.givenUp || (after.givenUp == before.givenUp + 1 && !after.exact)
  }

  ghost predicate Course(moments: seq<Reads>) {
    && |moments| > 0 && moments[0].givenUp == 0
    && (forall i :: 0 <= i < |moments| && moments[i].givenUp == 0 ==> moments[i].exact)
    && forall i: nat {:trigger Moves(moments, i)} :: i + 1 < |moments| ==> Moves(moments, i)
  }

  /** Reads stay exact up to a moment exactly as long as no pending refresh was given up. */
  lemma {:induction false} ExactUntilGivenUp(moments: seq<Reads>, n: nat)
    requires Course(moments) && n < |moments|
    ensures (forall i :: 0 <= i <= n ==> moments[i].exact) <==> moments[n].givenUp == 0
  {
    if n > 0 {
      ExactUntilGivenUp(moments, n - 1);
      assert Moves(moments, n - 1);
    }
  }

  lemma Lengthen(moments: seq<Reads>, m: Reads)
    requires Course(moments) && (m.givenUp == 0 ==> m.exact) && Moves([moments[|moments| - 1], m], 0)
    ensures Course(moments + [m])
  {
    forall i: nat | i + 1 < |moments + [m]| ensures Moves(moments + [m], i) {
      if i + 1 < |moments| {
        assert Moves(moments, i);
      }
    }
  }

  /** Every event left its part of the history, one after the other, given the calls it found in flight. */
  ghost predicate AllHeard(stimuli: seq<Stimulus>, found: seq<map<nat, F.Call>>, marks: seq<nat>, log: seq<Event>) {
    && Chaptered(marks, log) && |marks| == |stimuli| + 1 && |found| == |stimuli|
    && forall i: nat :: i < |stimuli| ==> Heard(stimuli[i], found[i], Chapter(marks, log, i))
  }

  lemma HearMore(stimuli: seq<Stimulus>, found: seq<map<nat, F.Call>>, marks: seq<nat>, log: seq<Event>,
                 s: Stimulus, calls: map<nat, F.Call>, longer: seq<Event>)
    requires AllHeard(stimuli, found, marks, log) && log <= longer && Heard(s, calls, longer[|log|..])
    ensures AllHeard(stimuli + [s], found + [calls], marks + [|longer|], longer)
  {
    AddChapter(marks, log, longer);
  }

  ghost predicate AllTold(stimuli: seq<Stimulus>, links: seq<F.Link>) {
    |links| == |stimuli| + 1 && forall i: nat :: i < |stimuli| ==> Told(stimuli[i], links[i], links[i + 1])
  }

  lemma TellMore(stimuli: seq<Stimulus>, links: seq<F.Link>, s: Stimulus, link: F.Link)
    requires AllTold(stimuli, links) && Told(s, links[|stimuli|], link)
    ensures AllTold(stimuli + [s], links + [link])
  {
  }

  method Drive(stimuli: seq<Stimulus>)
      returns (f: F.ForegroundController, ghost moments: seq<Reads>, ghost found: seq<map<nat, F.Call>>, ghost marks: seq<nat>,
               ghost links: seq<F.Link>)
    ensures fresh(f) && f.Valid()
    ensures |moments| == |stimuli| + 1 && moments[|stimuli|] == Glance(f) && Course(moments)
    ensures AllHeard(stimuli, found, marks, f.trace.log)
    ensures AllTold(stimuli, links)
  {
    hide Told, Heard;
    f := new F.ForegroundController();
    moments, found, marks, links := [Glance(f)], [], [0], [f.link];
    for i := 0 to |stimuli|
      invariant fresh(f) && f.Valid()
      invariant |moments| == i + 1 && moments[i] == Glance(f) && Course(moments)
      invariant AllHeard(stimuli[..i], found, marks, f.trace.log)
      invariant AllTold(stimuli[..i], links) && |links| == i + 1 && links[i] == f.link
    {
      ghost var (calls, before) := (f.bus.calls, f.trace.log);
      React(f, stimuli[i]);
      Lengthen(moments, Glance(f));
      HearMore(stimuli[..i], found, marks, before, stimuli[i], calls, f.trace.log);
      TellMore(stimuli[..i], links, stimuli[i], f.link);
      assert stimuli[..i + 1] == stimuli[..i] + [stimuli[i]];
      moments, links := moments + [Glance(f)], links + [f.link];
      found, marks := found + [calls], marks + [|f.trace.log|];
    }
    assert stimuli[..|stimuli|] == stimuli;
  }

  /**
   Any run: every outcome is the first since the most recent start, names it, and succeeds only by its own
   reply, and no operation has two; a wait ends by a fresh read and an idle snapshot; quitting is allowed only
   when the history gives nothing to wait for, and then leaves a capture behind exactly if an unusable folder was
   chosen during it or a start was overtaken before its answer; and reads are exact all along exactly if no
   pending refresh was given up.
   */
  method RunController(stimuli: seq<Stimulus>)
      returns (f: F.ForegroundController, ghost moments: seq<Reads>, ghost found: seq<map<nat, F.Call>>, ghost marks: seq<nat>,
               ghost links: seq<F.Link>)
    ensures fresh(f) && f.Valid() && AllHeard(stimuli, found, marks, f.trace.log)
    ensures AllTold(stimuli, links)
    ensures OutcomesHold(f.trace.log) && WaitsHold(f.trace.log) && QuitsHold(f.trace.log)
    ensures |moments| == |stimuli| + 1 && moments[|stimuli|] == Glance(f)
    ensures (forall i :: 0 <= i <= |stimuli| ==> moments[i].exact) <==> f.readers.givenUp == 0
  {
    f, moments, found, marks, links := Drive(stimuli);
    HistoryHolds(f.trace.views, f.trace.log);
    ExactUntilGivenUp(moments, |stimuli|);
  }

  ghost predicate LatestStart(log: seq<Event>, s: nat, i: nat)
    requires i < |log| && log[i].ConnectionFinished?
  {
    && s < i && log[s] == ConnectionStarted(log[i].connection, log[i].target)
    && (forall k :: s < k < i ==> !log[k].ConnectionStarted? && !log[k].ConnectionFinished?)
    && (log[i].acknowledged ==>
          exists c, id :: s < c < i - 1 && log[c] == Sent(id, ForConnection) && log[i - 1] == Replied(id, Success))
  }

  ghost predicate OutcomesHold(log: seq<Event>) {
    && (forall i :: 0 <= i < |log| && log[i].ConnectionFinished? ==> exists s :: LatestStart(log, s, i))
    && forall i, j :: 0 <= i < j < |log| && log[i].ConnectionFinished? && log[j].ConnectionFinished? ==>
                        log[i].connection < log[j].connection
  }

  ghost predicate FreshWait(log: seq<Event>, o: nat, i: nat) {
    && o < i <= |log| && log[o] == ReconciliationOpened && FreshRead(log, o, i)
    && log[i - 1].SnapshotAdopted? && !log[i - 1].busy
  }

  /** The event just before is an answer that did not come in time. */
  ghost predicate TimedOutBefore(log: seq<Event>, i: nat) {
    0 < i <= |log| && log[i - 1].Replied? && log[i - 1].answer == Failure(NoAnswer)
  }

  ghost predicate WaitsHold(log: seq<Event>) {
    && (forall i :: 0 <= i < |log| && log[i].Reconciled? ==> exists o :: FreshWait(log, o, i))
    && forall i :: 0 <= i < |log| && log[i].ReconciliationOpened? ==> TimedOutBefore(log, i)
  }

  /** Quitting was allowed only with nothing to wait for, and left a capture behind exactly in the two ways known. */
  ghost predicate QuitsHold(log: seq<Event>) {
    forall i: nat :: i < |log| && (log[i].ShutdownGranted? || log[i].ShutdownReady?) ==> QuitHolds(log, i)
  }

  ghost predicate QuitHolds(log: seq<Event>, i: nat)
    requires i <= |log|
  {
    !KeepsFromQuitting(log, i) && (MayRun(log, i) <==> LeftBehind(log, i))
  }

  lemma HistoryHolds(views: seq<View>, log: seq<Event>)
    requires Run(views, log)
    ensures OutcomesHold(log) && WaitsHold(log) && QuitsHold(log)
  {
    forall i | 0 <= i < |log| && log[i].ConnectionFinished? ensures exists s :: LatestStart(log, s, i) {
      var s := OutcomeNamesLatestOperation(views, log, i);
      assert LatestStart(log, s, i);
    }
    forall i, j | 0 <= i < j < |log| && log[i].ConnectionFinished? && log[j].ConnectionFinished?
      ensures log[i].connection < log[j].connection
    {
      AtMostOneOutcome(views, log, i, j);
    }
    forall i | 0 <= i < |log| && log[i].Reconciled? ensures exists o :: FreshWait(log, o, i) {
      var o := ReconciliationNeedsFreshRead(views, log, i);
      assert FreshWait(log, o, i);
    }
    forall i | 0 <= i < |log| && log[i].ReconciliationOpened? ensures TimedOutBefore(log, i) {
      WaitsAfterTimeout(views, log, i);
    }
    forall i: nat | i < |log| && (log[i].ShutdownGranted? || log[i].ShutdownReady?) ensures QuitHolds(log, i) {
      assert Step(views, log, i);
      ObligedExactly(views, log, i);
      QuitLeavesBehindExactly(views, log, i);
    }
  }
}
