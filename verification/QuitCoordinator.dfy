/**
 Quitting from the background (src/BackgroundQuitCoordinator.cpp): a request waits until the
 controller is idle and disconnected, or until a timeout. Asking the controller to disconnect may
 announce any number of snapshots before it returns, and each of them re-enters the coordinator.
 */
module QuitCoordinator {
  /** What the coordinator sees of the controller. */
  datatype Controller = Controller(idleDisconnected: bool, disconnecting: bool)

  datatype Event = Accepted | Ready(seen: Controller) | TimedOut

  /** Requests and outcomes alternate, and readiness is announced only to an idle, disconnected controller. */
  ghost predicate Proper(log: seq<Event>) {
    forall i :: 0 <= i < |log| ==>
      (log[i].Accepted? <==> i % 2 == 0) && (log[i].Ready? ==> log[i].seen.idleDisconnected)
  }

  function Accepts(log: seq<Event>): nat {
    if log == [] then 0 else Accepts(log[..|log| - 1]) + if log[|log| - 1].Accepted? then 1 else 0
  }

  function Readies(log: seq<Event>): nat {
    if log == [] then 0 else Readies(log[..|log| - 1]) + if log[|log| - 1].Ready? then 1 else 0
  }

  function Timeouts(log: seq<Event>): nat {
    if log == [] then 0 else Timeouts(log[..|log| - 1]) + if log[|log| - 1].TimedOut? then 1 else 0
  }

  /** Every accepted request has exactly one outcome, except one that is still pending. */
  lemma {:induction false} RequestsAreConserved(log: seq<Event>)
    requires Proper(log)
    ensures Accepts(log) == Readies(log) + Timeouts(log) + |log| % 2
  {
    if log != [] {
      RequestsAreConserved(log[..|log| - 1]);
    }
  }

  class BackgroundQuitCoordinator {
    var controller: Controller
    var pending: bool
    var timerArmed: bool
    ghost var log: seq<Event>

    /** True at every moment, even while a disconnect is being asked for. */
    ghost predicate Sound()
      reads this
    {
      Proper(log) && pending == (|log| % 2 == 1) && (timerArmed ==> pending)
    }

    ghost predicate Valid()
      reads this
    {
      Sound() && pending == timerArmed
    }

    constructor (controller: Controller)
      ensures Valid() && !pending && log == [] && this.controller == controller
    {
      this.controller, pending, timerArmed, log := controller, false, false, [];
    }

    method FinishIfDisconnected()
      requires Sound()
      modifies `pending, `timerArmed, `log
      ensures Sound()
      ensures if old(pending) && controller.idleDisconnected then
                !pending && !timerArmed && log == old(log) + [Ready(controller)]
              else pending == old(pending) && timerArmed == old(timerArmed) && log == old(log)
    {
      if !pending || !controller.idleDisconnected {
        return;
      }
      timerArmed := false;
      pending := false;
      log := log + [Ready(controller)];
    }

    method OnSnapshotChanged(snapshot: Controller)
      requires Sound()
      modifies this
      ensures Sound() && controller == snapshot
      ensures old(Valid()) ==> Valid()
      ensures if old(pending) && snapshot.idleDisconnected then !pending && log == old(log) + [Ready(snapshot)]
              else pending == old(pending) && timerArmed == old(timerArmed) && log == old(log)
    {
      controller := snapshot;
      FinishIfDisconnected();
    }

    /** The controller's disconnect: the snapshots it announces before it returns, and the state it leaves. */
    method Disconnect(announced: seq<Controller>, left: Controller)
      requires Valid() && pending
      modifies this
      ensures Valid() && controller == left
      ensures if NoneIdle(announced) then pending && log == old(log)
              else !pending && exists i :: 0 <= i < |announced| && log == old(log) + [Ready(announced[i])]
    {
      for i := 0 to |announced|
        invariant Valid()
        invariant if NoneIdle(announced[..i]) then pending && log == old(log)
                  else !pending && exists j :: 0 <= j < i && log == old(log) + [Ready(announced[j])]
      {
        assert announced[..i + 1] == announced[..i] + [announced[i]];
        OnSnapshotChanged(announced[i]);
      }
      assert announced[..|announced|] == announced;
      controller := left;
    }

    static predicate NoneIdle(snapshots: seq<Controller>) {
      forall c :: c in snapshots ==> !c.idleDisconnected
    }

    method DisconnectAndQuit(announced: seq<Controller>, left: Controller)
      requires Valid()
      modifies this
      ensures Valid()
      ensures old(pending) ==> pending && log == old(log) && controller == old(controller)
      ensures !old(pending) ==> old(log) + [Accepted] <= log && |log| <= |old(log)| + 2
      ensures !old(pending) && |log| == |old(log)| + 2 ==> !pending && log[|log| - 1].Ready?
      ensures !old(pending) && old(controller).idleDisconnected ==>
                !pending && log == old(log) + [Accepted, Ready(controller)] && controller == old(controller)
      ensures !old(pending) && old(controller).disconnecting && !old(controller).idleDisconnected ==>
                pending && log == old(log) + [Accepted] && controller == old(controller)
      ensures !old(pending) && !old(controller).disconnecting && !old(controller).idleDisconnected ==>
                controller == left && (pending <==> NoneIdle(announced) && !left.idleDisconnected)
    {
      if pending {
        return;
      }
      pending := true;
      log := log + [Accepted];
      FinishIfDisconnected();
      if !pending {
        return;
      }
      timerArmed := true;
      if !controller.disconnecting {
        Disconnect(announced, left);
      }
      FinishIfDisconnected();
    }

    method OnTimeout()
      requires Valid() && timerArmed
      modifies `pending, `timerArmed, `log
      ensures Valid() && !pending && log == old(log) + [TimedOut]
    {
      timerArmed := false;
      if !pending {
        return;
      }
      pending := false;
      log := log + [TimedOut];
    }
  }

  // ---- Whole runs ----

  datatype Stimulus = QuitAsked(announced: seq<Controller>, left: Controller) | SnapshotSeen(snapshot: Controller) | TimerExpired

  /** Any run: the timer runs exactly while a request is pending, and every other request had one outcome. */
  method RunCoordinator(start: Controller, stimuli: seq<Stimulus>) returns (c: BackgroundQuitCoordinator)
    ensures fresh(c) && c.Valid()
    ensures Accepts(c.log) == Readies(c.log) + Timeouts(c.log) + if c.pending then 1 else 0
    ensures forall i :: 0 <= i < |c.log| && c.log[i].Ready? ==> c.log[i].seen.idleDisconnected
  {
    c := new BackgroundQuitCoordinator(start);
    for i := 0 to |stimuli|
      invariant fresh(c) && c.Valid()
    {
      match stimuli[i]
      case QuitAsked(announced, left) => c.DisconnectAndQuit(announced, left);
      case SnapshotSeen(snapshot) => c.OnSnapshotChanged(snapshot);
      case TimerExpired => if c.timerArmed { c.OnTimeout(); }
    }
    RequestsAreConserved(c.log);
  }
}
