/** One operation owns its reply and the reconciliation after it (src/OperationCompletion.h). */
module OperationCompletions {

  datatype Phase = Idle | AwaitingReply | Reconciling

  class OperationCompletion {
    var generation: nat
    var phase: Phase

    constructor ()
      ensures generation == 0 && phase == Idle
    {
      generation, phase := 0, Idle;
    }

    method Begin() returns (started: nat)
      modifies this
      ensures started == generation == old(generation) + 1
      ensures phase == AwaitingReply
    {
      phase := AwaitingReply;
      generation := generation + 1;
      started := generation;
    }

    method Invalidate()
      modifies this
      ensures generation == old(generation) + 1
      ensures phase == Idle
    {
      generation := generation + 1;
      phase := Idle;
    }

    method Reconcile(owner: nat)
      modifies `phase
      ensures phase == if owner == generation && old(phase) != Idle then Reconciling else old(phase)
    {
      if owner == generation && phase != Idle {
        phase := Reconciling;
      }
    }

    method Finish(owner: nat)
      modifies `phase
      ensures phase == if owner == generation then Idle else old(phase)
    {
      if owner == generation {
        phase := Idle;
      }
    }

    /** Only the current operation, after its reply, settles; a busy reading never settles it. */
    method SettleIfIdle(owner: nat, idle: bool) returns (settled: bool)
      modifies `phase
      ensures settled == (owner == generation && old(phase) == Reconciling && idle)
      ensures phase == if settled then Idle else old(phase)
    {
      if owner != generation || phase != Reconciling || !idle {
        return false;
      }
      phase := Idle;
      settled := true;
    }
  }
}
