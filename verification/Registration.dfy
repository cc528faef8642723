/**
 How the Control Center registers with its backend (src/ClientRegistrationState.h,
 src/VpnControllerLifecycle.cpp): look up the service, check who owns it, register, and try again
 with a growing delay. Every public method of Registrar is one event of the main loop.
 */
module Registration {
  datatype Started = NotStarted | Begun(generation: nat)

  datatype Completion = Stale | Failed | Registered

  class ClientRegistrationState {
    var generation: nat
    var registered: bool
    var inFlight: bool

    constructor ()
      ensures generation == 0 && !registered && !inFlight
    {
      generation, registered, inFlight := 0, false, false;
    }

    method Begin() returns (started: Started)
      modifies this
      ensures generation == old(generation) && registered == old(registered)
      ensures if old(registered || inFlight) then started.NotStarted? && inFlight == old(inFlight)
              else started == Begun(generation) && inFlight
    {
      if registered || inFlight {
        return NotStarted;
      }
      inFlight := true;
      return Begun(generation);
    }

    method Complete(stamp: nat, succeeded: bool) returns (completion: Completion)
      modifies this
      ensures generation == old(generation)
      ensures if stamp != generation then completion.Stale? && registered == old(registered) && inFlight == old(inFlight)
              else !inFlight && registered == succeeded && completion == if succeeded then Registered else Failed
    {
      if stamp != generation {
        return Stale;
      }
      inFlight := false;
      registered := succeeded;
      return if succeeded then Registered else Failed;
    }

    method ServiceChanged()
      modifies this
      ensures generation == old(generation) + 1 && !registered && !inFlight
    {
      generation := generation + 1;
      registered, inFlight := false, false;
    }
  }

  datatype Call = Lookup(backend: nat) | Identify(backend: nat) | Register(backend: nat, stamp: nat)

  datatype Answer = Accepted | Refused | Unauthorized

  datatype Waiting = Nobody | For(id: nat)

  const FIRST_DELAY := 1000
  const MAX_SHIFT := 5

  /** A shift to the left, in the source's milliseconds. */
  function Shifted(d: nat, shift: nat): nat
    decreases shift
  {
    if shift == 0 then d else Shifted(2 * d, shift - 1)
  }

  function Delay(retries: nat): nat {
    Shifted(FIRST_DELAY, if retries < MAX_SHIFT then retries else MAX_SHIFT)
  }

  lemma {:induction false} ShiftedOnce(d: nat, shift: nat)
    ensures Shifted(d, shift + 1) == 2 * Shifted(d, shift)
    decreases shift
  {
    if shift > 0 {
      ShiftedOnce(2 * d, shift - 1);
    }
  }

  /** The delay starts at one second, doubles with each retry and stays at 32 seconds. */
  lemma DelayDoubles(retries: nat)
    ensures Delay(0) == FIRST_DELAY
    ensures Delay(retries + 1) == if retries < MAX_SHIFT then 2 * Delay(retries) else Delay(retries)
    ensures FIRST_DELAY <= Delay(retries) <= 32000
    ensures retries >= MAX_SHIFT ==> Delay(retries) == 32000
  {
    if retries < MAX_SHIFT {
      ShiftedOnce(FIRST_DELAY, retries);
    }
  }

  class Registrar {
    const busNamed: bool
    const state: ClientRegistrationState
    var backend: nat
    var pinned: bool
    var lookingUp: bool
    var identifying: bool
    var rejected: bool
    var timerActive: bool
    var retries: nat
    var delay: nat
    var calls: map<nat, Call>
    var next: nat
    ghost var untrusted: bool        // the present owner was checked and not trusted
    ghost var lookup: Waiting        // the look-up or identity check that counts
    ghost var registration: Waiting  // the registration that counts

    /** A call counts if it is of the current owner and registration; at most one of each kind does. */
    ghost predicate Fits(id: nat, c: Call)
      reads `backend, `pinned, `next, `lookup, `registration, state
    {
      && id < next && c.backend <= backend
      && match c
         case Register(b, stamp) =>
           && stamp <= state.generation && (stamp == state.generation ==> b == backend && registration == For(id))
         case _ => c.backend == backend ==> lookup == For(id)
    }

    ghost predicate Tracked()
      reads `backend, `pinned, `lookingUp, `identifying, `calls, `next, `lookup, `registration, state
    {
      && (forall id :: id in calls ==> Fits(id, calls[id]))
      && (lookingUp ==> lookup.For? && lookup.id in calls && calls[lookup.id] == Lookup(backend))
      && (identifying ==> lookup.For? && lookup.id in calls && calls[lookup.id] == Identify(backend))
      && (lookup.For? ==> lookingUp || identifying)
      && state.inFlight == registration.For?
      && (registration.For? ==> registration.id in calls && calls[registration.id] == Register(backend, state.generation))
    }

    /** It keeps trying: only a rejected client, or one whose backend is not trusted, has nothing under way. */
    ghost predicate Trying()
      reads `untrusted, `lookingUp, `identifying, `rejected, `timerActive, state
    {
      state.registered || state.inFlight || lookingUp || identifying || timerActive || rejected || untrusted
    }

    /** The backend refused this client: no registration is out, and none succeeds any more. */
    predicate Stopped()
      reads `rejected, state
    {
      rejected && !state.registered && !state.inFlight
    }

    ghost predicate Sound()
      reads this, state
    {
      && Tracked() && !(lookingUp && identifying) && (pinned ==> !lookingUp && !identifying && !untrusted)
      && (state.registered || state.inFlight ==> pinned) && !(state.registered && state.inFlight)
    }

    ghost predicate Valid()
      reads this, state
    {
      Sound() && Trying()
    }

    constructor (busNamed: bool)
      ensures Valid() && fresh(state) && this.busNamed == busNamed && !rejected && !state.registered
    {
      this.busNamed := busNamed;
      state := new ClientRegistrationState();
      backend, pinned, untrusted, lookingUp, identifying, rejected := 0, false, false, false, false, false;
      timerActive, retries, delay := false, 0, 0;
      calls, next := map[], 0;
      lookup, registration := Nobody, Nobody;
      new;
      RegisterClient();
    }

    method ScheduleRetry()
      requires Sound()
      modifies `timerActive, `retries, `delay
      ensures Valid()
      ensures if old(rejected || state.registered || state.inFlight || timerActive) then
                timerActive == old(timerActive) && retries == old(retries) && delay == old(delay)
              else timerActive && retries == old(retries) + 1 && delay == Delay(old(retries))
    {
      if rejected || state.registered || state.inFlight || timerActive {
        return;
      }
      delay := Delay(retries);
      retries := retries + 1;
      timerActive := true;
    }

    method RegisterClient()
      requires Sound()
      modifies `lookingUp, `lookup, `registration, `calls, `next, `timerActive, `retries, `delay, state
      ensures Valid() && state.registered == old(state.registered) && state.generation == old(state.generation)
      ensures !rejected && !old(state.registered || state.inFlight) && pinned && busNamed ==>
                state.inFlight && calls == old(calls)[old(next) := Register(backend, state.generation)]
      ensures rejected || old(state.registered || state.inFlight) ==> calls == old(calls) && state.inFlight == old(state.inFlight)
      ensures !rejected && !old(state.registered || state.inFlight) && pinned && !busNamed ==>
                !state.inFlight && timerActive && calls == old(calls)
      ensures !rejected && !pinned ==>
                calls == if old(lookingUp || identifying) then old(calls) else old(calls)[old(next) := Lookup(backend)]
      ensures !rejected && !pinned && !identifying ==> lookingUp
      ensures rejected || !pinned || busNamed || old(state.registered || state.inFlight) ==> timerActive == old(timerActive)
    {
      if rejected {
        return;
      }
      if !pinned {
        if lookingUp || identifying {
          return;
        }
        lookingUp, lookup := true, For(next);
        calls, next := calls[next := Lookup(backend)], next + 1;
        return;
      }
      var started := state.Begin();
      if started.NotStarted? {
        return;
      }
      if !busNamed {
        var _ := state.Complete(started.generation, false);
        ScheduleRetry();
        return;
      }
      registration := For(next);
      calls, next := calls[next := Register(backend, started.generation)], next + 1;
    }

    method OnServiceRegistered()
      requires Sound()
      modifies this, state
      ensures old(Stopped()) ==> Stopped()
      ensures Valid() && identifying && !pinned && backend == old(backend) + 1 && rejected == old(rejected)
      ensures !untrusted && !timerActive && !lookingUp && calls == old(calls)[old(next) := Identify(backend)]
    {
      pinned, untrusted, lookingUp, identifying := false, false, false, true;
      backend := backend + 1;
      state.ServiceChanged();
      registration, timerActive := Nobody, false;
      lookup := For(next);
      calls, next := calls[next := Identify(backend)], next + 1;
    }

    method OnServiceUnregistered()
      requires Valid()
      modifies this, state
      ensures old(Stopped()) ==> Stopped()
      ensures Valid() && !pinned && backend == old(backend) + 1 && rejected == old(rejected) && (timerActive || rejected)
      ensures !untrusted && !lookingUp && !identifying && !state.registered && !state.inFlight
    {
      LoseOwner();
      ScheduleRetry();
    }

    /** Whatever was asked for or about the owner no longer counts. */
    method LoseOwner()
      requires Valid()
      modifies `pinned, `untrusted, `lookingUp, `identifying, `backend, `registration, `lookup, state
      ensures Sound() && !pinned && backend == old(backend) + 1
      ensures !state.registered && !state.inFlight
      ensures !untrusted && !lookingUp && !identifying
    {
      pinned, untrusted, lookingUp, identifying := false, false, false, false;
      backend := backend + 1;
      state.ServiceChanged();
      registration, lookup := Nobody, Nobody;
    }

    method OnLookup(id: nat, present: bool)
      requires Valid() && id in calls && calls[id].Lookup?
      modifies this, state
      ensures old(Stopped()) ==> Stopped()
      ensures Valid() && rejected == old(rejected)
      ensures old(calls[id].backend) == old(backend) ==> if present then identifying else !lookingUp && (timerActive || rejected)
      ensures old(calls[id].backend) != old(backend) ==> calls == old(calls) - {id} && lookingUp == old(lookingUp)
      ensures backend == old(backend) + if present && old(calls[id].backend) == old(backend) then 1 else 0
    {
      var c := calls[id];
      if c.backend != backend {
        calls := calls - {id};
        return;
      }
      calls, lookingUp, lookup := calls - {id}, false, Nobody;
      if present {
        OnServiceRegistered();
      } else {
        ScheduleRetry();
      }
    }

    method OnIdentity(id: nat, trusted: bool)
      requires Valid() && id in calls && calls[id].Identify?
      modifies `pinned, `untrusted, `lookingUp, `identifying, `lookup, `registration, `calls, `next, `timerActive, `retries, `delay, state
      ensures old(Stopped()) ==> Stopped()
      ensures Valid()
      ensures old(calls[id].backend) == backend ==> pinned == trusted && untrusted == !trusted && !identifying
      ensures old(calls[id].backend) == backend && trusted && busNamed && !rejected ==> state.inFlight
    {
      var c := calls[id];
      calls := calls - {id};
      if c.backend != backend {
        return;
      }
      identifying, lookup := false, Nobody;
      untrusted := !trusted;
      if !trusted {
        return;
      }
      pinned := true;
      RegisterClient();
    }

    method OnReply(id: nat, answer: Answer)
      requires Valid() && id in calls && calls[id].Register?
      modifies `registration, `calls, `timerActive, `retries, `delay, `rejected, state
      ensures old(Stopped()) ==> Stopped()
      ensures Valid()
      ensures var c := old(calls[id]);
              if c.backend != backend || c.stamp != state.generation then
                state.registered == old(state.registered) && state.inFlight == old(state.inFlight) && rejected == old(rejected)
              else
                && state.registered == answer.Accepted? && !state.inFlight
                && rejected == (if answer.Accepted? then false else old(rejected) || answer.Unauthorized?)
                && (answer.Refused? ==> timerActive || rejected)
      ensures calls == old(calls) - {id}
      ensures old(calls[id].backend) == backend && old(calls[id].stamp) == state.generation && answer.Accepted? ==> !timerActive && retries == 0
    {
      var c := calls[id];
      calls := calls - {id};
      if c.backend != backend {
        return;
      }
      var completion := state.Complete(c.stamp, answer.Accepted?);
      if completion.Stale? {
        return;
      }
      registration := Nobody;
      if completion.Failed? {
        if answer.Unauthorized? {
          rejected := true;
          return;
        }
        ScheduleRetry();
        return;
      }
      rejected, timerActive, retries := false, false, 0;
    }

    method OnTimer()
      requires Valid() && timerActive
      modifies `timerActive, `lookingUp, `lookup, `registration, `calls, `next, `retries, `delay, state
      ensures old(Stopped()) ==> Stopped()
      ensures Valid() && state.registered == old(state.registered)
      ensures !rejected && pinned && busNamed ==> state.registered || state.inFlight
      ensures rejected || state.registered || old(state.inFlight) || (!pinned && (old(lookingUp) || old(identifying))) ==> !timerActive
    {
      timerActive := false;
      RegisterClient();
    }
  }

  /** One registration is out exactly while one is in flight, and none is once it succeeded. */
  lemma RegistrationIsExact(r: Registrar)
    requires r.Valid()
    ensures var out := set id | id in r.calls && r.calls[id].Register? && r.calls[id].stamp == r.state.generation;
            |out| == if r.state.inFlight then 1 else 0
    ensures r.state.registered ==> !r.state.inFlight && r.pinned
  {
    var out := set id | id in r.calls && r.calls[id].Register? && r.calls[id].stamp == r.state.generation;
    if r.state.inFlight {
      assert out == {r.registration.id};
    } else {
      assert out == {};
    }
  }

  // ---- Whole runs ----

  datatype Stimulus =
    | OwnerAppeared
    | OwnerVanished
    | LookedUp(id: nat, present: bool)
    | Identified(id: nat, trusted: bool)
    | Replied(id: nat, answer: Answer)
    | TimerExpired

  /** The time of one owner, or of none; whether its identity is being asked for. */
  datatype Era = Era(number: nat, identifying: bool)

  /** Each owner that appears or vanishes starts a new era, and so may a look-up that finds one; nothing else does. */
  predicate Meets(s: Stimulus, before: Era, after: Era) {
    match s
    case OwnerAppeared => after == Era(before.number + 1, true)
    case OwnerVanished => after == Era(before.number + 1, false)
    case LookedUp(_, present) => after.number == before.number || (present && after == Era(before.number + 1, true))
    case _ => after.number == before.number
  }

  /** Events that cannot happen in the current state are skipped; a refused client never registers again. */
  method React(r: Registrar, s: Stimulus)
    requires r.Valid()
    modifies r, r.state
    ensures r.Valid() && Meets(s, old(Era(r.backend, r.identifying)), Era(r.backend, r.identifying))
    ensures old(r.Stopped()) ==> r.Stopped()
  {
    match s
    case OwnerAppeared => r.OnServiceRegistered();
    case OwnerVanished => r.OnServiceUnregistered();
    case LookedUp(id, present) => if id in r.calls && r.calls[id].Lookup? { r.OnLookup(id, present); }
    case Identified(id, trusted) => if id in r.calls && r.calls[id].Identify? { r.OnIdentity(id, trusted); }
    case Replied(id, answer) => if id in r.calls && r.calls[id].Register? { r.OnReply(id, answer); }
    case TimerExpired => if r.timerActive { r.OnTimer(); }
  }

  /** Any run keeps trying; stopped says after how many events the backend had refused this client, for good. */
  method RunRegistrar(busNamed: bool, stimuli: seq<Stimulus>) returns (r: Registrar, ghost stopped: seq<bool>, ghost eras: seq<Era>)
    ensures fresh(r) && fresh(r.state) && r.Valid()
    ensures |eras| == |stimuli| + 1 && eras[|stimuli|] == Era(r.backend, r.identifying) && forall i: nat :: i < |stimuli| ==> Meets(stimuli[i], eras[i], eras[i + 1])
    ensures |stopped| == |stimuli| + 1 && stopped[|stimuli|] == r.Stopped()
    ensures forall i, j :: 0 <= i < j < |stopped| && stopped[i] ==> stopped[j]
  {
    r := new Registrar(busNamed);
    stopped, eras := [r.Stopped()], [Era(r.backend, r.identifying)];
    for i := 0 to |stimuli|
      invariant fresh(r) && fresh(r.state) && r.Valid()
      invariant |stopped| == i + 1 && stopped[i] == r.Stopped() && |eras| == i + 1 && eras[i] == Era(r.backend, r.identifying)
      invariant forall j: nat :: j < i ==> Meets(stimuli[j], eras[j], eras[j + 1])
      invariant forall j, k :: 0 <= j < k < |stopped| && stopped[j] ==> stopped[k]
    {
      React(r, stimuli[i]);
      stopped, eras := stopped + [r.Stopped()], eras + [Era(r.backend, r.identifying)];
    }
  }
}
