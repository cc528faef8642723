/**
 What a settings projection may do on the bus, as a monitor over its history, and what every
 accepted history guarantees (src/SettingsRequestState.h, src/VpnControllerSettings.cpp).
 */
module SettingsProtocol {
  datatype Event =
    | UpdateRequested(patch: string)
    | ReadSent(id: nat)
    | WriteSent(id: nat, patch: string)
    | ReadFinished(id: nat, applied: bool)
    | WriteFinished(id: nat, answer: WriteAnswer)
    | SessionEnded

  /** How a write was answered: TimedOut and Garbled do not say whether it happened. */
  datatype WriteAnswer = Done | Declined | TimedOut | Garbled {
    predicate Unknown() {
      TimedOut? || Garbled?
    }
  }

  datatype Live = Nothing | Reading(id: nat) | Writing(id: nat)
  datatype Asked = NotAsked | AskedFor(patch: string)

  /** closed: a write of unknown outcome has not been followed by a successful read yet. */
  datatype View = View(next: nat, live: Live, closed: bool, unconfirmed: bool, asked: Asked)

  const START := View(0, Nothing, false, false, NotAsked)

  function Next(v: View, e: Event): View {
    var w := v.(asked := NotAsked);
    match e
    case UpdateRequested(patch) => w.(asked := AskedFor(patch))
    case ReadSent(id) => w.(next := id + 1, live := Reading(id))
    case WriteSent(id, _) => w.(next := id + 1, live := Writing(id), unconfirmed := false)
    case ReadFinished(_, applied) => w.(live := Nothing, closed := v.closed && !applied)
    case WriteFinished(_, answer) => w.(live := Nothing, closed := answer.Unknown(), unconfirmed := answer.Unknown())
    case SessionEnded => w.(live := Nothing, closed := false, unconfirmed := false)
  }

  /** One request at a time; a write only for the update just asked for, and only while the gate is open. */
  predicate Allowed(v: View, e: Event) {
    match e
    case ReadSent(id) => v.next <= id && v.live.Nothing?
    case WriteSent(id, patch) => v.next <= id && v.live.Nothing? && !v.closed && v.asked == AskedFor(patch)
    case ReadFinished(id, _) => v.live == Reading(id)
    case WriteFinished(id, _) => v.live == Writing(id)
    case _ => true
  }

  ghost predicate Step(views: seq<View>, log: seq<Event>, i: nat)
    requires |views| == |log| + 1 && i < |log|
  {
    Allowed(views[i], log[i]) && views[i + 1] == Next(views[i], log[i])
  }

  ghost predicate Run(views: seq<View>, log: seq<Event>) {
    && |views| == |log| + 1
    && views[0] == START
    && forall i: nat {:trigger Step(views, log, i)} :: i < |log| ==> Step(views, log, i)
  }

  lemma Extend(views: seq<View>, log: seq<Event>, e: Event)
    requires Run(views, log) && Allowed(views[|log|], e)
    ensures Run(views + [Next(views[|log|], e)], log + [e])
  {
    var longerViews, longerLog := views + [Next(views[|log|], e)], log + [e];
    forall i: nat | i < |longerLog|
      ensures Step(longerViews, longerLog, i)
    {
      if i < |log| {
        assert Step(views, log, i);
      }
    }
  }

  // ---- What accepted histories guarantee ----

  /** A write is never replayed: the event just before each one is the user's request for exactly that write. */
  lemma EachWriteWasJustAskedFor(views: seq<View>, log: seq<Event>, i: nat)
    requires Run(views, log) && i < |log| && log[i].WriteSent?
    ensures i > 0 && log[i - 1] == UpdateRequested(log[i].patch)
  {
    assert Step(views, log, i);
    if i > 0 {
      assert Step(views, log, i - 1);
    }
  }

  predicate Ends(e: Event, id: nat) {
    e.SessionEnded? || e == ReadFinished(id, true) || e == ReadFinished(id, false)
    || (e.WriteFinished? && e.id == id)
  }

  predicate Sends(e: Event) {
    e.ReadSent? || e.WriteSent?
  }

  lemma {:induction false} LiveSince(views: seq<View>, log: seq<Event>, n: nat) returns (s: nat)
    requires Run(views, log) && n <= |log| && !views[n].live.Nothing?
    ensures s < n && Sends(log[s]) && log[s].id == views[n].live.id
    ensures log[s].ReadSent? <==> views[n].live.Reading?
    ensures forall k :: s < k < n ==> log[k].UpdateRequested?
  {
    if n == 0 {
      assert false;
    }
    assert Step(views, log, n - 1);
    if Sends(log[n - 1]) {
      s := n - 1;
    } else {
      s := LiveSince(views, log, n - 1);
    }
  }

  /** Between two requests the first one was answered, or the session ended. */
  lemma {:induction false} RequestsAreSequential(views: seq<View>, log: seq<Event>, i: nat, j: nat) returns (k: nat)
    requires Run(views, log) && i < j < |log| && Sends(log[i]) && Sends(log[j])
    ensures i < k < j && Ends(log[k], log[i].id)
  {
    assert Step(views, log, i) && Step(views, log, j);
    k := i + 1;
    while !Ends(log[k], log[i].id)
      invariant i < k <= j && !views[k].live.Nothing? && views[k].live.id == log[i].id
      decreases j - k
    {
      assert Step(views, log, k);
      k := k + 1;
    }
  }

  /** A successful read sent and answered between two positions. */
  ghost predicate ReadBetween(log: seq<Event>, from: nat, to: nat) {
    exists s: nat, k: nat :: from < s < k < to && k < |log| && log[s].ReadSent? && log[k] == ReadFinished(log[s].id, true)
  }

  /** After a write of unknown outcome no other write is sent until a read issued later has succeeded, within a session. */
  lemma {:induction false} WriteGate(views: seq<View>, log: seq<Event>, i: nat, j: nat)
    requires Run(views, log) && i < j < |log|
    requires log[i].WriteFinished? && (log[i].answer == TimedOut || log[i].answer == Garbled) && log[j].WriteSent?
    ensures ReadBetween(log, i, j) || exists k :: i < k < j && log[k].SessionEnded?
  {
    assert Step(views, log, i) && Step(views, log, j);
    var k := i + 1;
    while views[k + 1].closed
      invariant i < k < j && views[k].closed && !views[k].live.Writing?
      decreases j - k
    {
      assert Step(views, log, k);
      k := k + 1;
    }
    assert Step(views, log, k);
    if log[k].ReadFinished? {
      var s := LiveSince(views, log, k);
      assert i < s < k && log[k] == ReadFinished(log[s].id, true);
    }
  }

  /** Exactly the latest finished write was unknown, and no write was sent nor the session ended since. */
  ghost predicate UnconfirmedBy(log: seq<Event>, n: nat, w: nat) {
    && w < n <= |log| && log[w].WriteFinished? && (log[w].answer == TimedOut || log[w].answer == Garbled)
    && forall k :: w < k < n ==> !log[k].WriteSent? && !log[k].SessionEnded?
  }

  lemma {:induction false} UnconfirmedExactly(views: seq<View>, log: seq<Event>, n: nat)
    requires Run(views, log) && n <= |log|
    ensures views[n].unconfirmed <==> exists w: nat :: UnconfirmedBy(log, n, w)
  {
    if n > 0 {
      var m := n - 1;
      UnconfirmedExactly(views, log, m);
      assert Step(views, log, m);
      if views[n].unconfirmed {
        if log[m].WriteFinished? {
          assert UnconfirmedBy(log, n, m);
        } else {
          var w: nat :| UnconfirmedBy(log, m, w);
          assert UnconfirmedBy(log, n, w);
        }
      } else if w: nat :| UnconfirmedBy(log, n, w) {
        if w < m {
          assert UnconfirmedBy(log, m, w);
          var s := LiveSince(views, log, m);
        }
      }
    }
  }
}
