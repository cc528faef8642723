/**
 Whole runs of the location browser: any events, in any order, with any replies.
 */
module LocationRuns {
  import opened LocationBrowsing
  import Text

  /** One event of the main loop. An answer names the call it belongs to; a timer, the timer that expired. */
  datatype Stimulus =
    | ShowCountries
    | ShowGroups(country: string)
    | ShowServers(country: string, kind: string, name: string)
    | RefreshLoads
    | Search(text: string)
    | Claim(country: string)
    | ClaimGroup(country: string, kind: string, name: string)
    | Release(context: nat)
    | ReleaseGroup(context: nat)
    | NamesAnswered(id: nat, names: Reply<string>)
    | ServersAnswered(id: nat, servers: Reply<Server>)
    | LoadsAnswered(id: nat, failed: bool, loads: map<string, int>)
    | SearchAnswered(id: nat, names: Reply<string>)
    | TimerExpired(id: nat)
    | DataChanged(topologyChanged: bool)
    | SnapshotAccepted(ready: bool, loggedIn: bool)
    | ReadAnswered(reading: Reading)
    | Reached
    | Unreachable
    | BackendLost(rejected: bool)
    | OwnerAppeared
    | OwnerTrusted
    | OwnerVanished

  // ---- Progress over a run ----

  /** Two moments between which one event happened. */
  ghost predicate Moves(glances: seq<Glance>, i: nat)
    requires i + 1 < |glances|
  {
    Steady(glances[i], glances[i + 1])
  }

  ghost predicate Course(glances: seq<Glance>) {
    |glances| > 0 && glances[0].Settled() && forall i: nat {:trigger Moves(glances, i)} :: i + 1 < |glances| ==> Moves(glances, i)
  }

  /** The backend came back into reach while a free slot had something due, and no turn was taken. */
  predicate Overlooks(before: Glance, after: Glance) {
    before.Unreachable() && !before.busy && before.due && after.CanServe() && after.turns == before.turns
  }

  /** The session serves on, and the scheduler takes no turn. */
  predicate Idles(before: Glance, after: Glance) {
    before.CanServe() && after.CanServe() && after.turns == before.turns
  }

  ghost predicate OverlookedAt(glances: seq<Glance>, i: nat, n: nat)
    requires n < |glances|
  {
    i < n && Overlooks(glances[i], glances[i + 1]) && forall k :: i < k < n ==> Idles(glances[k], glances[k + 1])
  }

  /**
   In every state of every run a due refresh is left undone beside a free slot of a serving session exactly
   if the last return of the backend into reach overlooked one, and no turn was taken and no session lost since.
   */
  lemma {:induction false} UndoneExactlyIfOverlooked(glances: seq<Glance>, n: nat)
    requires Course(glances) && n < |glances|
    ensures !glances[n].Settled() <==> exists i: nat :: OverlookedAt(glances, i, n)
  {
    if n > 0 {
      var m := n - 1;
      UndoneExactlyIfOverlooked(glances, m);
      assert Moves(glances, m);
      if !glances[n].Settled() {
        if glances[m].CanServe() {
          var i: nat :| OverlookedAt(glances, i, m);
          assert OverlookedAt(glances, i, n);
        } else {
          assert OverlookedAt(glances, m, n);
        }
      }
      if i: nat :| OverlookedAt(glances, i, n) {
        if i < m {
          assert OverlookedAt(glances, i, m);
        }
      }
    }
  }

  /** One event, for the scheduler and for the search. */
  ghost predicate Goes(b: LocationBrowser, seen: Glance, sought: Glance)
    reads b
  {
    Steady(seen, b.Seen()) && Steady(sought, b.Seeking())
  }

  /** What is known of the owner, and what is being searched for. */
  datatype Moment = Moment(session: Session, query: string)

  ghost function Here(b: LocationBrowser): Moment
    reads b
  {
    Moment(b.session, b.search.query)
  }

  /** What an event makes of that. */
  predicate Told(s: Stimulus, before: Moment, after: Moment) {
    var (was, now) := (before.session, after.session);
    match s
    case Search(text) => now == was && after.query == Text.Simplified(text)
    case SnapshotAccepted(ready, loggedIn) => if was.pinned then now.ready == ready && now.loggedIn == loggedIn else after == before
    case ReadAnswered(reading) =>
      if was.pinned then now.available && (reading.Usable? ==> now.ready == reading.ready && now.loggedIn == reading.loggedIn)
      else after == before
    case Reached => now == if was.pinned then was.(available := true) else was
    case Unreachable => now == was.(available := false)
    case BackendLost(rejected) => now == was.(ready := false, available := was.available && !rejected)
    case OwnerAppeared => if was.pinned then after == before else now.backend == was.backend + 1 && !now.available
    case OwnerTrusted => now == was.(pinned := true)
    case OwnerVanished => !now.pinned && !now.available && now.backend == was.backend + 1 && after.query == ""
    case _ => now == was
  }

  /** Events that cannot happen in the current state, such as an answer to no call, are skipped. */
  method React(b: LocationBrowser, s: Stimulus)
    requires b.Valid()
    modifies b
    ensures b.Valid() && Goes(b, old(b.Seen()), old(b.Seeking()))
    ensures b.session.available && !old(b.session.available) ==> s.Reached? || s.ReadAnswered?
    ensures Told(s, old(Here(b)), Here(b))
  {
    hide LocationBrowser.Sound, LocationBrowser.ResultsAgree;
    match s
    case ShowCountries | ShowGroups(_) | ShowServers(_, _, _) | RefreshLoads | Search(_) => Browse(b, s);
    case Claim(_) | ClaimGroup(_, _, _) | Release(_) | ReleaseGroup(_) => Visit(b, s);
    case NamesAnswered(_, _) | ServersAnswered(_, _) | LoadsAnswered(_, _, _) | SearchAnswered(_, _) | TimerExpired(_) => Answer(b, s);
    case _ => Observe(b, s);
  }

  method Browse(b: LocationBrowser, s: Stimulus)
    requires b.Valid()
    requires s.ShowCountries? || s.ShowGroups? || s.ShowServers? || s.RefreshLoads? || s.Search?
    modifies b
    ensures b.Valid() && Goes(b, old(b.Seen()), old(b.Seeking())) && b.session == old(b.session)
    ensures s.Search? ==> b.search.query == Text.Simplified(s.text)
  {
    hide LocationBrowser.Sound, LocationBrowser.ResultsAgree;
    match s
    case ShowCountries => b.LoadCountries();
    case ShowGroups(country) => b.LoadServerGroups(country);
    case ShowServers(country, kind, name) => b.LoadGroupServers(country, kind, name);
    case RefreshLoads => b.RequestServerLoads();
    case Search(text) => b.SearchLocations(text);
  }

  method Visit(b: LocationBrowser, s: Stimulus)
    requires b.Valid()
    requires s.Claim? || s.ClaimGroup? || s.Release? || s.ReleaseGroup?
    modifies b
    ensures b.Valid() && Goes(b, old(b.Seen()), old(b.Seeking())) && b.session == old(b.session)
  {
    hide LocationBrowser.Sound, LocationBrowser.ResultsAgree;
    match s
    case Claim(country) => var _ := b.ClaimServerContext(country);
    case ClaimGroup(country, kind, name) => var _ := b.ClaimGroupServerContext(country, kind, name);
    case Release(context) => b.ReleaseServerContext(context);
    case ReleaseGroup(context) => b.ReleaseGroupServerContext(context);
  }

  /** What is heard of the owner. */
  method Observe(b: LocationBrowser, s: Stimulus)
    requires b.Valid()
    requires s.DataChanged? || s.SnapshotAccepted? || s.ReadAnswered? || s.Reached? || s.Unreachable? || s.BackendLost? || s.OwnerAppeared? || s.OwnerTrusted? || s.OwnerVanished?
    modifies b
    ensures b.Valid() && Goes(b, old(b.Seen()), old(b.Seeking()))
    ensures b.session.available && !old(b.session.available) ==> s.Reached? || s.ReadAnswered?
    ensures Told(s, old(Here(b)), Here(b))
  {
    hide LocationBrowser.Sound, LocationBrowser.ResultsAgree;
    match s
    case DataChanged(topologyChanged) => b.OnServerDataChanged(topologyChanged);
    case OwnerTrusted => b.PinOwner();
    case OwnerVanished => b.OnServiceUnregistered();
    case OwnerAppeared => if !b.session.pinned { b.OnServiceRegistered(); }
    case BackendLost(_) | Unreachable | Reached => Reach(b, s);
    case ReadAnswered(_) | SnapshotAccepted(_, _) => Adopt(b, s);
  }

  /** The owner comes within reach, or is out of it. */
  method Reach(b: LocationBrowser, s: Stimulus)
    requires b.Valid() && (s.BackendLost? || s.Unreachable? || s.Reached?)
    modifies b
    ensures b.Valid() && Goes(b, old(b.Seen()), old(b.Seeking()))
    ensures b.session.available && !old(b.session.available) ==> s.Reached?
    ensures Told(s, old(Here(b)), Here(b))
  {
    hide LocationBrowser.Sound, LocationBrowser.ResultsAgree, LocationBrowser.Due, LocationBrowser.Unsent, LocationBrowser.Settled;
    match s
    case BackendLost(rejected) => b.LoseBackend(rejected);
    case Unreachable => b.SetBackendAvailable(false);
    case Reached => if b.session.pinned { b.SetBackendAvailable(true); }
  }

  /** The owner's state was read or signalled. */
  method Adopt(b: LocationBrowser, s: Stimulus)
    requires b.Valid() && (s.ReadAnswered? || s.SnapshotAccepted?)
    modifies b
    ensures b.Valid() && Goes(b, old(b.Seen()), old(b.Seeking()))
    ensures b.session.available && !old(b.session.available) ==> s.Reached? || s.ReadAnswered?
    ensures Told(s, old(Here(b)), Here(b))
  {
    hide LocationBrowser.Sound, LocationBrowser.ResultsAgree, LocationBrowser.Continued, LocationBrowser.Forgotten,
         LocationBrowser.Due, LocationBrowser.Unsent, LocationBrowser.Settled;
    match s
    case ReadAnswered(reading) => if b.session.pinned { b.OnSnapshotRead(reading); }
    case SnapshotAccepted(ready, loggedIn) => if b.session.pinned { b.ApplySnapshot(ready, loggedIn); }
  }

  method Answer(b: LocationBrowser, s: Stimulus)
    requires b.Valid()
    requires s.NamesAnswered? || s.ServersAnswered? || s.LoadsAnswered? || s.SearchAnswered? || s.TimerExpired?
    modifies b
    ensures b.Valid() && Goes(b, old(b.Seen()), old(b.Seeking())) && b.session == old(b.session)
  {
    hide LocationBrowser.Sound, LocationBrowser.ResultsAgree;
    match s
    case SearchAnswered(id, names) => if id in b.searchBus.calls { b.OnSearchReply(id, names); }
    case NamesAnswered(id, names) => if id in b.bus.calls { AnswerNames(b, id, names); }
    case ServersAnswered(_, _) | LoadsAnswered(_, _, _) => AnswerRows(b, s);
    case TimerExpired(id) => if id in b.bus.calls { Expire(b, id); }
  }

  method AnswerRows(b: LocationBrowser, s: Stimulus)
    requires b.Valid()
    requires s.ServersAnswered? || s.LoadsAnswered?
    modifies b
    ensures b.Valid() && Goes(b, old(b.Seen()), old(b.Seeking())) && b.session == old(b.session)
  {
    hide LocationBrowser.Sound, LocationBrowser.ResultsAgree;
    match s
    case ServersAnswered(id, servers) =>
      if id in b.bus.calls && b.bus.calls[id].request.Servers? {
        b.OnServersReply(id, servers);
      }
    case LoadsAnswered(id, failed, loads) =>
      if id in b.bus.calls && b.bus.calls[id].request.Loads? {
        b.OnLoadsReply(id, failed, loads);
      }
  }

  method AnswerNames(b: LocationBrowser, id: nat, names: Reply<string>)
    requires b.Valid() && id in b.bus.calls
    modifies b
    ensures b.Valid() && Goes(b, old(b.Seen()), old(b.Seeking())) && b.session == old(b.session)
  {
    if b.bus.calls[id].request.Countries? {
      b.OnCountriesReply(id, names);
    } else if b.bus.calls[id].request.Groups? {
      b.OnGroupsReply(id, names);
    }
  }

  method Expire(b: LocationBrowser, id: nat)
    requires b.Valid() && id in b.bus.calls
    modifies b
    ensures b.Valid() && Goes(b, old(b.Seen()), old(b.Seeking())) && b.session == old(b.session)
  {
    if b.bus.calls[id].request.GroupsTimer? {
      b.OnGroupsTimer(id);
    } else if b.bus.calls[id].request.ServersTimer? {
      b.OnServersTimer(id);
    }
  }

  /**
   Any run, with two glances at each moment: the invariants hold. A due refresh is undone at the end, and a query
   unsent, in a serving session exactly if the backend's last return, by an answered read or registration,
   overlooked it.
   */
  method RunBrowser(stimuli: seq<Stimulus>)
      returns (b: LocationBrowser, ghost glances: seq<Glance>, ghost searches: seq<Glance>, ghost moments: seq<Moment>)
    ensures fresh(b) && b.Valid()
    ensures |glances| == |stimuli| + 1 && glances[|stimuli|] == b.Seen() && Course(glances)
    ensures |searches| == |stimuli| + 1 && searches[|stimuli|] == b.Seeking() && Course(searches)
    ensures OnlyReturnsOverlook(stimuli, glances) && OnlyReturnsOverlook(stimuli, searches)
    ensures |moments| == |stimuli| + 1 && moments[|stimuli|] == Here(b)
    ensures forall i: nat :: i < |stimuli| ==> Told(stimuli[i], moments[i], moments[i + 1])
    ensures !b.Settled() <==> exists i: nat :: OverlookedAt(glances, i, |stimuli|)
    ensures !b.Seeking().Settled() <==> exists i: nat :: OverlookedAt(searches, i, |stimuli|)
  {
    b := new LocationBrowser();
    glances, searches, moments := [b.Seen()], [b.Seeking()], [Here(b)];
    for n := 0 to |stimuli|
      invariant fresh(b) && b.Valid()
      invariant |glances| == n + 1 && glances[n] == b.Seen() && Course(glances)
      invariant |searches| == n + 1 && searches[n] == b.Seeking() && Course(searches)
      invariant OnlyReturnsOverlook(stimuli[..n], glances) && OnlyReturnsOverlook(stimuli[..n], searches)
      invariant |moments| == n + 1 && moments[n] == Here(b)
      invariant forall i: nat :: i < n ==> Told(stimuli[i], moments[i], moments[i + 1])
    {
      React(b, stimuli[n]);
      Lengthen(stimuli[..n], glances, stimuli[n], b.Seen());
      Lengthen(stimuli[..n], searches, stimuli[n], b.Seeking());
      assert stimuli[..n + 1] == stimuli[..n] + [stimuli[n]];
      glances, searches, moments := glances + [b.Seen()], searches + [b.Seeking()], moments + [Here(b)];
    }
    assert stimuli[..|stimuli|] == stimuli;
    UndoneExactlyIfOverlooked(glances, |stimuli|);
    UndoneExactlyIfOverlooked(searches, |stimuli|);
  }

  /** The backend comes back into reach only by an answered read or a registration. */
  ghost predicate OnlyReturnsOverlook(stimuli: seq<Stimulus>, glances: seq<Glance>) {
    && |glances| == |stimuli| + 1
    && forall i :: 0 <= i < |stimuli| && Overlooks(glances[i], glances[i + 1]) ==> stimuli[i].Reached? || stimuli[i].ReadAnswered?
  }

  lemma Lengthen(stimuli: seq<Stimulus>, glances: seq<Glance>, s: Stimulus, g: Glance)
    requires Course(glances) && Steady(glances[|glances| - 1], g) && OnlyReturnsOverlook(stimuli, glances)
    requires Overlooks(glances[|glances| - 1], g) ==> s.Reached? || s.ReadAnswered?
    ensures Course(glances + [g]) && OnlyReturnsOverlook(stimuli + [s], glances + [g])
  {
    forall i: nat | i + 1 < |glances + [g]| ensures Moves(glances + [g], i) {
      if i + 1 < |glances| {
        assert Moves(glances, i);
      }
    }
  }
}
