/**
 What the monitor's acceptance means for a whole history of the agent, said without the monitor:
 by positions in the history only. Each theorem holds for every history the agent can produce.
 */
module AgentSafety {
  import opened AgentProtocol
  import opened Histories
  import opened ConnectionAction
  import Features

  predicate ChangesOwner(e: Event) {
    e.OwnerAppeared? || e.OwnerLost?
  }

  predicate Sends(e: Event, message: Message) {
    e.Sent? && e.message == message
  }

  predicate SendsConnect(e: Event) {
    e.Sent? && e.message.Connect?
  }

  predicate SendsPreference(e: Event) {
    e.Sent? && e.message.SetReconnection?
  }

  /** No event of a kind strictly between two positions. */
  ghost predicate NoneBetween(log: seq<Event>, from: int, to: int, kind: Event -> bool)
    requires -1 <= from && to <= |log|
  {
    forall k :: from < k < to ==> !kind(log[k])
  }

  // ---- Connect intents ----

  /** The events that replace, cancel or use up a queued intent. */
  predicate ChangesIntent(e: Event) {
    e.IntentQueued? || e.DisconnectRequested? || e.IntentTaken? || e.IntentWithdrawn?
  }

  lemma {:induction false} QueuedSince(views: seq<View>, log: seq<Event>, n: nat) returns (q: nat)
    requires Run(views, log) && n <= |log| && views[n].intent.current.Holding?
    ensures q < n && log[q] == IntentQueued(views[n].intent.current.intent)
    ensures NoneBetween(log, q, n, ChangesIntent)
  {
    if n == 0 {
      assert false;
    }
    assert Step(views, log, n - 1);
    if log[n - 1].IntentQueued? {
      q := n - 1;
    } else {
      q := QueuedSince(views, log, n - 1);
    }
  }

  /**
   Every connect message carries the most recently queued intent: between the user's request and
   the message nothing replaced or cancelled it, and the message itself uses it up.
   */
  lemma ConnectCarriesLatestIntent(views: seq<View>, log: seq<Event>, i: nat) returns (q: nat)
    requires Run(views, log) && i < |log| && SendsConnect(log[i])
    ensures q < i - 1 && log[q].IntentQueued? && log[q].intent.goal == Requested(log[i].message.call)
    ensures log[i - 1] == IntentTaken
    ensures NoneBetween(log, q, i - 1, ChangesIntent)
  {
    assert Step(views, log, i);
    if i == 0 {
      assert false;
    }
    assert Step(views, log, i - 1);
    q := QueuedSince(views, log, i - 1);
  }

  /** The features the user asked for last; none until the user asks for some. */
  function LatestFeatures(log: seq<Event>): seq<string> {
    if log == [] then []
    else if log[|log| - 1].FeaturesChosen? then log[|log| - 1].features
    else LatestFeatures(log[..|log| - 1])
  }

  lemma {:induction false} ChosenAreLatestFeatures(views: seq<View>, log: seq<Event>, n: nat)
    requires Run(views, log) && n <= |log|
    ensures views[n].chosen == LatestFeatures(log[..n])
  {
    if n > 0 {
      ChosenAreLatestFeatures(views, log, n - 1);
      assert Step(views, log, n - 1);
      assert log[..n][..n - 1] == log[..n - 1];
    }
  }

  /**
   The connect method fits what was queued: a group leaves as a group, a target with '#' as a server, any other
   target as a country, and the fastest target with exactly the supported features the user asked for last.
   */
  lemma ConnectFitsTarget(views: seq<View>, log: seq<Event>, i: nat) returns (q: nat)
    requires Run(views, log) && i < |log| && SendsConnect(log[i])
    ensures q < i - 1 && log[q].IntentQueued? && NoneBetween(log, q, i - 1, ChangesIntent)
    ensures var (goal, call, asked) := (log[q].intent.goal, log[i].message.call, LatestFeatures(log[..i]));
            && (goal.ServerGroup? ==> call == ConnectCall.ConnectGroup(goal.country, goal.kind, goal.name))
            && (goal.Target? && '#' in goal.text ==> call == ConnectServer(goal.text))
            && (goal.Target? && '#' !in goal.text && goal.text != "FASTEST" ==> call == ConnectCountry(goal.text))
            && (goal == Target("FASTEST") ==>
                  && (call == ConnectFastest <==> !exists f :: f in Features.SUPPORTED && Features.Asks(asked, f))
                  && (call != ConnectFastest ==> call.ConnectFastestWithFeatures? && Features.Selection(asked, call.features)))
  {
    assert Step(views, log, i);
    q := ConnectCarriesLatestIntent(views, log, i);
    assert Step(views, log, i - 1);
    ChosenAreLatestFeatures(views, log, i);
    var asked := LatestFeatures(log[..i]);
    if !exists f :: f in Features.SUPPORTED && Features.Asks(asked, f) {
      assert Features.Selection(asked, []);
    }
  }

  /** A queued intent is sent at most once: two connect messages answer two requests, one after the other. */
  lemma EachIntentSentOnce(views: seq<View>, log: seq<Event>, i: nat, j: nat) returns (q: nat)
    requires Run(views, log) && i < j < |log| && SendsConnect(log[i]) && SendsConnect(log[j])
    ensures i < q < j && log[q].IntentQueued? && log[q].intent.goal == Requested(log[j].message.call)
  {
    var p := ConnectCarriesLatestIntent(views, log, i);
    q := ConnectCarriesLatestIntent(views, log, j);
    assert ChangesIntent(log[i - 1]);
  }

  /** After the user disconnects nothing connects until the user asks again. */
  lemma NoConnectAfterDisconnect(views: seq<View>, log: seq<Event>, d: nat, i: nat) returns (q: nat)
    requires Run(views, log) && d < i < |log| && log[d].DisconnectRequested? && SendsConnect(log[i])
    ensures d < q < i && log[q].IntentQueued? && log[q].intent.goal == Requested(log[i].message.call)
  {
    q := ConnectCarriesLatestIntent(views, log, i);
    assert ChangesIntent(log[d]);
  }

  // ---- The lease ----

  predicate ChangesLease(e: Event) {
    ChangesOwner(e) || Sends(e, Register) || Sends(e, Unregister)
  }

  /** The last lease message this owner was sent is a registration. */
  ghost predicate RegisteredAt(log: seq<Event>, r: nat, n: nat)
    requires n <= |log|
  {
    r < n && Sends(log[r], Register) && NoneBetween(log, r, n, ChangesLease)
  }

  lemma {:induction false} LeaseSince(views: seq<View>, log: seq<Event>, n: nat) returns (r: nat)
    requires Run(views, log) && n <= |log| && !views[n].lease.NoLease?
    ensures RegisteredAt(log, r, n)
    ensures views[n].lease.Asked? ==> log[r].id == views[n].lease.id
    ensures views[n].lease.Held? ==> exists a :: r < a < n && log[a] == Replied(log[r].id, Succeeded)
  {
    if n == 0 {
      assert false;
    }
    assert Step(views, log, n - 1);
    if Sends(log[n - 1], Register) {
      r := n - 1;
    } else {
      r := LeaseSince(views, log, n - 1);
      if views[n].lease.Held? {
        if views[n - 1].lease.Held? {
          var a :| r < a < n - 1 && log[a] == Replied(log[r].id, Succeeded);
        } else {
          assert log[n - 1] == Replied(log[r].id, Succeeded);
        }
      }
    }
  }

  lemma {:induction false} LeaseKept(views: seq<View>, log: seq<Event>, r: nat, n: nat)
    requires Run(views, log) && n <= |log| && RegisteredAt(log, r, n)
    ensures !views[n].lease.NoLease?
    decreases n - r
  {
    assert Step(views, log, n - 1);
    if r + 1 < n {
      LeaseKept(views, log, r, n - 1);
      assert !ChangesLease(log[n - 1]);
    }
  }

  /** The client may hold a lease exactly when the last lease message to this owner was a registration. */
  lemma LeaseMeansRegistered(views: seq<View>, log: seq<Event>, n: nat)
    requires Run(views, log) && n <= |log|
    ensures !views[n].lease.NoLease? <==> exists r :: RegisteredAt(log, r, n)
  {
    if !views[n].lease.NoLease? {
      var r := LeaseSince(views, log, n);
    }
    forall r | RegisteredAt(log, r, n)
      ensures !views[n].lease.NoLease?
    {
      LeaseKept(views, log, r, n);
    }
  }

  /** Registrations and releases alternate: none is doubled, and a release follows a registration. */
  lemma LeaseMessagesAlternate(views: seq<View>, log: seq<Event>, i: nat)
    requires Run(views, log) && i < |log|
    ensures Sends(log[i], Register) ==> !exists r :: RegisteredAt(log, r, i)
    ensures Sends(log[i], Unregister) ==> exists r :: RegisteredAt(log, r, i)
  {
    assert Step(views, log, i);
    LeaseMeansRegistered(views, log, i);
  }

  /** A connect message leaves only under a registration this owner has acknowledged and not lost. */
  lemma ConnectHoldsLease(views: seq<View>, log: seq<Event>, i: nat) returns (r: nat, a: nat)
    requires Run(views, log) && i < |log| && SendsConnect(log[i])
    ensures RegisteredAt(log, r, i) && r < a < i && log[a] == Replied(log[r].id, Succeeded)
  {
    assert Step(views, log, i);
    r := LeaseSince(views, log, i);
    a :| r < a < i && log[a] == Replied(log[r].id, Succeeded);
  }

  // ---- The reconnection preference ----

  /** The user's latest choice; reconnection is on until the user says otherwise. */
  function LatestChoice(log: seq<Event>): bool {
    if log == [] then true
    else if log[|log| - 1].PreferenceChosen? then log[|log| - 1].enabled
    else LatestChoice(log[..|log| - 1])
  }

  lemma {:induction false} WantedIsLatestChoice(views: seq<View>, log: seq<Event>, n: nat)
    requires Run(views, log) && n <= |log|
    ensures views[n].preference.wanted == LatestChoice(log[..n])
  {
    if n > 0 {
      WantedIsLatestChoice(views, log, n - 1);
      assert Step(views, log, n - 1);
      assert log[..n][..n - 1] == log[..n - 1];
    }
  }

  predicate ChangesKnown(e: Event) {
    ChangesOwner(e) || SendsPreference(e)
  }

  lemma {:induction false} PreferenceSince(views: seq<View>, log: seq<Event>, n: nat) returns (s: nat)
    requires Run(views, log) && n <= |log|
    requires views[n].preference.call.Awaiting? || views[n].preference.known.Acknowledged?
    ensures s < n && SendsPreference(log[s]) && NoneBetween(log, s, n, ChangesKnown)
    ensures views[n].preference.sent == log[s].message.enabled
    ensures views[n].preference.call.Awaiting? ==>
              views[n].preference.call.id == log[s].id && views[n].preference.known == Unknown
    ensures views[n].preference.known.Acknowledged? ==>
              && views[n].preference.call.Free?
              && views[n].preference.known.value == log[s].message.enabled
              && exists a :: s < a < n && log[a] == Replied(log[s].id, Succeeded)
  {
    if n == 0 {
      assert false;
    }
    assert Step(views, log, n - 1);
    if SendsPreference(log[n - 1]) {
      s := n - 1;
    } else {
      s := PreferenceSince(views, log, n - 1);
      if views[n].preference.known.Acknowledged? {
        if views[n - 1].preference.known.Acknowledged? {
          var a :| s < a < n - 1 && log[a] == Replied(log[s].id, Succeeded);
        } else {
          assert log[n - 1] == Replied(log[s].id, Succeeded);
        }
      }
    }
  }

  /** The owner acknowledged exactly the user's latest choice, and was not told anything since. */
  ghost predicate Acquainted(log: seq<Event>, s: nat, a: nat, n: nat)
    requires n <= |log|
  {
    && s < a < n && SendsPreference(log[s]) && log[a] == Replied(log[s].id, Succeeded)
    && NoneBetween(log, s, n, ChangesKnown)
    && log[s].message.enabled == LatestChoice(log[..n])
  }

  /** What "the preference is applied" stands for, whatever was toggled while calls were pending. */
  lemma AppliedIsLatestChoice(views: seq<View>, log: seq<Event>, n: nat) returns (s: nat, a: nat)
    requires Run(views, log) && n <= |log|
    requires views[n].preference.known == Acknowledged(views[n].preference.wanted)
    ensures Acquainted(log, s, a, n)
  {
    s := PreferenceSince(views, log, n);
    a :| s < a < n && log[a] == Replied(log[s].id, Succeeded);
    WantedIsLatestChoice(views, log, n);
  }

  lemma ConnectKnowsPreference(views: seq<View>, log: seq<Event>, i: nat) returns (s: nat, a: nat)
    requires Run(views, log) && i < |log| && SendsConnect(log[i])
    ensures Acquainted(log, s, a, i)
  {
    assert Step(views, log, i);
    s, a := AppliedIsLatestChoice(views, log, i);
  }

  lemma {:induction false} PreferenceCallOpen(views: seq<View>, log: seq<Event>, i: nat, n: nat)
    requires Run(views, log) && i < n <= |log| && SendsPreference(log[i])
    requires forall k :: i < k < n ==> !ChangesKnown(log[k]) && !(log[k].Replied? && log[k].id == log[i].id)
    ensures views[n].preference.call == Awaiting(log[i].id)
    decreases n - i
  {
    assert Step(views, log, n - 1);
    if i + 1 < n {
      PreferenceCallOpen(views, log, i, n - 1);
    }
  }

  /** Preference calls to one owner never overlap: the earlier one is answered before the next is sent. */
  lemma PreferenceCallsAreSequential(views: seq<View>, log: seq<Event>, i: nat, j: nat)
    requires Run(views, log) && i < j < |log| && SendsPreference(log[i]) && SendsPreference(log[j])
    ensures exists k :: i < k < j && (ChangesKnown(log[k]) || (log[k].Replied? && log[k].id == log[i].id))
    ensures log[j].message.enabled == LatestChoice(log[..j])
  {
    assert Step(views, log, j);
    WantedIsLatestChoice(views, log, j);
    if forall k :: i < k < j ==> !(ChangesKnown(log[k]) || (log[k].Replied? && log[k].id == log[i].id)) {
      PreferenceCallOpen(views, log, i, j);
      assert false;
    }
  }

  // ---- Replies ----

  lemma {:induction false} OpenSince(views: seq<View>, log: seq<Event>, n: nat, id: nat) returns (s: nat)
    requires Run(views, log) && n <= |log| && id in views[n].open
    ensures s < n && log[s].Sent? && log[s].id == id < views[n].nextId
    ensures NoneBetween(log, s, n, (e: Event) => e.Replied? && e.id == id)
  {
    if n == 0 {
      assert false;
    }
    assert Step(views, log, n - 1);
    if log[n - 1].Sent? && log[n - 1].id == id {
      s := n - 1;
    } else {
      s := OpenSince(views, log, n - 1, id);
    }
  }

  lemma {:induction false} AnsweredIsClosed(views: seq<View>, log: seq<Event>, i: nat, n: nat)
    requires Run(views, log) && i < n <= |log| && log[i].Replied?
    ensures log[i].id !in views[n].open && log[i].id < views[n].nextId
    decreases n - i
  {
    assert Step(views, log, n - 1);
    if i + 1 < n {
      AnsweredIsClosed(views, log, i, n - 1);
    } else {
      var s := OpenSince(views, log, i, log[i].id);
    }
  }

  /** A reply answers a message sent before, and it is the only one that does. */
  lemma RepliesAnswerOnce(views: seq<View>, log: seq<Event>, i: nat) returns (s: nat)
    requires Run(views, log) && i < |log| && log[i].Replied?
    ensures s < i && log[s].Sent? && log[s].id == log[i].id
    ensures forall k :: 0 <= k < |log| && log[k].Replied? && log[k].id == log[i].id ==> k == i
  {
    assert Step(views, log, i);
    s := OpenSince(views, log, i, log[i].id);
    forall k | 0 <= k < |log| && log[k].Replied? && log[k].id == log[i].id
      ensures k == i
    {
      if k < i {
        AnsweredIsClosed(views, log, k, i);
      } else if i < k {
        assert Step(views, log, k);
        AnsweredIsClosed(views, log, i, k);
      }
    }
  }

  // ---- Authorization ----

  /** This owner was asked for authorization and granted it. */
  ghost predicate AuthorizedBy(log: seq<Event>, s: nat, a: nat, n: nat)
    requires n <= |log|
  {
    && s < a < n && Sends(log[s], Authorize) && log[a] == Replied(log[s].id, Succeeded)
    && NoneBetween(log, s, n, ChangesOwner)
  }

  lemma {:induction false} AuthorizedSince(views: seq<View>, log: seq<Event>, n: nat) returns (s: nat, a: nat)
    requires Run(views, log) && n <= |log| && views[n].owner.authorized
    ensures AuthorizedBy(log, s, a, n)
  {
    if n == 0 {
      assert false;
    }
    assert Step(views, log, n - 1);
    if views[n - 1].owner.authorized {
      s, a := AuthorizedSince(views, log, n - 1);
    } else {
      s := AuthorizeCallSince(views, log, n - 1);
      a := n - 1;
    }
    assert !ChangesOwner(log[n - 1]);
  }

  lemma {:induction false} AuthorizeCallSince(views: seq<View>, log: seq<Event>, n: nat) returns (s: nat)
    requires Run(views, log) && n <= |log| && views[n].owner.call.Awaiting?
    ensures s < n && Sends(log[s], Authorize) && log[s].id == views[n].owner.call.id
    ensures NoneBetween(log, s, n, ChangesOwner)
  {
    if n == 0 {
      assert false;
    }
    assert Step(views, log, n - 1);
    if Sends(log[n - 1], Authorize) {
      s := n - 1;
    } else {
      s := AuthorizeCallSince(views, log, n - 1);
    }
  }

  /** The answer to a call, in what happened before a moment. */
  ghost predicate AnsweredAt(log: seq<Event>, i: nat, k: int, outcome: Outcome)
    requires i < |log| && log[i].Sent?
  {
    i < k < |log| && log[k] == Replied(log[i].id, outcome)
  }

  /** An authorization granted by this owner stays. */
  lemma {:induction false} AuthorizationStays(views: seq<View>, log: seq<Event>, m: nat, n: nat)
    requires Run(views, log) && m <= n <= |log| && views[m].owner.authorized
    requires forall k :: m <= k < n ==> !ChangesOwner(log[k])
    ensures views[n].owner.authorized
    decreases n - m
  {
    if m < n {
      AuthorizationStays(views, log, m, n - 1);
      assert Step(views, log, n - 1);
    }
  }

  /** A call for authorization is awaited until it is answered; then the answer says whether this client is authorized. */
  lemma {:induction false} AuthorizationOutcome(views: seq<View>, log: seq<Event>, i: nat, n: nat)
    requires Run(views, log) && i < n <= |log| && Sends(log[i], Authorize) && NoneBetween(log, i, n, ChangesOwner)
    ensures (exists k :: AnsweredAt(log, i, k, Succeeded) && k < n) ==> views[n].owner.authorized
    ensures (forall k :: i < k < n ==> !(log[k].Replied? && log[k].id == log[i].id)) ==>
              views[n].owner.call == Awaiting(log[i].id) && !views[n].owner.authorized
    decreases n - i
  {
    assert Step(views, log, n - 1);
    if i + 1 < n {
      AuthorizationOutcome(views, log, i, n - 1);
      assert !ChangesOwner(log[n - 1]);
      if k :| AnsweredAt(log, i, k, Succeeded) && k < n {
        if k == n - 1 {
          var s := RepliesAnswerOnce(views, log, k);
        }
      }
    } else {
      assert Step(views, log, i);
    }
  }

  /** An owner has authorized this client exactly when it answered a call for that with success. */
  lemma AuthorizedExactly(views: seq<View>, log: seq<Event>, n: nat)
    requires Run(views, log) && n <= |log|
    ensures views[n].owner.authorized <==> exists s, a :: AuthorizedBy(log, s, a, n)
  {
    if views[n].owner.authorized {
      var s, a := AuthorizedSince(views, log, n);
    }
    if s: nat, a: nat :| AuthorizedBy(log, s, a, n) {
      assert AnsweredAt(log, s, a, Succeeded);
      AuthorizationOutcome(views, log, s, n);
    }
  }

  /** An owner's refusal stays: nothing is asked of it any more that could change it. */
  lemma {:induction false} RefusalStays(views: seq<View>, log: seq<Event>, m: nat, n: nat)
    requires Run(views, log) && m <= n <= |log| && views[m].owner.rejected && views[m].owner.call.Free?
    requires forall k :: m <= k < n ==> !ChangesOwner(log[k])
    ensures views[n].owner.rejected && views[n].owner.call.Free?
    decreases n - m
  {
    if m < n {
      RefusalStays(views, log, m, n - 1);
      assert Step(views, log, n - 1);
    }
  }

  /** An owner that has refused this client is not asked again before it changes. */
  lemma NeverAskedAfterRefusal(views: seq<View>, log: seq<Event>, i: nat, k: nat, j: nat)
    requires Run(views, log) && i < k < j < |log| && Sends(log[i], Authorize) && AnsweredAt(log, i, k, Refused)
    requires NoneBetween(log, i, j, ChangesOwner)
    ensures !Sends(log[j], Authorize)
  {
    assert Step(views, log, k) && Step(views, log, j);
    forall m | i < m < k
      ensures !(log[m].Replied? && log[m].id == log[i].id)
    {
      var s := RepliesAnswerOnce(views, log, k);
    }
    AuthorizationOutcome(views, log, i, k);
    RefusalStays(views, log, k + 1, j);
  }

  /**
   Whoever asks an owner for authorization again got no answer that settles the matter: the only answer to the
   earlier call was a failure that says neither yes nor no.
   */
  lemma AuthorizesOnlyAfterFailure(views: seq<View>, log: seq<Event>, i: nat, j: nat) returns (k: nat)
    requires Run(views, log) && i < j < |log| && Sends(log[i], Authorize) && Sends(log[j], Authorize)
    requires NoneBetween(log, i, j, ChangesOwner)
    ensures k < j && AnsweredAt(log, i, k, Transient)
    ensures forall m :: 0 <= m < |log| && log[m].Replied? && log[m].id == log[i].id ==> m == k
    ensures !exists s, a :: AuthorizedBy(log, s, a, j)
  {
    assert Step(views, log, j);
    AuthorizationOutcome(views, log, i, j);
    k :| i < k < j && log[k].Replied? && log[k].id == log[i].id;
    assert !AnsweredAt(log, i, k, Succeeded);
    if log[k].outcome.Refused? {
      NeverAskedAfterRefusal(views, log, i, k, j);
      assert false;
    }
    var s := RepliesAnswerOnce(views, log, k);
    AuthorizedExactly(views, log, j);
  }

  /** Only a trusted owner that has accepted this client is asked for anything but authorization. */
  lemma MessagesNeedAuthorization(views: seq<View>, log: seq<Event>, i: nat) returns (s: nat, a: nat)
    requires Run(views, log) && i < |log| && log[i].Sent? && !log[i].message.Authorize?
    ensures AuthorizedBy(log, s, a, i)
  {
    assert Step(views, log, i);
    s, a := AuthorizedSince(views, log, i);
  }

  // ---- Readings ----

  /** The latest reading believed from this owner. */
  ghost predicate LatestReading(log: seq<Event>, h: nat, n: nat)
    requires n <= |log|
  {
    && h < n && log[h].ReadingAdopted?
    && forall k :: h < k < n ==> !ChangesOwner(log[k]) && !log[k].ReadingAdopted?
  }

  lemma {:induction false} HealthySince(views: seq<View>, log: seq<Event>, n: nat) returns (h: nat)
    requires Run(views, log) && n <= |log| && views[n].reading.health.Healthy?
    ensures LatestReading(log, h, n) && log[h].health == views[n].reading.health
  {
    if n == 0 {
      assert false;
    }
    assert Step(views, log, n - 1);
    if log[n - 1].ReadingAdopted? {
      h := n - 1;
    } else {
      h := HealthySince(views, log, n - 1);
    }
  }

  predicate SendsOperation(e: Event) {
    e.Sent? && e.message.Operation()
  }

  /** A connect or disconnect message with this number was the latest one to this owner, and was not answered yet. */
  ghost predicate OperationOut(log: seq<Event>, o: nat, n: nat, id: nat)
    requires n <= |log|
  {
    && o < n && SendsOperation(log[o]) && log[o].id == id
    && forall k :: o < k < n ==> !SendsOperation(log[k]) && !ChangesOwner(log[k]) && !(log[k].Replied? && log[k].id == id)
  }

  lemma OperationOutExactly(views: seq<View>, log: seq<Event>, n: nat, id: nat)
    requires Run(views, log) && n <= |log|
    ensures views[n].reading.operation == Awaiting(id) <==> exists o: nat :: OperationOut(log, o, n, id)
  {
    var mark := (k: nat) => k < |views| && views[k].reading.operation == Awaiting(id);
    var sets := (k: nat) => k < |log| && SendsOperation(log[k]) && log[k].id == id;
    var clears := (k: nat) => k < |log| && (SendsOperation(log[k]) || ChangesOwner(log[k]) || (log[k].Replied? && log[k].id == id));
    forall k: nat | k < n
      ensures mark(k + 1) == (sets(k) || (mark(k) && !clears(k)))
    {
      assert Step(views, log, k);
    }
    MarkStands(mark, sets, clears, n);
    if o: nat :| StandsFrom(sets, clears, o, n) {
      forall k | o < k < n ensures !SendsOperation(log[k]) && !ChangesOwner(log[k]) && !(log[k].Replied? && log[k].id == id) {
        assert !clears(k);
      }
      assert OperationOut(log, o, n, id);
    }
    if o: nat :| OperationOut(log, o, n, id) {
      assert StandsFrom(sets, clears, o, n);
    }
  }

  /** The answer to the operation that was out. */
  ghost predicate AnswersOperation(log: seq<Event>, k: nat, outcome: Outcome)
    requires k < |log|
  {
    log[k].Replied? && log[k].outcome == outcome && exists o: nat :: OperationOut(log, o, k, log[k].id)
  }

  /** The owner is known to be idle: a reading says so, or it refused the latest operation. */
  ghost predicate ShowsIdle(log: seq<Event>, k: nat)
    requires k < |log|
  {
    || (log[k].ReadingAdopted? && log[k].health.Healthy? && !log[k].health.reading.busy)
    || AnswersOperation(log, k, Refused)
  }

  /** The owner may be at work: it is asked to, a reading says so, or the latest operation was not answered in time. */
  ghost predicate MayWork(log: seq<Event>, k: nat)
    requires k < |log|
  {
    || SendsOperation(log[k]) || ChangesOwner(log[k])
    || (log[k].ReadingAdopted? && log[k].health.Healthy? && log[k].health.reading.busy)
    || AnswersOperation(log, k, Transient)
  }

  ghost predicate IdleSince(log: seq<Event>, b: nat, n: nat)
    requires n <= |log|
  {
    b < n && ShowsIdle(log, b) && forall k :: b < k < n ==> !MayWork(log, k)
  }

  /** The client counts the owner as idle exactly since an event last showed it. */
  lemma IdleExactly(views: seq<View>, log: seq<Event>, n: nat)
    requires Run(views, log) && n <= |log|
    ensures !views[n].reading.busy <==> exists b: nat :: IdleSince(log, b, n)
  {
    var mark := (k: nat) => k < |views| && !views[k].reading.busy;
    ghost var sets := seq(|log|, (k: nat) requires k < |log| => ShowsIdle(log, k));
    ghost var clears := seq(|log|, (k: nat) requires k < |log| => MayWork(log, k));
    var raised := (k: nat) => k < |log| && sets[k];
    var lowered := (k: nat) => k < |log| && clears[k];
    forall k: nat | k < n
      ensures mark(k + 1) == (raised(k) || (mark(k) && !lowered(k)))
    {
      assert Step(views, log, k);
      if log[k].Replied? {
        OperationOutExactly(views, log, k, log[k].id);
      }
    }
    MarkStands(mark, raised, lowered, n);
    if b: nat :| StandsFrom(raised, lowered, b, n) {
      forall k | b < k < n ensures !MayWork(log, k) {
        assert !lowered(k);
      }
      assert IdleSince(log, b, n);
    }
    if b: nat :| IdleSince(log, b, n) {
      assert StandsFrom(raised, lowered, b, n);
    }
  }

  /**
   A connect message leaves only when the latest reading of this owner was an accepted, ready snapshot
   of an account that may connect, and nothing says that the owner is at work; a start-up request needs it
   to be disconnected as well.
   */
  lemma ConnectSeesPermission(views: seq<View>, log: seq<Event>, i: nat) returns (h: nat, q: nat, b: nat)
    requires Run(views, log) && i < |log| && SendsConnect(log[i])
    ensures LatestReading(log, h, i) && log[h].health.Healthy?
    ensures q < i && log[q].IntentQueued?
    ensures var seen := log[h].health.reading;
            && seen.ready && seen.loggedIn && (seen.auth.SignedIn? || seen.auth.SignedInDegraded?)
            && (seen.state.Disconnected? || (!log[q].intent.onlyWhenDisconnected && (seen.state.Connected? || seen.state.Error?)))
    ensures NoneBetween(log, q, i - 1, ChangesIntent)
    ensures IdleSince(log, b, i)
  {
    assert Step(views, log, i);
    h := HealthySince(views, log, i);
    if i == 0 {
      assert false;
    }
    assert Step(views, log, i - 1);
    q := QueuedSince(views, log, i - 1);
    IdleExactly(views, log, i);
    b :| IdleSince(log, b, i);
  }
}
