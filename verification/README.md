# Verified model of the Plasma VPN client

This Dafny project models the parts of the Plasma VPN client (a KDE client for the Proton VPN
backend) whose correctness depends on the order in which things happen, and proves what they
guarantee. `dafny verify dfyconfig.toml` checks all of it.

Most of the client is a set of objects on one main loop. They send D-Bus calls to a backend that may
answer late, fail, restart or be replaced, and they recognise late answers only by generation counters
stamped on each call. Each such object is a class here. Its fields are the source's (grouped in
records), its methods are the events of the main loop, and the calls in flight are a map from call
numbers to the stamps they carry. Any call may be answered at any time, with any outcome. Where a
claim is about a whole history, the class keeps a ghost log of what it did, a monitor says which next
event is allowed, every method is proved to stay within the monitor, and separate lemmas say what an
accepted log means without mentioning the monitor. Each of these event-driven classes comes with a
`Run…` method that reacts to an arbitrary sequence of events.

| files | what they model |
|---|---|
| `History` | marks that a history sets and clears, and the parts that successive events add to it |
| `AgentProtocol`, `AgentVpnClient`, `AgentSafety`, `AgentGuarantees` | the login agent: discovery, identity, authorization, reconnection preference, transient lease, the queued connect intent, reconciliation |
| `OperationCompletion`, `ConnectionAction` | the operation owner the agent uses, and the client's admission rules |
| `LocationBrowser`, `LocationRuns` | the location browser: four requests and two bounded retry timers in one slot, and the search |
| `SettingsProtocol`, `SettingsProjection` | the three settings pages and their write gate |
| `ForegroundProtocol`, `Foreground`, `ForegroundRuns` | foreground operations, snapshot reads, reconciliation, packet capture and quitting |
| `Registration` | registering the Control Center with its backend |
| `QuitCoordinator` | quitting from the background |
| `PatchScanner` | the whitespace check for patches, against a grammar of unified diffs |
| `ExecQuoting` | the quoting of the Exec key, against a reader of quoted arguments |
| `ServerGroups`, `PinnedGroups` | what a server group is; pinned groups: percent-encoding, normalizing, toggling |
| `Features` | the three normalizations of server features |
| `SnapshotContract` | the snapshot contract and its upgrade from version 1 |
| `Text` | trimming, ASCII case mapping and simplification of text |

Assumption about the environment: the notice that the backend's name was registered comes only while
no owner is pinned, so it alternates with the notice that it was unregistered. The location browser,
the settings projections and the foreground controller require it, because
`VpnController::onServiceRegistered` (src/VpnControllerLifecycle.cpp:127-148) does not end searches
and settings requests. The agent and the registrar do not need it.

Findings, where the code does less than one might expect, each with its exact condition:

- Coming back into reach dispatches nothing. A refresh that became due while the backend was unreachable
  stays undone, and a query typed meanwhile unsent, even after the read that follows, exactly if the session
  was and is ready and signed in, nothing of that kind is under way and it is due:
  `LocationBrowser.OnSnapshotRead`. Over whole runs, `LocationRuns.UndoneExactlyIfOverlooked` shows that this
  is so at a moment exactly if it happened at the backend's last return, with no turn taken or query typed since.
  `LocationBrowsing.RefreshIsOverlooked` and `QueryIsOverlooked` are such runs.
- Quitting can leave a packet capture behind, in two ways and no others. Choosing an unusable folder drops the
  expectation of a start already acknowledged, and a stop asked for (src/VpnControllerActions.cpp:132-141). And a
  start not yet answered loses its turn when another capture call or a new session comes (its answer no longer
  counts, src/VpnControllerSnapshot.cpp:134-140, 363-366), so an idle snapshot, or the success of the later stop,
  clears every obligation although the owner may still carry the start out.
  `ForegroundProtocol.QuitLeavesBehindExactly` proves, by positions in the history only, that a grant or readiness
  to quit leaves a capture behind if and only if one of the two happened and no end was shown since.
  `Foreground.CaptureLeftBehind`, `StopRefusedFirst` and `SignedOutFirst` are such runs. A call that failed, also
  by a timeout, counts as answered.
- The pending mark of a refresh counts the reads on their way only until a pending refresh is given up: after
  three retries, with no retry armed, the mark is cleared while the read stays out
  (src/VpnControllerLifecycle.cpp:413-428). `ForegroundRuns.RunController` shows that the mark is exact all
  along exactly if that never happened; `Foreground.TwoReadsTogether` is a run with two reads out.
- A client whose registration was refused by name never registers again in the same process, even
  after the backend restarts (src/VpnControllerLifecycle.cpp:278-280); `Registration.RunRegistrar`
  proves it.

## Model

| member | source | states |
|---|---|---|
| AgentSafety.ConnectCarriesLatestIntent | src/AgentVpnClient.cpp:654-727 | every connect message of any run carries the most recently queued target or group; nothing replaced or cancelled it in between |
| AgentSafety.ConnectFitsTarget | src/AgentVpnClient.cpp:712-726 | over any run a group leaves as ConnectGroup, a target with # as ConnectServer, FASTEST as ConnectFastest exactly if the user last asked for no supported feature and otherwise as ConnectFastestWithFeatures with exactly the features asked for, and every other target as ConnectCountry |
| AgentSafety.EachIntentSentOnce | src/AgentVpnClient.cpp:681-739 | two connect messages never come from the same queued intent |
| AgentSafety.NoConnectAfterDisconnect | src/AgentVpnClient.cpp:211-222 | after a disconnect request no connect message leaves until a newer intent was queued |
| AgentSafety.ConnectHoldsLease | src/AgentVpnClient.cpp:564-628 | a connect message is sent only while a registration of this owner was acknowledged and not released since |
| AgentSafety.ConnectKnowsPreference | src/AgentVpnClient.cpp:519-562 | a connect message is sent only after the owner acknowledged exactly the latest reconnection choice, with no preference call open |
| AgentSafety.ConnectSeesPermission | src/AgentVpnClient.cpp:681-710 | a connect message is sent only on a latest reading that is healthy, ready, signed in, permitted by the account and in a state that admits connecting, and while nothing says that the owner is at work; an auto-connect only when disconnected |
| AgentSafety.LeaseMeansRegistered | src/AgentVpnClient.cpp:564-652 | the lease flag is set exactly when the last register or unregister message to the current owner was a register |
| AgentSafety.LeaseMessagesAlternate | src/AgentVpnClient.cpp:564-652 | register and unregister messages to one owner alternate, starting with a register |
| AgentSafety.LeaseSince | src/AgentVpnClient.cpp:564-652 | behind a lease there is the register message it began with, and nothing since that ended it |
| AgentSafety.LeaseKept | src/AgentVpnClient.cpp:564-652 | a registered owner stays registered until an unregister message or an owner change |
| AgentSafety.WantedIsLatestChoice | src/AgentVpnClient.cpp:132-145 | the preference in force is the last one the user chose, enabled if none was |
| AgentSafety.AppliedIsLatestChoice | src/AgentVpnClient.cpp:132-145 | an applied preference was sent and acknowledged with the current value, whatever toggles came while the call was open |
| AgentSafety.PreferenceSince | src/AgentVpnClient.cpp:519-562 | what is known of the owner's preference comes from one call and its successful reply, with no later call |
| AgentSafety.PreferenceCallsAreSequential | src/AgentVpnClient.cpp:519-549 | between two preference calls to one owner the first was answered or the owner changed |
| AgentSafety.PreferenceCallOpen | src/AgentVpnClient.cpp:519-549 | a preference call stays open until it is answered or the owner changes |
| AgentSafety.AuthorizesOnlyAfterFailure | src/AgentVpnClient.cpp:360-406 | an authorization is asked for again only after the only answer to the earlier call was a failure that settles nothing; the owner has granted none by then |
| AgentSafety.NeverAskedAfterRefusal | src/AgentVpnClient.cpp:360-392 | an owner that refused this client is not asked again before it changes |
| AgentSafety.RefusalStays | src/AgentVpnClient.cpp:387-392 | a refusal stays, with no call out, until the owner changes |
| AgentSafety.MessagesNeedAuthorization | src/AgentVpnClient.cpp:360-406 | every message but the authorization itself goes to an owner that authorized this client |
| AgentSafety.AuthorizedSince | src/AgentVpnClient.cpp:360-406 | authorized means that an authorization call of this owner was answered with success |
| AgentSafety.AuthorizationOutcome | src/AgentVpnClient.cpp:379-400 | a call for authorization is awaited until it is answered; a successful answer authorizes from then on, as long as the owner stays |
| AgentSafety.AuthorizationStays | src/AgentVpnClient.cpp:304-312 | once an owner has authorized this client, it stays authorized until the owner changes |
| AgentSafety.AuthorizedExactly | src/AgentVpnClient.cpp:360-406 | authorized at a moment exactly if this owner answered an authorization call with success before |
| AgentSafety.RepliesAnswerOnce | src/AgentVpnClient.cpp:314-330 | every answer belongs to one message sent before, and no other answer does |
| AgentSafety.AuthorizeCallSince | src/AgentVpnClient.cpp:360-378 | an authorization awaited was sent to the current owner and not answered yet |
| AgentSafety.HealthySince | src/AgentVpnClient.cpp:460-517 | a healthy state is the latest adopted reading, and no owner change followed it |
| AgentSafety.IdleExactly | src/AgentVpnClient.cpp:741-834 | the client counts the owner as idle exactly since a reading said so or the latest operation was refused, with no operation sent, no busy reading, no unanswered operation timed out and no owner change since |
| AgentSafety.QueuedSince | src/AgentVpnClient.cpp:654-679 | a queued intent is the last one the user queued, not yet replaced, cancelled or used |
| AgentGuarantees.LeaseIsNeverLeaked | src/AgentVpnClient.cpp:564-739 | in every reachable state a lease is pending or active, never both, exactly while the last lease message to this owner was a registration; it implies a queued intent or an operation, and an available backend |
| AgentGuarantees.PreferenceIsLinearized | src/AgentVpnClient.cpp:519-562 | exactly one live preference call while one is pending; an applied preference is the latest choice, acknowledged by this owner |
| AgentGuarantees.AuthorizationIsExact | src/AgentVpnClient.cpp:360-406 | exactly one live authorization while one is pending; the backend counts as available exactly if its present owner answered an authorization with success |
| AgentGuarantees.RegistrationIsExact | src/AgentVpnClient.cpp:564-601 | exactly one live registration while a lease is pending |
| AgentClient.AgentVpnClient.RunAgent | src/AgentVpnClient.cpp:132-834 | any sequence of user calls, answers, timers and signals keeps every invariant and produces a history the monitor accepts, to which every event contributed its own part |
| AgentClient.AgentVpnClient.Complete | src/AgentVpnClient.cpp:360-834 | any answer to any call in flight, stale or current, keeps every invariant and is recorded as the answer to that call |
| AgentClient.AgentVpnClient.SetReconnectionEnabled | src/AgentVpnClient.cpp:132-145 | the preference is stored; it is sent at once exactly if the owner is authorized, no call is open and it is not applied already |
| AgentClient.AgentVpnClient.SetFastestFeatures | src/AgentVpnClient.cpp:147-150 | keeps exactly the supported features asked for, whatever their case and spacing, each once and in the supported order |
| Features.NormalizedServerFeatures | src/AgentVpnClient.cpp:26-48 | the loop gives exactly the supported features asked for, in the supported order |
| Features.NormalizeServerFeatures | src/VpnControllerActions.cpp:32-60 | the strict form accepts exactly lists of at most four supported features, and then gives the same selection |
| Features.SelectionIsUnique | src/AppSettings.cpp:434-456 | what is asked for decides the selection: order, case, spaces and repetition do not matter |
| Features.SelectingTwice | src/AppSettings.cpp:256-257 | a stored selection is read back unchanged |
| AgentClient.AgentVpnClient.QueueConnection | src/AgentVpnClient.cpp:654-679 | an invalid target changes nothing; a valid one is recorded as the newest intent and waits unless it can be served at once |
| AgentClient.AgentVpnClient.ConnectGroup | src/AgentVpnClient.cpp:174-209 | a malformed group changes nothing; a valid one is recorded as the newest intent, normalized |
| AgentClient.AgentVpnClient.AutoConnect | src/AgentVpnClient.cpp:152-155 | queues a non-interactive intent served only from the disconnected state |
| AgentClient.AgentVpnClient.ConnectTarget | src/AgentVpnClient.cpp:169-172 | queues an interactive intent |
| AgentClient.AgentVpnClient.ActivatePrimaryAction | src/AgentVpnClient.cpp:157-167 | disconnects an established or failed connection or one being made, queues the fastest target for an idle signed-in session or an unreachable backend, and changes nothing otherwise |
| AgentClient.AgentVpnClient.DisconnectVpn | src/AgentVpnClient.cpp:211-222 | withdraws the queued intent first; then sends one disconnect if a healthy owner has something to end, and otherwise releases the lease |
| AgentClient.AgentVpnClient.ServeQueuedIntent | src/AgentVpnClient.cpp:669-678 | what a queued intent adds to the history at once: an authorization, a read, a registration and the preference, or its dispatch, as reach, health and gates say; without an owner the backend is looked for |
| AgentClient.AgentVpnClient.DispatchPendingConnection | src/AgentVpnClient.cpp:681-727 | with every gate open the intent is withdrawn, waits, or leaves as exactly one message, as the account and the state admit, and the message is the connect method its target or group asks for; with a gate closed nothing changes |
| AgentClient.AgentVpnClient.CallOperation | src/AgentVpnClient.cpp:741-764 | starts one operation that owns the lease from then on, by exactly one message |
| AgentClient.AgentVpnClient.ClearPendingConnection | src/AgentVpnClient.cpp:729-739 | no intent is queued afterwards, and its generation is the next one |
| AgentClient.AgentVpnClient.AcquireTransientLease | src/AgentVpnClient.cpp:564-589 | a queued intent of an authorized client has a lease or a pending registration afterwards |
| AgentClient.AgentVpnClient.ReleaseTransientLease | src/AgentVpnClient.cpp:630-652 | no lease remains; exactly one unregister message is sent if one may have existed |
| AgentClient.AgentVpnClient.OnLeaseReply | src/AgentVpnClient.cpp:589-627 | a granted lease dispatches the newest intent or is given back, a refusal withdraws only the intent it was asked for and asks again for a newer one, message by message; a stale reply changes nothing |
| AgentClient.AgentVpnClient.OnPreferenceReply | src/AgentVpnClient.cpp:537-561 | a reply overtaken by a newer choice sends that choice; a current one applies it and dispatches the queued intent, or withdraws the intent and its lease |
| AgentClient.AgentVpnClient.OnAuthorizeReply | src/AgentVpnClient.cpp:379-405 | success makes the backend available and sends exactly the preference, a read and the registration of a waiting intent; a refusal stays; another failure arms a retry |
| AgentClient.AgentVpnClient.ApplyReconnectionPreference | src/AgentVpnClient.cpp:519-536 | at most one preference call is out, carrying the current choice |
| AgentClient.AgentVpnClient.AuthorizeClient | src/AgentVpnClient.cpp:360-378 | asks for authorization unless that was refused, is pending or has nobody to ask |
| AgentClient.AgentVpnClient.RequestSnapshot | src/AgentVpnClient.cpp:417-458 | an available owner is sent one read stamped with the operation; one that has not authorized yet is asked to; without an owner the backend is looked for if activation is allowed |
| AgentClient.AgentVpnClient.ApplySnapshot | src/AgentVpnClient.cpp:460-517 | an unusable snapshot is recorded as such and withdraws the intent and the lease; an accepted one is recorded with its own fields, shown as it is, busy also if a message was sent at once, and dispatches the intent or settles the operation |
| AgentClient.AgentVpnClient.SettleOperation | src/AgentVpnClient.cpp:509-516 | a reconciled operation ends and releases its lease exactly when the adopted state is idle and nothing is queued |
| AgentClient.AgentVpnClient.OnSnapshotReply | src/AgentVpnClient.cpp:766-799 | a stale read adds only its answer; a failed current one ends the operation, the intent and the lease, and arms a retry after a transient failure; any other asks for a missing lease and adopts exactly the payload |
| AgentClient.AgentVpnClient.OnSnapshotSignal | src/AgentVpnClient.cpp:296-302 | only the pinned owner is heard; its payload is adopted as it is, the reading recorded and shown being the one that arrived |
| AgentClient.AgentVpnClient.OnOperationReply | src/AgentVpnClient.cpp:801-834 | a refused current operation ends and its lease is released unless an intent is queued; any other outcome is reconciled by exactly one read stamped with the operation; a stale reply changes nothing |
| AgentClient.AgentVpnClient.OnServiceRegistered | src/AgentVpnClient.cpp:224-262 | everything the previous owner was told or asked is void; the new owner is being identified |
| AgentClient.AgentVpnClient.OnServiceUnregistered | src/AgentVpnClient.cpp:264-294 | everything the owner was told or asked is void |
| AgentClient.AgentVpnClient.OnIdentity | src/AgentVpnClient.cpp:246-261 | an outdated answer changes nothing; an untrusted owner is not pinned; a trusted one is pinned and, unless this process has no bus name, asked for authorization |
| AgentClient.AgentVpnClient.OnDiscovery | src/AgentVpnClient.cpp:425-439 | an outdated look-up changes nothing; a present backend is taken as newly registered, an absent one ends the look-up |
| AgentClient.AgentVpnClient.OnInitialDiscovery | src/AgentVpnClient.cpp:92-98 | a backend found at start is taken as newly registered, unless one registered meanwhile |
| AgentClient.AgentVpnClient.OnRecoveryTimer | src/AgentVpnClient.cpp:79-87 | the retry sends one read to an available owner, and asks another pinned one for authorization |
| OperationCompletions.OperationCompletion.Begin | src/OperationCompletion.h:18-22 | a new operation owns replies from then on |
| OperationCompletions.OperationCompletion.Reconcile | src/OperationCompletion.h:29-34 | only the owner's awaited reply turns into reconciliation |
| OperationCompletions.OperationCompletion.Finish | src/OperationCompletion.h:35-40 | only the owner ends |
| OperationCompletions.OperationCompletion.SettleIfIdle | src/OperationCompletion.h:41-48 | only a reconciling owner settles, on an idle state |
| OperationCompletions.OperationCompletion.Invalidate | src/OperationCompletion.h:23-27 | no earlier owner counts any more |
| ConnectionAction.StartupTarget.Take | src/ConnectionAction.h:14-26 | over any observations the launch target is served at most once, only to a ready, signed-in, disconnected session that may connect |
| LocationBrowsing.SlotIsExact | src/VpnControllerLocations.cpp:156-390 | in every reachable state the slot is busy exactly while one call or timer is live; a group load makes at most 5 calls, a server load at most 3; shown server rows came for exactly the open group |
| LocationBrowsing.SearchSlotIsExact | src/VpnControllerLocations.cpp:51-96 | a search is pending exactly while one search call is live; results shown are for the current query, and their rows come from the reply to its latest call |
| LocationBrowsing.DueMeansRunnable | src/VpnControllerLocations.cpp:449-471 | the scheduler's turn is empty exactly when no flagged refresh is allowed by the page |
| LocationBrowsing.RefreshIsOverlooked | src/VpnControllerSnapshot.cpp:288-293 | a concrete run in which a refresh became due out of reach, and stays undone beside a free slot even after the answered read and its snapshot |
| LocationBrowsing.QueryIsOverlooked | src/VpnControllerSnapshot.cpp:288-292 | a concrete run in which a query typed out of reach stays unsent after the answered read and its snapshot, with no search pending |
| LocationBrowsing.LocationBrowser.SetBackendAvailable | src/VpnControllerLifecycle.cpp:349-357 | the only event that can leave a due refresh undone, or a query unsent, in a serving session without a new turn or query, and it does so exactly if the session is ready and signed in, was out of reach, nothing of that kind is under way and it is due |
| LocationBrowsing.LocationBrowser.OnSnapshotRead | src/VpnControllerSnapshot.cpp:298-335 | an answered read makes the backend available and adopts its snapshot; a due refresh is left undone, and a query unsent, exactly if the session was ready and signed in before and stays so, nothing of that kind was under way and it was due |
| LocationRuns.UndoneExactlyIfOverlooked | src/VpnControllerSnapshot.cpp:288-293 | at any moment of any course of events a due refresh is undone, or a query unsent, exactly if the last return of the backend into reach overlooked it, with no turn taken (or query typed) and no session lost since |
| LocationRuns.RunBrowser | src/VpnControllerLocations.cpp:20-671 | in any run each moment shows the session as the last event told it, and a due refresh of a serving session is undone at the end, and a query unsent, exactly if the last return of the backend, by an answered read or registration, overlooked it |
| LocationRuns.React | src/VpnControllerLocations.cpp:20-671 | each event keeps every invariant; after a turn of the scheduler nothing due is left undone and after a new query nothing unsent, and without one only the return of the backend into reach can leave it |
| LocationBrowsing.LocationBrowser.Dispatch | src/VpnControllerLocations.cpp:449-471 | in a serving session a free slot loads the open group's servers if they are due, else the country's groups, else the countries, else the loads, and clears exactly that flag; nothing due and runnable remains |
| LocationBrowsing.LocationBrowser.LoadCountries | src/VpnControllerLocations.cpp:20-49 | starts the call, or leaves the flag |
| LocationBrowsing.LocationBrowser.LoadServerGroups | src/VpnControllerLocations.cpp:123-175 | shows the country, emptied if it is another one, and starts the call or leaves the flag; a malformed code changes nothing |
| LocationBrowsing.LocationBrowser.LoadGroupServers | src/VpnControllerLocations.cpp:236-305 | shows the group as a new visit, emptied if it is another one, and starts the call or leaves the flag; malformed input changes nothing |
| LocationBrowsing.LocationBrowser.RequestServerLoads | src/VpnControllerLocations.cpp:417-447 | starts the call, leaves the flag while busy, or does nothing |
| LocationBrowsing.LocationBrowser.OnCountriesReply | src/VpnControllerLocations.cpp:491-515 | a live reply frees the slot for the next turn, shows its rows and searches the current query again; a stale one changes nothing |
| LocationBrowsing.LocationBrowser.OnGroupsReply | src/VpnControllerLocations.cpp:549-589 | a live failure or empty list of the shown country arms a retry up to the bound, anything else frees the slot; rows are shown only for the shown country |
| LocationBrowsing.LocationBrowser.OnGroupsTimer | src/VpnControllerLocations.cpp:177-208 | a live expired retry sends the next call, or frees the slot if the page moved or the session cannot serve |
| LocationBrowsing.LocationBrowser.OnServersReply | src/VpnControllerLocations.cpp:591-642 | server rows are shown only for exactly the open visit that asked for them; failures and empty lists are retried up to the bound |
| LocationBrowsing.LocationBrowser.OnServersTimer | src/VpnControllerLocations.cpp:307-344 | a live expired retry sends the next call of the same visit, or frees the slot |
| LocationBrowsing.LocationBrowser.OnLoadsReply | src/VpnControllerLocations.cpp:644-671 | a live reply frees the slot and changes the loads of the rows it names, never the rows |
| LocationBrowsing.UpdatedLoads | src/ServerModel.cpp:100-130 | every row stays, with the new load if the reply names it and the old one otherwise |
| LocationBrowsing.LocationBrowser.SearchLocations | src/VpnControllerLocations.cpp:51-96 | shows the query at once and sends it only if no search is pending |
| LocationBrowsing.LocationBrowser.ClearLocationSearch | src/VpnControllerLocations.cpp:98-101 | retires the query, not the call in flight |
| LocationBrowsing.LocationBrowser.OnSearchReply | src/VpnControllerLocations.cpp:516-547 | results are shown only from the reply to the call for the current query; an outdated reply searches again |
| LocationBrowsing.LocationBrowser.ClaimServerContext | src/VpnControllerLocations.cpp:103-111 | a valid claim gets a new context and opens the country |
| LocationBrowsing.LocationBrowser.ReleaseServerContext | src/VpnControllerLocations.cpp:113-121 | only the latest claim resets the pages, and the slot goes to a due country refresh |
| LocationBrowsing.LocationBrowser.ClaimGroupServerContext | src/VpnControllerLocations.cpp:210-224 | a valid claim gets a new context and opens the group |
| LocationBrowsing.LocationBrowser.ReleaseGroupServerContext | src/VpnControllerLocations.cpp:226-234 | only the latest claim resets the group page, and the slot takes its next turn |
| LocationBrowsing.LocationBrowser.ResetServerContext | src/VpnControllerLocations.cpp:346-369 | nothing of the pages survives, the running request no longer counts, and a due country refresh runs |
| LocationBrowsing.LocationBrowser.ResetGroupServerContext | src/VpnControllerLocations.cpp:371-390 | the group page is left, the running request no longer counts, and the next turn runs |
| LocationBrowsing.LocationBrowser.OnServerDataChanged | src/VpnControllerSnapshot.cpp:29-52 | flags exactly the shown pages, or their loads, and takes the next turn |
| LocationBrowsing.LocationBrowser.ApplySnapshot | src/VpnControllerSnapshot.cpp:126-147 | a session change frees the slot; signing out forgets everything; a session that becomes able to serve takes the next turn |
| LocationBrowsing.LocationBrowser.OnServiceRegistered | src/VpnControllerLifecycle.cpp:127-148 | a new owner frees the slot and makes earlier calls stale |
| LocationBrowsing.LocationBrowser.OnServiceUnregistered | src/VpnControllerLifecycle.cpp:169-252 | everything is forgotten and every call in flight is stale |
| Text.SimplifyingTwice | src/VpnControllerLocations.cpp:53-54 | a simplified query is simplified again unchanged |
| Text.CodeIsNormal | src/VpnControllerLocations.cpp:125 | a normalized country code is trimmed and upper-case |
| Text.TrimTakesBlanks | src/VpnControllerLocations.cpp:53-54 | trimming takes blanks, tabs, line breaks and form feeds off both ends and nothing else |
| SettingsProtocol.WriteGate | src/SettingsRequestState.h:10-43 | within a session no write is sent after one whose answer did not come in time or could not be read, until a read issued later has succeeded |
| SettingsProtocol.EachWriteWasJustAskedFor | src/VpnControllerSettings.cpp:123-145 | every write is sent directly for a user update with the same patch; none is replayed |
| SettingsProtocol.RequestsAreSequential | src/SettingsRequestState.h:16-43 | between two requests of a projection the first was answered or the session ended |
| SettingsProtocol.UnconfirmedExactly | src/SettingsRequestState.h:32-57 | the unconfirmed mark stands exactly for a write whose answer did not come in time or could not be read, and that no newer write or session end followed |
| SettingsProtocol.LiveSince | src/SettingsRequestState.h:21-43 | a request in progress is the last one sent |
| SettingsProjections.PhaseIsOneLiveCall | src/SettingsRequestState.h:16-49 | reading, writing and confirming coincide with exactly one live call, and the model is busy exactly when the request is |
| SettingsProjections.RunProjection | src/VpnControllerSettings.cpp:30-145 | any run of a projection satisfies the write gate and sends writes only for user updates; every live answer is recorded as what it was |
| SettingsProjections.SettingsRequestState.BeginRead | src/SettingsRequestState.h:21-25 | a needed read is a confirming one |
| SettingsProjections.SettingsRequestState.BeginWrite | src/SettingsRequestState.h:26-31 | a new intent replaces the unconfirmed one |
| SettingsProjections.SettingsRequestState.Complete | src/SettingsRequestState.h:32-43 | an older reply is ignored; an unresolved outcome needs a read, any other ends the request |
| SettingsProjections.SettingsRequestState.Invalidate | src/SettingsRequestState.h:44-49 | ends the request and makes earlier replies old |
| SettingsProjections.SettingsProjection.Load | src/VpnControllerSettings.cpp:30-55 | reads unless a request is in progress; a write of unknown outcome keeps its notice |
| SettingsProjections.SettingsProjection.Update | src/VpnControllerSettings.cpp:57-145 | admits at most one write, for a valid value and an open gate |
| SettingsProjections.SettingsProjection.OnReply | src/VpnControllerSettings.cpp:489-541 | only the live reply counts; a write that timed out or came back unreadable stays unconfirmed and is read back as soon as the session can serve, any other answer settles it; a settled read never claims the earlier write succeeded |
| SettingsProjections.SettingsProjection.ApplySnapshot | src/VpnControllerSnapshot.cpp:239-287 | a needed confirmation is read again on an idle snapshot; the VPN settings are read when they were not loaded or the state changed, and otherwise nothing is sent; no snapshot sends a write |
| SettingsProjections.SettingsProjection.OnChanged | src/VpnControllerSnapshot.cpp:54-63 | values announced by the owner are shown while signed in |
| SettingsProjections.SettingsProjection.OnServiceUnregistered | src/VpnControllerLifecycle.cpp:262-267 | the request ends with its owner |
| ForegroundProtocol.OutcomeNamesLatestOperation | src/VpnControllerSnapshot.cpp:337-582 | an announced outcome is the first since the most recent start and names it; success only directly after that operation's own successful reply |
| ForegroundProtocol.AtMostOneOutcome | src/VpnControllerSnapshot.cpp:421-447 | no operation has two outcomes |
| ForegroundProtocol.ReconciliationNeedsFreshRead | src/VpnControllerSnapshot.cpp:119-122 | a wait for a timed-out operation is ended by a snapshot only after a read sent during the wait was adopted and the state was idle |
| ForegroundProtocol.WaitsAfterTimeout | src/VpnControllerSnapshot.cpp:394-428 | a wait is opened only directly after an answer that did not come in time |
| ForegroundProtocol.ReadyOncePerDeferral | src/VpnControllerActions.cpp:206-221 | readiness for shutdown is announced at most once for each deferred request |
| ForegroundProtocol.QuitsAfterEnd | src/VpnControllerActions.cpp:189-221 | between any start or sighting of a capture and any grant or readiness to quit, its end was shown with every start answered: by a stop sent after the last start, by an idle snapshot without it, by a snapshot without it after one with it, or by the loss of the owner. Otherwise an unusable folder was chosen during it, or a start was overtaken before its answer |
| ForegroundProtocol.RefusedExactly | src/VpnControllerActions.cpp:132-141 | the monitor counts a capture as refused exactly since an unusable folder was chosen while one may have been running, with nothing started, no stop asked for and no end shown since |
| ForegroundProtocol.OwedExactly | src/VpnControllerSnapshot.cpp:178-204 | the monitor counts a capture as owed exactly if one was started or seen and no event since has shown its end |
| ForegroundProtocol.OvertakenExactly | src/VpnControllerSnapshot.cpp:134-140 | a start counts as overtaken exactly since another capture call or a new session came before its answer, with no end shown since |
| ForegroundProtocol.ObligedExactly | src/VpnControllerActions.cpp:189-204 | the monitor has something to wait for exactly if the latest snapshot shows a capture, a start is expected to show, a stop is asked for, or a capture call of this session is unanswered |
| ForegroundProtocol.LeftBehindExactly | src/VpnControllerActions.cpp:133-187 | at any moment with nothing to wait for, a capture may still run or start exactly if it was refused or overtaken in these ways |
| ForegroundProtocol.QuitLeavesBehindExactly | src/VpnControllerActions.cpp:189-221 | at any grant or readiness to quit, a capture may still run or start exactly if it was refused or overtaken in these ways |
| ForegroundProtocol.StartedSince | src/VpnControllerActions.cpp:535-539 | an unfinished operation is the last one started |
| ForegroundProtocol.OpenSince | src/VpnController.cpp:288-309 | an open wait began with a failed reply, and every read it counts was sent since |
| ForegroundProtocol.ConnectionsOnlyGrow | src/VpnControllerActions.cpp:535-539 | operation numbers only grow, and a finished operation stays finished |
| ForegroundRuns.RunController | src/VpnControllerSnapshot.cpp:87-582 | in any run, to whose history every event contributed its own part, every outcome is the first since its start and no operation has two; waits begin with a missing answer and end by a fresh read and an idle snapshot; quitting is allowed only when the history gives nothing to wait for, and leaves a capture behind exactly in the two ways known; reads stay exact exactly if no pending refresh was given up |
| Foreground.CapturePendingIsExact | src/VpnControllerActions.cpp:528-534 | a capture operation is pending exactly while one call of the current capture generation is out |
| Foreground.QuitAbandonsExactly | src/VpnControllerActions.cpp:189-204 | in every reachable state the flags keep the client from quitting exactly if the history gives something to wait for; if they do not, a capture may still run or start exactly if it was refused or overtaken |
| Foreground.CaptureLeftBehind | src/VpnControllerActions.cpp:133-141 | a concrete run: a capture is started and acknowledged, an unusable folder chosen, and quitting granted at once |
| Foreground.StopRefusedFirst | src/VpnControllerActions.cpp:145-187 | a concrete run: a stop overtakes a start and is refused, an idle snapshot arrives, and quitting is granted while the start is unanswered |
| Foreground.SignedOutFirst | src/VpnControllerSnapshot.cpp:134-140 | a concrete run: an idle snapshot of a signed-out session arrives before a start is answered, and quitting is granted |
| Foreground.PendingCountsReads | src/VpnController.cpp:288-309 | in every reachable state the pending mark counts the reads on their way exactly while none is left over from a refresh given up |
| Foreground.OneCallDecides | src/VpnControllerActions.cpp:526-527 | at most one call decides the current operation, and none while its outcome is reconciled |
| Foreground.TwoReadsTogether | src/VpnControllerLifecycle.cpp:413-428 | a concrete run in which giving up clears the pending mark of a read still on its way, and a second read is sent |
| Foreground.ForegroundController.OnRetryTimer | src/VpnControllerLifecycle.cpp:432-434 | the expired retry reads again unless a read is pending |
| Foreground.ForegroundController.CallOperation | src/VpnControllerActions.cpp:513-564 | begins one operation by one call, retiring the wait for an earlier one; a capture may be stopped on an unhealthy snapshot |
| Foreground.ForegroundController.ConnectTarget | src/VpnControllerActions.cpp:360-373 | begins a connect operation exactly for a reachable, healthy, idle session of a signed-in account that is disconnected, connected or failed |
| Foreground.ForegroundController.ActivatePrimaryAction | src/VpnControllerActions.cpp:94-104 | connects from the disconnected state and disconnects otherwise, each exactly if the session admits it |
| Foreground.ForegroundController.Disconnect | src/VpnControllerActions.cpp:718-754 | a disconnect takes over the foreground operation by one control call |
| Foreground.ForegroundController.CallControl | src/VpnControllerActions.cpp:718-754 | other control calls leave the operation in progress alone |
| Foreground.ForegroundController.CallSecret | src/VpnControllerActions.cpp:581-634 | asks a healthy backend for a key first; an unreachable one ends the operation at once |
| Foreground.ForegroundController.SubmitSecret | src/VpnControllerActions.cpp:419-440 | a sign-in step is refused while signed in, busy or not ready, and every protected call while the account needs recovery; an admitted one sends the key call, as the operation itself if it shows as busy |
| Foreground.ForegroundController.CallAccount | src/VpnControllerActions.cpp:442-483 | refused in need of recovery, otherwise begun as an operation |
| Foreground.ForegroundController.OnKeyReply | src/VpnControllerActions.cpp:635-715 | only the key of the current operation and session sends it |
| Foreground.ForegroundController.OnConnectReply | src/VpnControllerSnapshot.cpp:337-471 | the current connect operation is acknowledged by success and refused by a failure, without a wait; a missing answer announces nothing and opens the wait; a stop asked for is sent if it is due; a superseded answer changes nothing |
| Foreground.ForegroundController.OnAccountReply | src/VpnControllerSnapshot.cpp:357-471 | the current account operation ends, waits for a fresh read after a missing answer, or is followed by a read, and a stop asked for is sent if it is due; a superseded answer changes nothing |
| Foreground.ForegroundController.OnCaptureReply | src/VpnControllerSnapshot.cpp:363-464 | exactly what follows each answer: an acknowledged start is stopped at once if that was asked for, a failed one is read after and then stopped if asked for, a successful stop clears every obligation and completes a shutdown; a superseded answer changes no capture field |
| Foreground.ForegroundController.OnControlReply | src/VpnControllerSnapshot.cpp:473-582 | a control reply decides only for its own session and operation |
| Foreground.ForegroundController.StartPacketCapture | src/VpnControllerActions.cpp:124-143 | a usable folder begins a capture; an unusable one starts nothing, and drops what was expected or asked of an earlier capture |
| Foreground.ForegroundController.StopPacketCapture | src/VpnControllerActions.cpp:145-161 | records the stop and sends it as soon as it can be sent; never drops an obligation |
| Foreground.ForegroundController.DispatchStop | src/VpnControllerActions.cpp:163-187 | the stop takes over as the operation in progress exactly if it was asked for, is not under way, the backend is ready and the capture runs, may start or need not be confirmed |
| Foreground.ForegroundController.RequestShutdown | src/VpnControllerActions.cpp:189-204 | granted exactly when the history gives nothing to wait for, otherwise deferred, and the stop asked for and sent if it is due; a grant leaves a capture behind exactly if it was refused or overtaken |
| Foreground.ForegroundController.CompleteShutdownIfSafe | src/VpnControllerActions.cpp:206-221 | a deferred request is answered exactly when the history gives nothing to wait for; the answer leaves a capture behind exactly if it was refused or overtaken |
| Foreground.ForegroundController.ApplySnapshot | src/VpnControllerSnapshot.cpp:87-296 | no snapshot acknowledges a connection; an accepted one shows its own fields, settles what it confirms, then a due stop is sent or a deferred shutdown completed, and nothing else happens |
| Foreground.ForegroundController.Adopt | src/VpnControllerSnapshot.cpp:119-262 | an idle snapshot ends the wait exactly if a read stamped with it was adopted, and reports the operation unconfirmed |
| Foreground.ForegroundController.AdoptCapture | src/VpnControllerSnapshot.cpp:178-204 | an idle, inactive snapshot settles every settled capture obligation; a pending one is untouched |
| Foreground.ForegroundController.OnSnapshotReply | src/VpnControllerSnapshot.cpp:298-335 | a stale read changes nothing; a failed one is unhealthy; an accepted one shows its own fields and retires the retries, and a wait it was sent too early for has a new read under way |
| Foreground.ForegroundController.OnSnapshotSignal | src/VpnControllerSnapshot.cpp:21-27 | a signal never marks a wait as observed and never ends one that was not |
| Foreground.ForegroundController.Refresh | src/VpnController.cpp:288-309 | one read, stamped with the wait it may settle |
| Foreground.ForegroundController.ScheduleRetry | src/VpnControllerLifecycle.cpp:413-435 | three retries, then the backend is given up as unresponsive; reads stay exact unless it is given up with a refresh pending |
| Foreground.ForegroundController.OnRegistered | src/VpnControllerLifecycle.cpp:391-396 | a registered client is available, tells a healthy owner its preference and reads the state unless a read is pending |
| Foreground.ForegroundController.OnRegistrationRejected | src/VpnControllerLifecycle.cpp:373-386 | a refused client is unavailable, not ready and not busy |
| Foreground.ForegroundController.OnServiceRegistered | src/VpnControllerLifecycle.cpp:127-148 | a new owner has no capture obligations and no retries |
| Foreground.ForegroundController.OnServiceUnregistered | src/VpnControllerLifecycle.cpp:169-274 | the loss of the owner forgets its state and every capture obligation, makes all calls stale and answers a deferred shutdown |
| Registration.RegistrationIsExact | src/ClientRegistrationState.h:12-54 | one registration is out exactly while one is in flight, and none is once it succeeded |
| Registration.RunRegistrar | src/VpnControllerLifecycle.cpp:276-411 | any run keeps trying to register unless the client was refused or the owner is not trusted; a refusal is final; each owner that comes or goes begins a new era, in which earlier answers are stale |
| Registration.ClientRegistrationState.Begin | src/ClientRegistrationState.h:21-28 | starts only if nothing is in flight or registered |
| Registration.ClientRegistrationState.Complete | src/ClientRegistrationState.h:30-38 | a reply of an earlier service changes nothing |
| Registration.ClientRegistrationState.ServiceChanged | src/ClientRegistrationState.h:40-45 | earlier replies are stale from then on |
| Registration.Registrar.RegisterClient | src/VpnControllerLifecycle.cpp:276-325 | an unpinned service is looked up once, or its identity awaited; a pinned one is sent one registration; a refused client does nothing |
| Registration.Registrar.OnReply | src/VpnControllerLifecycle.cpp:359-397 | a current refusal by name stops for good, another failure retries, success registers |
| Registration.Registrar.OnIdentity | src/VpnControllerLifecycle.cpp:150-166 | only a trusted owner is pinned and registered with |
| Registration.Registrar.ScheduleRetry | src/VpnControllerLifecycle.cpp:399-411 | one timer at a time, with delays doubling up to 32 seconds |
| Registration.DelayDoubles | src/VpnControllerLifecycle.cpp:404-410 | the delay starts at one second, doubles with each retry and stays at 32 seconds |
| PatchScanner.ScannerIsGrammar | scripts/check-patch-whitespace.py:39-80 | the scanner accepts exactly the sequences of outside lines and complete hunks, and then reports exactly the bad added lines of any such reading |
| PatchScanner.UsesIsCounting | scripts/check-patch-whitespace.py:57-76 | counting down line by line recognizes exactly the hunk bodies that hold as many old and new lines as declared and end with the line that completes them |
| PatchScanner.MarksAreCounted | scripts/check-patch-whitespace.py:60-74 | a hunk body holds as many old lines as lines with a minus or space first or none at all, and as many new ones as lines with a plus or space first or none |
| PatchScanner.FailuresExact | scripts/check-patch-whitespace.py:39-80 | in a whole document a number is reported exactly if the line of that number is an added one of a hunk body that ends in a space or tab |
| PatchScanner.ReportIsExact | scripts/check-patch-whitespace.py:39-80 | the report on any accepted document is exactly those numbers, in increasing order |
| PatchScanner.BadMeansTrailing | scripts/check-patch-whitespace.py:60-65 | the lines counted as bad are exactly those with a plus first and a space or tab last |
| PatchScanner.AddedTrailingWhitespace | scripts/check-patch-whitespace.py:39-80 | the loop computes the scanner's verdict, error kind and line number included |
| PatchScanner.TakeLine | scripts/check-patch-whitespace.py:45-76 | one line's verdict, by its first characters and the counts left: plus, minus, space or empty, notice, header, anything else |
| PatchScanner.DocumentIsAccepted | scripts/check-patch-whitespace.py:45-80 | every document of the grammar is accepted with its bad lines |
| PatchScanner.AcceptedIsDocument | scripts/check-patch-whitespace.py:45-80 | every accepted input is a document of the grammar |
| PatchScanner.BodyFailuresExact | scripts/check-patch-whitespace.py:60-65 | in a hunk exactly the added lines that end in a space or tab are reported, in increasing order |
| PatchScanner.FailuresIncrease | scripts/check-patch-whitespace.py:39-80 | the reported line numbers increase |
| PatchScanner.HeaderExact | scripts/check-patch-whitespace.py:16-18 | a line is read as a header with certain counts exactly if it is one, a missing count being 1 |
| PatchScanner.ValueReadsDecimal | scripts/check-patch-whitespace.py:52-53 | a number in a header is read as the number whose decimal digits were written, with or without leading zeros |
| PatchScanner.NumeralIsDecimal | scripts/check-patch-whitespace.py:52-53 | every run of digits is what is written of the number it is read as |
| PatchScanner.PatchLines | scripts/check-patch-whitespace.py:21-36 | refuses exactly bare carriage returns and mixed endings; otherwise the lines joined with the one terminator are the file |
| PatchScanner.LinesRejoin | scripts/check-patch-whitespace.py:30-36 | splitting loses nothing, with or without a final terminator |
| PatchScanner.WithoutCrLf | scripts/check-patch-whitespace.py:23-28 | removing all CRLF pairs leaves a CR or LF exactly if one was unpaired |
| ExecQuoting.Quote | src/AutostartSettings.cpp:62-73 | the five replacements in order give the one-pass escape between quotes |
| ExecQuoting.ReplacementsAreOnePass | src/AutostartSettings.cpp:66-70 | no replacement touches another's output, for any path |
| ExecQuoting.QuotingIsFaithful | src/AutostartSettings.cpp:62-73 | whatever follows, the quoted text is read as exactly one argument that expands to the path |
| ExecQuoting.UnquoteExactly | src/AutostartSettings.cpp:62-73 | between quotes exactly the text with its quote, backtick, dollar and backslash escaped is read as that text |
| ExecQuoting.ExpandExactly | src/AutostartSettings.cpp:66-70 | field codes expand to a text exactly if its percent signs were doubled |
| PinnedGroups.DecodeGroupEncoded | src/AppSettings.cpp:382-404 | a stored group is read back unchanged, even with separators or percent signs in its name |
| PinnedGroups.DecodeEncoded | src/AppSettings.cpp:382-404 | percent-decoding undoes percent-encoding |
| PinnedGroups.EncodedIsPlain | src/AppSettings.cpp:384 | encoded names hold unreserved characters and escapes only |
| PinnedGroups.NormalIsKept | src/AppSettings.cpp:359-380 | normalizing a normalized group changes nothing |
| PinnedGroups.NormalizeGivesNormal | src/AppSettings.cpp:359-380 | what normalizing accepts is normalized |
| ServerGroups.GroupExactly | src/AppSettings.cpp:359-380 | a server group is two capital letters, one of two kinds, and a name of 1 to 256 characters without line breaks or NUL |
| PinnedGroups.NormalizeGroups | src/AppSettings.cpp:406-422 | the listed groups are the first 20 distinct valid ones, in order |
| PinnedGroups.ListIsKept | src/AppSettings.cpp:406-422 | storing a list and reading it back gives the same list |
| PinnedGroups.ListedIsPinnable | src/AppSettings.cpp:406-422 | whatever is stored, the list is distinct, normalized and within 20 |
| PinnedGroups.ToggledIsPinnable | src/AppSettings.cpp:163-173 | toggling changes exactly one group and keeps the list distinct, normalized and within 20 |
| PinnedGroups.TogglingTwice | src/AppSettings.cpp:163-173 | pinning and unpinning restores the list |
| PinnedGroups.AppSettings.TogglePinnedServerGroup | src/AppSettings.cpp:154-180 | a confirmed save shows exactly the toggled list; an immutable entry keeps its value and is reported as not saved |
| PinnedGroups.AppSettings.WriteSetting | src/AppSettings.cpp:301-325 | an immutable entry keeps what the store held; a write counts as saved exactly if it was written, synced and read back; what is stored is what is shown |
| SnapshotContract.NormalizeSnapshot | src/SnapshotCompatibility.h:19-43 | the verdict and the object afterwards, for every object and for none |
| SnapshotContract.NormalizingIsIdempotent | src/SnapshotCompatibility.h:19-43 | accepted means exactly the fields of version 2; normalizing again changes nothing |
| SnapshotContract.UpgradeConforms | src/SnapshotCompatibility.h:35-42 | every valid version 1 snapshot upgrades to a valid version 2 snapshot, keeping all other fields |
| SnapshotContract.Validate | src/SnapshotContract.generated.h:113-139 | valid exactly if the object has exactly the named fields with their types; otherwise the first problem is named |
| SnapshotContract.SizeAndNamesSuffice | src/SnapshotContract.generated.h:113-137 | the size and the table's fields together exclude any other field |
| SnapshotContract.TablesAreDistinct | src/SnapshotContract.generated.h:18-111 | both tables name each field once |
| SnapshotContract.KeysOfV2 | src/SnapshotContract.generated.h:78-111 | version 2 adds exactly three fields |
| SnapshotContract.ValidExactly | src/SnapshotContract.generated.h:78-139 | a version 2 snapshot is valid exactly if it has all 32 names and no other, with 13 truth values, 5 whole numbers and 14 texts, each under its own name |
| SnapshotContract.ValidV1Exactly | src/SnapshotContract.generated.h:18-76 | a version 1 snapshot is valid exactly if it has these names and types without the three addresses |
| QuitCoordinator.RequestsAreConserved | src/BackgroundQuitCoordinator.cpp:33-48 | accepted requests equal readiness plus timeouts plus a pending one |
| QuitCoordinator.RunCoordinator | src/BackgroundQuitCoordinator.cpp:17-66 | in any run the timer runs exactly while a request is pending, and readiness is announced only to an idle, disconnected controller |
| QuitCoordinator.BackgroundQuitCoordinator.DisconnectAndQuit | src/BackgroundQuitCoordinator.cpp:33-48 | whatever snapshots the disconnect announces before it returns, the request has at most one outcome, and one request while another is pending changes nothing |
| QuitCoordinator.BackgroundQuitCoordinator.OnSnapshotChanged | src/BackgroundQuitCoordinator.cpp:50-58 | a pending request becomes ready exactly on an idle, disconnected snapshot |
| QuitCoordinator.BackgroundQuitCoordinator.OnTimeout | src/BackgroundQuitCoordinator.cpp:19-25 | a timeout ends the pending request once |

## Left out

- D-Bus transport, timers' durations and systemd calls: answers and expired timers are events that may come at any time.
- Identity checks by process, file and user (src/BackendIdentity.cpp): one answer, a trusted owner or none.
- Protected payloads (src/SecretTransport.cpp): whether a payload could be protected is an input.
- JSON parsing: replies are parsed rows, maps or malformed; snapshots other than their upgrade are records of the fields used.
- Item models, proxies, QML, tray, notifications, shortcuts, surveys, support reports and message texts: only what the protocols read is kept.
- Merging and sorting of country rows into search results: the results name the query, the country list and the reply rows they come from.
- Validation of single settings values (src/VpnControllerSettings.cpp:63-121, 183-227, 379-414): the verdict is an input.
- Synchronous re-entry from emitted signals, except in the quit coordinator: each event runs to its end.
- One VpnController object: the browser, the settings, the foreground controller and the registrar are separate classes that each carry the session fields they read, so a snapshot is an event of each.
- Locale, Unicode and UTF-8: text is ASCII or bytes, so trimming and case mapping are the ASCII ones.
- Wrap-around of 64-bit generation counters: they are unbounded.
- Percent-decoding of malformed escapes: they stand for themselves, as only encoded text is promised to decode.
- Python's limit on the digits of a number: a hunk header with thousands of digits is read as its number.
- KConfig storage: what a write leaves in the store is an input.
- `restartBackend` and the restart that follows a sign-out: the call to systemd is not modelled, only that no read follows.
- Pinned servers, icon styles and single feature toggles of the settings: they would only add easy members.
- Update: whether a settings value is valid is an input of the event, so which values are refused is not stated.
- Clamping of loads to 0..100 and skipping of unnamed loads (src/ServerModel.cpp): the map of loads is as parsed.
