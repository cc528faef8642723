/**
 The Control Center's location browser (src/VpnControllerLocations.cpp): four kinds of request and
 two bounded retry timers share one slot, refreshes that cannot run yet leave a flag, and a separate
 search slot serves only the latest query. Every public method is one event of the main loop.
 */
module LocationBrowsing {
  import Text
  import ServerGroups

  datatype Server = Server(name: string, load: int)

  /** A list reply after parsing. */
  datatype Listing<T> = Malformed | Rows(rows: seq<T>)

  datatype Reply<T> = Failed | Answered(listing: Listing<T>)
  {
    predicate HasRows() {
      Answered? && listing.Rows?
    }

    /** A failure or an empty list may be a passing inconsistency, a malformed list is not. */
    predicate Retryable() {
      Failed? || (listing.Rows? && listing.rows == [])
    }
  }

  const GROUP_RETRIES := 4
  const SERVER_RETRIES := 2

  /** A call in flight or an armed retry timer, with what it was sent or armed for. */
  datatype Request =
    | Countries
    | Groups(country: string, retry: nat)
    | GroupsTimer(country: string, retry: nat)
    | Servers(country: string, kind: string, name: string, generation: nat, retry: nat)
    | ServersTimer(country: string, kind: string, name: string, generation: nat, retry: nat)
    | Loads(country: string)
  {
    /** How many calls its load has made so far. */
    function Attempts(): nat {
      match this
      case Countries => 1
      case Loads(_) => 1
      case Groups(_, retry) => retry + 1
      case GroupsTimer(_, retry) => retry + 1
      case Servers(_, _, _, _, retry) => retry + 1
      case ServersTimer(_, _, _, _, retry) => retry + 1
    }

    /** It names a page, and a retry timer is armed only if the load has another call left. */
    predicate Proper() {
      match this
      case Groups(_, retry) => retry <= GROUP_RETRIES
      case GroupsTimer(_, retry) => retry < GROUP_RETRIES
      case Servers(country, kind, name, _, retry) => country != "" && kind != "" && name != "" && retry <= SERVER_RETRIES
      case ServersTimer(country, kind, name, _, retry) => country != "" && kind != "" && name != "" && retry < SERVER_RETRIES
      case _ => true
    }
  }

  datatype Carrier = Carrier(request: Request, backend: nat, session: nat, ticket: nat)

  datatype SearchCall = SearchCall(query: string, generation: nat, backend: nat, session: nat)

  datatype Session = Session(pinned: bool, available: bool, ready: bool, loggedIn: bool, backend: nat, session: nat) {
    predicate CanServe() {
      available && ready && loggedIn
    }
  }

  /** A snapshot as it was read. */
  datatype Reading = Unusable | Usable(ready: bool, loggedIn: bool)

  datatype Slot = Slot(busy: bool, ticket: nat)

  datatype Flags = Flags(countries: bool, groups: bool, servers: bool, loads: bool)

  datatype Page = Page(country: string, kind: string, name: string, generation: nat) {
    predicate GroupOpen() {
      country != "" && kind != "" && name != ""
    }

    /** Pages hold only normalized text, so reloading the current page is always admitted. */
    predicate Normal() {
      && (country != "" ==> NormalCountry(country))
      && (kind != "" ==> ServerGroups.IsKind(kind))
      && Text.Trimmed(name)
    }

    function Closed(): Page {
      Page("", "", "", generation + 1)
    }
  }

  datatype Search = Search(query: string, generation: nat, busy: bool, requestPending: bool)

  /** What the search page shows: nothing, or results for a query from the country list and a reply's rows. */
  datatype SearchModel = Cleared | Computed(query: string, countries: seq<string>, rows: seq<string>)

  /** What is on its way, by number. */
  datatype Bus<T> = Bus(calls: map<nat, T>, next: nat) {
    function Add(call: T): Bus<T> {
      Bus(calls[next := call], next + 1)
    }

    function Remove(id: nat): Bus<T> {
      Bus(calls - {id}, next)
    }
  }

  datatype Holder = NoHolder | HeldBy(id: nat)

  /** What the busy slot waits for, and how many calls its load has made. */
  datatype Held = NotHeld | Held(id: nat, attempts: nat) {
    predicate By(carrier: nat) {
      Held? && id == carrier
    }
  }

  /** What the progress of the scheduler depends on. */
  datatype Glance = Glance(turns: nat, available: bool, ready: bool, loggedIn: bool, busy: bool, due: bool) {
    predicate CanServe() {
      available && ready && loggedIn
    }

    /** Nothing due is left waiting beside a free slot. */
    predicate Settled() {
      busy || !CanServe() || !due
    }

    /** The session can serve again only because the backend is within reach again. */
    predicate Unreachable() {
      !available && ready && loggedIn
    }
  }

  /** One event: a turn settles; without one only the backend coming back into reach can unsettle. */
  predicate Steady(before: Glance, after: Glance) {
    && before.turns <= after.turns
    && (after.turns > before.turns ==> after.Settled())
    && (after.turns == before.turns && after.CanServe() ==>
          after.Settled() == (if before.CanServe() then before.Settled() else !(before.Unreachable() && !before.busy && before.due)))
  }

  /** What a free slot does next. */
  datatype Turn = Idle | Run(request: Request)

  function Next(flags: Flags, page: Page): Turn {
    if flags.servers && page.GroupOpen() then
      Run(Servers(page.country, page.kind, page.name, page.generation + 1, 0))
    else if flags.groups && page.country != "" then Run(Groups(page.country, 0))
    else if flags.countries then Run(Countries)
    else if flags.loads && page.country != "" then Run(Loads(page.country))
    else Idle
  }

  /** The flags once that turn was taken. */
  function Taken(flags: Flags, page: Page): Flags {
    match Next(flags, page)
    case Idle => flags
    case Run(Servers(_, _, _, _, _)) => flags.(servers := false)
    case Run(Groups(_, _)) => flags.(groups := false)
    case Run(Countries) => flags.(countries := false)
    case Run(_) => flags.(loads := false)
  }

  /** Reloading a group counts as a new visit. */
  function Visited(flags: Flags, page: Page): Page {
    if Next(flags, page).Run? && Next(flags, page).request.Servers? then page.(generation := page.generation + 1) else page
  }

  function Country(text: string): string {
    Text.Upper(Text.Trim(text))
  }

  predicate ValidCountry(code: string) {
    |code| == 2
  }

  predicate NormalCountry(code: string) {
    ValidCountry(code) && Text.Trimmed(code) && Text.IsUpper(code)
  }

  /** A query as the search page keeps it. */
  predicate Simple(query: string) {
    Text.IsSimple(query)
  }

  /** New loads for the rows a reply names; the rows themselves stay. */
  function UpdatedLoads(rows: seq<Server>, loads: map<string, int>): (updated: seq<Server>)
    ensures |updated| == |rows|
    ensures forall i :: 0 <= i < |rows| ==> updated[i].name == rows[i].name
    ensures forall i :: 0 <= i < |rows| && rows[i].name in loads ==> updated[i].load == loads[rows[i].name]
    ensures forall i :: 0 <= i < |rows| && rows[i].name !in loads ==> updated[i].load == rows[i].load
  {
    seq(|rows|, i requires 0 <= i < |rows| =>
      if rows[i].name in loads then Server(rows[i].name, loads[rows[i].name]) else rows[i])
  }

  class LocationBrowser {
    var session: Session
    var slot: Slot
    var flags: Flags
    var page: Page
    var search: Search
    var serverContext: nat
    var groupContext: nat
    var countryModel: seq<string>
    var groupModel: seq<string>
    var serverModel: seq<Server>
    var searchModel: SearchModel

    var bus: Bus<Carrier>                     // location calls in flight and armed retry timers
    var searchBus: Bus<SearchCall>            // search calls in flight
    ghost var held: Held                      // the carrier the busy slot waits for
    ghost var searchHolder: Holder            // the search call the pending search waits for
    ghost var turns: nat                      // how often the scheduler took a turn
    ghost var serverSource: Request           // the call whose reply brought the server rows
    ghost var sentFor: nat                    // the latest search generation that was sent
    ghost var resultSource: SearchCall        // the call whose reply brought the search results

    // ---- Invariants ----

    /** The stamps of a carrier equal the current generations. */
    predicate Live(c: Carrier)
      reads `session, `slot
    {
      c.backend == session.backend && c.session == session.session && c.ticket == slot.ticket
    }

    predicate LiveSearch(c: SearchCall)
      reads `session
    {
      c.backend == session.backend && c.session == session.session
    }

    /** The slot is busy exactly while one carrier is live: no refresh is lost, doubled or left spinning. */
    ghost predicate SlotExact()
      reads `session, `slot, `bus, `held
    {
      && slot.busy == held.Held?
      && (held.Held? ==> held.id in bus.calls && Live(bus.calls[held.id]))
    }

    /** Stamps never run ahead, and only the carrier the slot waits for is live. */
    ghost predicate Fits(id: nat, c: Carrier)
      reads `session, `slot, `held, `bus
    {
      && id < bus.next && c.backend <= session.backend && c.session <= session.session && c.ticket <= slot.ticket
      && c.request.Proper() && (Live(c) ==> held.By(id))
    }

    ghost predicate CarriersTracked()
      reads `session, `slot, `bus, `held
    {
      && (forall id :: id in bus.calls ==> Fits(id, bus.calls[id]))
      && (held.Held? && held.id in bus.calls ==> held.attempts == bus.calls[held.id].request.Attempts())
    }

    ghost predicate SearchFits(id: nat, c: SearchCall)
      reads `session, `search, `searchHolder, `searchBus, `sentFor
    {
      && id < searchBus.next && c.backend <= session.backend && c.session <= session.session && c.generation <= sentFor
      && (LiveSearch(c) ==> searchHolder == HeldBy(id))
      && c.query != "" && (c.generation == search.generation ==> c.query == search.query)
    }

    /** A search is pending exactly while one call is live; a call for the current generation carries its query. */
    ghost predicate SearchExact()
      reads `session, `search, `searchBus, `searchHolder, `sentFor
    {
      && sentFor <= search.generation
      && search.requestPending == searchHolder.HeldBy?
      && (searchHolder.HeldBy? ==> searchHolder.id in searchBus.calls && LiveSearch(searchBus.calls[searchHolder.id]))
      && (forall id :: id in searchBus.calls ==> SearchFits(id, searchBus.calls[id]))
    }

    /** Server rows came in a reply for exactly the open group. */
    ghost predicate ServersAgree()
      reads `page, `serverModel, `serverSource
    {
      serverModel != [] ==>
        && page.GroupOpen() && serverSource.Servers?
        && serverSource.country == page.country && serverSource.kind == page.kind && serverSource.name == page.name
    }

    /** Rows are shown only from a reply to the call that was sent for the current query. */
    ghost predicate ResultsAnswer(rows: seq<string>)
      reads `search, `resultSource
    {
      rows != [] ==> resultSource.query == search.query && resultSource.generation == search.generation
    }

    /** Search results were computed for the current query from the current country list; busy means a call is out. */
    ghost predicate ResultsAgree()
      reads `search, `searchModel, `countryModel, `resultSource
    {
      && (search.busy ==> search.requestPending && search.query != "")
      && match searchModel
         case Cleared => search.query == ""
         case Computed(query, countries, rows) =>
           query == search.query != "" && countries == countryModel && ResultsAnswer(rows)
    }

    /** A flagged refresh that the current page allows. */
    predicate Due()
      reads `flags, `page
    {
      || (flags.servers && page.GroupOpen())
      || (flags.groups && page.country != "")
      || flags.countries
      || (flags.loads && page.country != "")
    }

    /** Nothing due is waiting for an event that will not come. */
    predicate Settled()
      reads `slot, `session, `flags, `page
    {
      slot.busy || !session.CanServe() || !Due()
    }

    ghost function Seen(): Glance
      reads `slot, `session, `flags, `page, `turns
    {
      Glance(turns, session.available, session.ready, session.loggedIn, slot.busy, Due())
    }

    /** The shown query was not sent yet. */
    ghost predicate Unsent()
      reads `search, `sentFor
    {
      search.query != "" && sentFor != search.generation
    }

    /** The same for the search: a turn is a new query, and what is due is to send it. */
    ghost function Seeking(): Glance
      reads `session, `search, `sentFor
    {
      Glance(search.generation, session.available, session.ready, session.loggedIn, search.requestPending, Unsent())
    }

    /** Everything but the agreement of the search results, which a new country list breaks for a moment. */
    ghost predicate Sound()
      reads this
    {
      && SlotExact() && CarriersTracked() && SearchExact() && ServersAgree()
      && page.Normal() && Simple(search.query)
      && (session.loggedIn || session.available ==> session.pinned)
      && (search.requestPending ==> session.loggedIn)
    }

    ghost predicate Valid()
      reads this
    {
      Sound() && ResultsAgree()
    }

    constructor ()
      ensures Valid() && Settled() && turns == 0 && Seeking().Settled()
      ensures session == Session(false, false, false, false, 0, 0) && page == Page("", "", "", 0)
      ensures flags == Flags(false, false, false, false) && !slot.busy && search == Search("", 0, false, false)
    {
      session := Session(false, false, false, false, 0, 0);
      slot := Slot(false, 0);
      flags := Flags(false, false, false, false);
      page := Page("", "", "", 0);
      search := Search("", 0, false, false);
      serverContext, groupContext := 0, 0;
      countryModel, groupModel, serverModel, searchModel := [], [], [], Cleared;
      bus, searchBus := Bus(map[], 0), Bus(map[], 0);
      held, searchHolder, turns := NotHeld, NoHolder, 0;
      serverSource, resultSource, sentFor := Countries, SearchCall("", 0, 0, 0), 0;
    }

    // ---- The slot ----

    /** A request is in flight, and it is what the slot waits for. */
    ghost predicate Waits(request: Request)
      reads `bus, `held
    {
      held.Held? && held.id in bus.calls && bus.calls[held.id].request == request
    }

    /** Takes the free slot for a call. */
    method Occupy(request: Request, made: nat)
      requires Valid() && !slot.busy && request.Proper() && request.Attempts() == made
      modifies `slot, `bus, `held, `turns
      ensures Valid() && slot.busy && Waits(request) && turns == old(turns) + 1
    {
      slot := Slot(true, slot.ticket + 1);
      held := Held(bus.next, made);
      bus := bus.Add(Carrier(request, session.backend, session.session, slot.ticket));
      turns := turns + 1;
    }

    /** Sends the first call of a load. */
    method Start(request: Request)
      requires Valid() && !slot.busy && request.Proper() && request.Attempts() == 1
      modifies `slot, `bus, `held, `turns
      ensures Valid() && slot.busy && Waits(request) && turns == old(turns) + 1
    {
      Occupy(request, 1);
    }

    /** Sends another call of the load whose retry timer expired. */
    method Retry(id: nat, request: Request)
      requires Valid() && held.By(id) && request.Proper()
      requires request.Attempts() == bus.calls[id].request.Attempts() + 1
      modifies `slot, `bus, `held, `turns
      ensures Valid() && slot.busy && Waits(request) && turns == old(turns) + 1
    {
      FreeSlot(id);
      Occupy(request, request.Attempts());
    }

    /** Arms a retry timer in place of the call just answered; the slot stays busy. */
    method Arm(id: nat, timer: Request)
      requires Valid() && held.By(id) && timer.Proper()
      requires timer.Attempts() == bus.calls[id].request.Attempts()
      modifies `bus, `held
      ensures Valid() && slot == old(slot) && slot.busy && Waits(timer)
    {
      held := Held(bus.next, held.attempts);
      bus := bus.Remove(id).Add(Carrier(timer, session.backend, session.session, slot.ticket));
    }

    method FreeSlot(id: nat)
      requires Valid() && held.By(id)
      modifies `slot, `bus, `held
      ensures Valid() && slot == Slot(false, old(slot.ticket))
    {
      bus := bus.Remove(id);
      slot := slot.(busy := false);
      held := NotHeld;
    }

    /** A late reply or timer of an earlier request changes nothing. */
    method Discard(id: nat)
      requires Valid() && id in bus.calls && !Live(bus.calls[id])
      modifies `bus
      ensures Valid() && bus == old(bus).Remove(id)
    {
      bus := bus.Remove(id);
    }

    // ---- Loading pages ----

    predicate CanStart()
      reads `session, `slot
    {
      session.CanServe() && !slot.busy
    }

    method LoadCountries()
      requires Valid()
      modifies `flags, `slot, `bus, `held, `turns
      ensures Valid() && Steady(old(Seen()), Seen())
      ensures flags == old(flags).(countries := !old(CanStart()))
      ensures if old(CanStart()) then slot.busy && Waits(Countries)
              else slot == old(slot)
    {
      if !session.CanServe() || slot.busy {
        flags := flags.(countries := true);
        return;
      }
      flags := flags.(countries := false);
      Start(Countries);
    }

    method LoadServerGroups(text: string)
      requires Valid()
      modifies `flags, `page, `groupModel, `serverModel, `slot, `bus, `held, `turns
      ensures Valid() && Steady(old(Seen()), Seen())
      ensures if ValidCountry(Country(text)) then OpenedCountry(Country(text), old(page), old(flags), old(slot), old(CanStart()))
              else page == old(page) && flags == old(flags) && slot == old(slot)
      ensures page.country == old(page.country) ==> serverModel == old(serverModel) && groupModel == old(groupModel)
    {
      Text.CodeIsNormal(text);
      var code := Country(text);
      if !ValidCountry(code) {
        return;
      }
      OpenCountry(code);
    }

    ghost predicate OpenedCountry(code: string, oldPage: Page, oldFlags: Flags, oldSlot: Slot, started: bool)
      reads this
    {
      && page == (if oldPage.country == code then oldPage else Page(code, "", "", oldPage.generation))
      && flags == oldFlags.(groups := !started)
      && if started then slot.busy && Waits(Groups(code, 0)) else slot == oldSlot
    }

    /** Another country's page starts empty. */
    method ShowCountry(code: string)
      requires Valid() && NormalCountry(code)
      modifies `page, `groupModel, `serverModel
      ensures Valid()
      ensures if old(page.country) == code then page == old(page) && serverModel == old(serverModel) && groupModel == old(groupModel)
              else page == Page(code, "", "", old(page.generation)) && serverModel == [] && groupModel == []
    {
      if page.country != code {
        groupModel, serverModel := [], [];
        page := Page(code, "", "", page.generation);
      }
    }

    method OpenCountry(code: string)
      requires Valid() && NormalCountry(code)
      modifies `flags, `page, `groupModel, `serverModel, `slot, `bus, `held, `turns
      ensures Valid() && Steady(old(Seen()), Seen())
      ensures OpenedCountry(code, old(page), old(flags), old(slot), old(CanStart()))
      ensures old(page.country) == code ==> serverModel == old(serverModel) && groupModel == old(groupModel)
    {
      ShowCountry(code);
      RequestServerGroups();
    }

    /** Starts the shown country's call, or leaves its flag. */
    method RequestServerGroups()
      requires Valid() && page.country != ""
      modifies `flags, `slot, `bus, `held, `turns
      ensures Valid() && flags == old(flags).(groups := !old(CanStart()))
      ensures if old(CanStart()) then slot.busy && Waits(Groups(page.country, 0)) && turns > old(turns)
              else slot == old(slot) && turns == old(turns)
    {
      if !session.CanServe() || slot.busy {
        flags := flags.(groups := true);
        return;
      }
      flags := flags.(groups := false);
      Start(Groups(page.country, 0));
    }

    method LoadGroupServers(countryText: string, kindText: string, nameText: string)
      requires Valid()
      modifies `flags, `page, `serverModel, `slot, `bus, `held, `turns
      ensures Valid() && Steady(old(Seen()), Seen())
      ensures var (c, k, n) := (Country(countryText), Text.Trim(kindText), Text.Trim(nameText));
              if ValidCountry(c) && ServerGroups.IsKind(k) && n != "" then
                OpenedGroup(c, k, n, old(page), old(flags), old(slot), old(CanStart()))
              else page == old(page) && flags == old(flags) && slot == old(slot)
      ensures page == old(page).(generation := page.generation) ==> serverModel == old(serverModel)
    {
      Text.CodeIsNormal(countryText);
      Text.TrimIsTrimmed(nameText);
      var c, k, n := Country(countryText), Text.Trim(kindText), Text.Trim(nameText);
      if !ValidCountry(c) || !ServerGroups.IsKind(k) || n == "" {
        return;
      }
      OpenGroup(c, k, n);
    }

    ghost predicate OpenedGroup(c: string, k: string, n: string, oldPage: Page, oldFlags: Flags, oldSlot: Slot, started: bool)
      reads this
    {
      && page == Page(c, k, n, oldPage.generation + 1)
      && flags == oldFlags.(servers := !started)
      && if started then slot.busy && Waits(Servers(c, k, n, page.generation, 0)) else slot == oldSlot
    }

    /** Another group's page starts without rows; every visit is a new request generation. */
    method ShowGroup(c: string, k: string, n: string)
      requires Valid() && NormalCountry(c) && ServerGroups.IsKind(k) && n != "" && Text.Trimmed(n)
      modifies `page, `serverModel
      ensures Valid() && page == Page(c, k, n, old(page.generation) + 1)
      ensures serverModel == if old(page.country == c && page.kind == k && page.name == n) then old(serverModel) else []
    {
      if page.country != c || page.kind != k || page.name != n {
        serverModel := [];
      }
      page := Page(c, k, n, page.generation + 1);
    }

    method OpenGroup(c: string, k: string, n: string)
      requires Valid() && NormalCountry(c) && ServerGroups.IsKind(k) && n != "" && Text.Trimmed(n)
      modifies `flags, `page, `serverModel, `slot, `bus, `held, `turns
      ensures Valid() && Steady(old(Seen()), Seen())
      ensures OpenedGroup(c, k, n, old(page), old(flags), old(slot), old(CanStart()))
      ensures old(page.country == c && page.kind == k && page.name == n) ==> serverModel == old(serverModel)
    {
      ShowGroup(c, k, n);
      RequestGroupServers();
    }

    /** Starts the open group's call, or leaves its flag. */
    method RequestGroupServers()
      requires Valid() && page.GroupOpen()
      modifies `flags, `slot, `bus, `held, `turns
      ensures Valid() && flags == old(flags).(servers := !old(CanStart()))
      ensures if old(CanStart()) then slot.busy && Waits(Servers(page.country, page.kind, page.name, page.generation, 0)) && turns > old(turns)
              else slot == old(slot) && turns == old(turns)
    {
      if !session.CanServe() || slot.busy {
        flags := flags.(servers := true);
        return;
      }
      flags := flags.(servers := false);
      Start(Servers(page.country, page.kind, page.name, page.generation, 0));
    }

    method RequestServerLoads()
      requires Valid()
      modifies `flags, `slot, `bus, `held, `turns
      ensures Valid() && Steady(old(Seen()), Seen())
      ensures if old(CanStart()) && page.country != "" then
                Waits(Loads(page.country)) && slot.busy && flags == old(flags).(loads := false)
              else slot == old(slot)
      ensures !old(CanStart()) || page.country == "" ==>
                flags == (if session.CanServe() && page.country != "" then old(flags).(loads := true) else old(flags))
    {
      if page.country == "" {
        return;
      }
      if !session.CanServe() {
        return;
      }
      if slot.busy {
        flags := flags.(loads := true);
        return;
      }
      flags := flags.(loads := false);
      Start(Loads(page.country));
    }

    method ReloadGroup()
      requires Valid() && CanStart() && page.GroupOpen()
      modifies `flags, `page, `serverModel, `slot, `bus, `held, `turns
      ensures Valid() && page == old(page).(generation := old(page.generation) + 1)
      ensures flags == old(flags).(servers := false)
      ensures Waits(Servers(page.country, page.kind, page.name, page.generation, 0)) && slot.busy && turns >= old(turns)
      ensures serverModel == old(serverModel)
    {
      Text.NormalCodeIsKept(page.country);
      Text.TrimKeepsTrimmed(page.kind);
      Text.TrimKeepsTrimmed(page.name);
      LoadGroupServers(page.country, page.kind, page.name);
    }

    method ReloadCountry()
      requires Valid() && CanStart() && page.country != ""
      modifies `flags, `page, `groupModel, `serverModel, `slot, `bus, `held, `turns
      ensures Valid() && page == old(page) && flags == old(flags).(groups := false)
      ensures Waits(Groups(page.country, 0)) && slot.busy && turns >= old(turns)
      ensures serverModel == old(serverModel) && groupModel == old(groupModel)
    {
      Text.NormalCodeIsKept(page.country);
      LoadServerGroups(page.country);
    }

    /** The slot after it was freed: the turn's request runs, or the slot stays free. */
    ghost predicate Ran(turn: Turn)
      reads `slot, `bus, `held
    {
      match turn
      case Idle => !slot.busy
      case Run(request) => slot.busy && Waits(request)
    }

    /** A turn was taken if the slot was free and the session can serve. */
    ghost predicate Turned(before: nat, wasBusy: bool)
      reads `session, `turns
    {
      if session.CanServe() && !wasBusy then turns > before else turns == before
    }

    /** What follows a freed slot: the deepest due refresh runs, or nothing more happens. */
    ghost predicate Continued(oldFlags: Flags, oldPage: Page)
      reads `session, `slot, `flags, `page, `bus, `held
    {
      if session.CanServe() then
        Ran(Next(oldFlags, oldPage)) && flags == Taken(oldFlags, oldPage) && page == Visited(oldFlags, oldPage)
      else !slot.busy && flags == oldFlags && page == oldPage
    }

    /** Runs the deepest flagged refresh, if any can run: exact servers, then groups, countries, loads. */
    method Dispatch()
      requires Valid()
      modifies `flags, `page, `groupModel, `serverModel, `slot, `bus, `held, `turns
      ensures Valid() && Settled() && Turned(old(turns), old(slot.busy))
      ensures if old(slot.busy) then slot == old(slot) && flags == old(flags) && page == old(page)
              else Continued(old(flags), old(page))
      ensures groupModel == old(groupModel) && serverModel == old(serverModel)
      ensures old(CanStart() && flags.servers && page.country != "" && page.kind != "" && page.name != "") ==>
                && Waits(Servers(page.country, page.kind, page.name, page.generation, 0))
                && flags == old(flags).(servers := false) && page == old(page).(generation := old(page.generation) + 1)
      ensures old(CanStart() && !(flags.servers && page.GroupOpen()) && flags.groups && page.country != "") ==>
                Waits(Groups(page.country, 0)) && flags == old(flags).(groups := false) && page == old(page)
      ensures old(CanStart() && !(flags.servers && page.GroupOpen()) && !(flags.groups && page.country != "") && flags.countries) ==>
                Waits(Countries) && flags == old(flags).(countries := false) && page == old(page)
      ensures old(CanStart() && !(flags.servers && page.GroupOpen()) && !(flags.groups && page.country != "") && !flags.countries
                  && flags.loads && page.country != "") ==>
                Waits(Loads(page.country)) && flags == old(flags).(loads := false) && page == old(page)
      ensures old(CanStart()) && !old(Due()) ==> !slot.busy && flags == old(flags) && page == old(page)
    {
      if slot.busy || !session.CanServe() {
        return;
      }
      turns := turns + 1;
      TakeTurn();
    }

    method TakeTurn()
      requires Valid() && CanStart()
      modifies `flags, `page, `groupModel, `serverModel, `slot, `bus, `held, `turns
      ensures Valid() && Settled() && turns >= old(turns) && Continued(old(flags), old(page))
      ensures groupModel == old(groupModel) && serverModel == old(serverModel)
    {
      hide SlotExact, CarriersTracked, Fits, SearchExact, SearchFits, ServersAgree, ResultsAgree, Simple;
      if flags.servers && page.country != "" && page.kind != "" && page.name != "" {
        ReloadGroup();
      } else if flags.groups && page.country != "" {
        ReloadCountry();
      } else {
        TakeListTurn();
      }
    }

    /** The part of a turn that does not depend on the open pages. */
    method TakeListTurn()
      requires Valid() && CanStart()
      modifies `flags, `slot, `bus, `held, `turns
      ensures Valid() && turns >= old(turns)
      ensures Ran(if old(flags.countries) then Run(Countries)
                  else if old(flags.loads) && page.country != "" then Run(Loads(page.country)) else Idle)
      ensures flags == if old(flags.countries) then old(flags).(countries := false)
                       else if old(flags.loads) && page.country != "" then old(flags).(loads := false) else old(flags)
    {
      if flags.countries {
        LoadCountries();
      } else if flags.loads {
        RequestServerLoads();
      }
    }

    // ---- Replies and expired timers ----

    method Finish(id: nat)
      requires Valid() && held.By(id)
      modifies `flags, `page, `groupModel, `serverModel, `slot, `bus, `held, `turns
      ensures Valid() && Settled() && Continued(old(flags), old(page)) && Turned(old(turns), false)
      ensures groupModel == old(groupModel) && serverModel == old(serverModel)
    {
      FreeSlot(id);
      Dispatch();
    }

    method OnGroupsReply(id: nat, reply: Reply<string>)
      requires Valid() && id in bus.calls && bus.calls[id].request.Groups?
      modifies `flags, `page, `groupModel, `serverModel, `slot, `bus, `held, `turns
      ensures Valid() && Steady(old(Seen()), Seen())
      ensures !old(Live(bus.calls[id])) ==>
                slot == old(slot) && flags == old(flags) && page == old(page) && groupModel == old(groupModel)
      ensures old(Live(bus.calls[id])) ==>
                var Groups(country, retry) := old(bus.calls[id].request);
                if country == old(page.country) && retry < 4 && (reply.Failed? || (reply.listing.Rows? && reply.listing.rows == [])) then
                  slot == old(slot) && Waits(GroupsTimer(country, retry)) && flags == old(flags) && page == old(page)
                else Settled() && Continued(old(flags), old(page))
      ensures groupModel == if old(Live(bus.calls[id]) && bus.calls[id].request.country == page.country) && reply.HasRows()
                            then reply.listing.rows else old(groupModel)
      ensures serverModel == old(serverModel)
      ensures !old(Live(bus.calls[id])) ==> bus == old(bus).Remove(id)
    {
      hide SlotExact, SearchExact, SearchFits, ServersAgree, ResultsAgree, Simple;
      if !Live(bus.calls[id]) {
        Discard(id);
        return;
      }
      var Groups(country, retry) := bus.calls[id].request;
      if country != page.country {
        Finish(id);
        return;
      }
      if reply.HasRows() {
        groupModel := reply.listing.rows;
      }
      RetryGroups(id, country, retry, reply.Retryable());
    }

    /** Arms a retry after a failure or an empty list, as long as there are retries left. */
    method RetryGroups(id: nat, country: string, retry: nat, again: bool)
      requires Valid() && held.By(id) && bus.calls[id].request == Groups(country, retry)
      modifies `flags, `page, `groupModel, `serverModel, `slot, `bus, `held, `turns
      ensures Valid() && Steady(old(Seen()), Seen())
      ensures groupModel == old(groupModel) && serverModel == old(serverModel)
      ensures if retry < GROUP_RETRIES && again then
                slot == old(slot) && Waits(GroupsTimer(country, retry)) && flags == old(flags) && page == old(page)
              else Settled() && Continued(old(flags), old(page))
    {
      if again && retry < GROUP_RETRIES {
        Arm(id, GroupsTimer(country, retry));
      } else {
        Finish(id);
      }
    }

    method OnGroupsTimer(id: nat)
      requires Valid() && id in bus.calls && bus.calls[id].request.GroupsTimer?
      modifies `flags, `page, `groupModel, `serverModel, `slot, `bus, `held, `turns
      ensures Valid() && Steady(old(Seen()), Seen())
      ensures groupModel == old(groupModel) && serverModel == old(serverModel)
      ensures !old(Live(bus.calls[id])) ==> slot == old(slot) && flags == old(flags) && page == old(page)
      ensures old(Live(bus.calls[id])) ==>
                var GroupsTimer(country, retry) := old(bus.calls[id].request);
                if country == old(page.country) && session.CanServe() then
                  slot.busy && Waits(Groups(country, retry + 1)) && flags == old(flags) && page == old(page)
                else Settled() && Continued(old(flags), old(page))
      ensures !old(Live(bus.calls[id])) ==> bus == old(bus).Remove(id)
    {
      if !Live(bus.calls[id]) {
        Discard(id);
        return;
      }
      var GroupsTimer(country, retry) := bus.calls[id].request;
      if country != page.country || !session.CanServe() {
        Finish(id);
        return;
      }
      Retry(id, Groups(country, retry + 1));
    }

    /** The open group is still the one this visit of it asked for. */
    predicate StillOpen(request: Request)
      reads `page
      requires request.Servers? || request.ServersTimer?
    {
      page == Page(request.country, request.kind, request.name, request.generation)
    }

    method OnServersReply(id: nat, reply: Reply<Server>)
      requires Valid() && id in bus.calls && bus.calls[id].request.Servers?
      modifies `flags, `page, `groupModel, `serverModel, `serverSource, `slot, `bus, `held, `turns
      ensures Valid() && Steady(old(Seen()), Seen())
      ensures !old(Live(bus.calls[id])) ==> slot == old(slot) && flags == old(flags) && page == old(page)
      ensures old(Live(bus.calls[id])) ==>
                var request := old(bus.calls[id].request);
                if old(StillOpen(request)) && request.retry < 2 && (reply.Failed? || (reply.listing.Rows? && reply.listing.rows == [])) then
                  slot == old(slot) && flags == old(flags) && page == old(page)
                  && Waits(ServersTimer(request.country, request.kind, request.name, request.generation, request.retry))
                else Settled() && Continued(old(flags), old(page))
      ensures if old(Live(bus.calls[id]) && StillOpen(bus.calls[id].request)) && reply.HasRows()
              then serverModel == reply.listing.rows && serverSource == old(bus.calls[id].request)
              else serverModel == old(serverModel)
      ensures groupModel == old(groupModel)
      ensures !old(Live(bus.calls[id])) ==> bus == old(bus).Remove(id)
    {
      if !Live(bus.calls[id]) {
        Discard(id);
        return;
      }
      TakeServers(id, bus.calls[id].request, reply);
    }

    method TakeServers(id: nat, request: Request, reply: Reply<Server>)
      requires Valid() && held.By(id) && request.Servers? && request == bus.calls[id].request
      modifies `flags, `page, `groupModel, `serverModel, `serverSource, `slot, `bus, `held, `turns
      ensures Valid() && groupModel == old(groupModel) && Steady(old(Seen()), Seen())
      ensures if old(StillOpen(request)) && request.retry < SERVER_RETRIES && reply.Retryable() then
                slot == old(slot) && flags == old(flags) && page == old(page)
                && Waits(ServersTimer(request.country, request.kind, request.name, request.generation, request.retry))
              else Settled() && Continued(old(flags), old(page))
      ensures if old(StillOpen(request)) && reply.HasRows() then serverModel == reply.listing.rows && serverSource == request
              else serverModel == old(serverModel)
    {
      if !StillOpen(request) {
        Finish(id);
        return;
      }
      if reply.HasRows() {
        ShowServers(reply.listing.rows, request);
      }
      RetryServers(id, request, reply.Retryable());
    }

    method RetryServers(id: nat, request: Request, again: bool)
      requires Valid() && held.By(id) && request.Servers? && request == bus.calls[id].request
      modifies `flags, `page, `groupModel, `serverModel, `slot, `bus, `held, `turns
      ensures Valid() && Steady(old(Seen()), Seen())
      ensures groupModel == old(groupModel) && serverModel == old(serverModel)
      ensures if request.retry < SERVER_RETRIES && again then
                slot == old(slot) && flags == old(flags) && page == old(page)
                && Waits(ServersTimer(request.country, request.kind, request.name, request.generation, request.retry))
              else Settled() && Continued(old(flags), old(page))
    {
      if again && request.retry < SERVER_RETRIES {
        Arm(id, ServersTimer(request.country, request.kind, request.name, request.generation, request.retry));
      } else {
        Finish(id);
      }
    }

    method ShowServers(rows: seq<Server>, request: Request)
      requires Valid() && request.Servers? && StillOpen(request) && page.GroupOpen()
      modifies `serverModel, `serverSource
      ensures Valid() && serverModel == rows && serverSource == request
    {
      serverModel, serverSource := rows, request;
    }

    method OnServersTimer(id: nat)
      requires Valid() && id in bus.calls && bus.calls[id].request.ServersTimer?
      modifies `flags, `page, `groupModel, `serverModel, `slot, `bus, `held, `turns
      ensures Valid() && Steady(old(Seen()), Seen())
      ensures groupModel == old(groupModel) && serverModel == old(serverModel)
      ensures !old(Live(bus.calls[id])) ==> slot == old(slot) && flags == old(flags) && page == old(page)
      ensures old(Live(bus.calls[id])) ==>
                var request := old(bus.calls[id].request);
                if old(StillOpen(request)) && session.CanServe() then
                  slot.busy && flags == old(flags) && page == old(page)
                  && Waits(Servers(request.country, request.kind, request.name, request.generation, request.retry + 1))
                else Settled() && Continued(old(flags), old(page))
      ensures !old(Live(bus.calls[id])) ==> bus == old(bus).Remove(id)
    {
      if !Live(bus.calls[id]) {
        Discard(id);
        return;
      }
      var request := bus.calls[id].request;
      if !StillOpen(request) || !session.CanServe() {
        Finish(id);
        return;
      }
      Retry(id, Servers(request.country, request.kind, request.name, request.generation, request.retry + 1));
    }

    method OnLoadsReply(id: nat, failed: bool, loads: map<string, int>)
      requires Valid() && id in bus.calls && bus.calls[id].request.Loads?
      modifies `flags, `page, `groupModel, `serverModel, `slot, `bus, `held, `turns
      ensures Valid() && Steady(old(Seen()), Seen())
      ensures !old(Live(bus.calls[id])) ==> slot == old(slot) && flags == old(flags) && page == old(page)
      ensures old(Live(bus.calls[id])) ==> Settled() && Continued(old(flags), old(page))
      ensures serverModel == if old(Live(bus.calls[id]) && bus.calls[id].request.country == page.country) && !failed
                             then UpdatedLoads(old(serverModel), loads) else old(serverModel)
      ensures !old(Live(bus.calls[id])) ==> bus == old(bus).Remove(id)
    {
      if !Live(bus.calls[id]) {
        Discard(id);
        return;
      }
      if bus.calls[id].request.country == page.country && !failed {
        serverModel := UpdatedLoads(serverModel, loads);
      }
      Finish(id);
    }

    // ---- Search ----

    /** A search of this query was begun: only the latest one is ever sent, and never a second one beside it. */
    ghost predicate Searched(query: string, before: Search, calls: map<nat, SearchCall>, id: nat)
      reads `session, `search, `searchBus, `searchModel, `countryModel
    {
      && search == Search(query, before.generation + 1, query != "" && session.CanServe(), before.requestPending || search.busy)
      && searchModel == (if query == "" then Cleared else Computed(query, countryModel, []))
      && searchBus.calls == if search.busy && !before.requestPending
                     then calls[id := SearchCall(query, search.generation, session.backend, session.session)] else calls
    }

    method SearchLocations(text: string)
      requires Sound()
      modifies `search, `searchBus, `sentFor, `searchHolder, `searchModel
      ensures Valid() && Searched(Text.Simplified(text), old(search), old(searchBus.calls), old(searchBus.next))
      ensures Steady(old(Seeking()), Seeking())
      ensures sentFor == if search.busy && !old(search.requestPending) then search.generation else old(sentFor)
    {
      Text.SimplifiedIsSimple(text);
      ShowQuery(Text.Simplified(text));
      if search.busy && !search.requestPending {
        SendSearch();
      }
    }

    /** Shows a new query: the matching countries at once, the backend's matches later. */
    method ShowQuery(query: string)
      requires Sound() && Simple(query)
      modifies `search, `searchModel
      ensures Sound() && ((search.busy ==> search.requestPending) ==> ResultsAgree())
      ensures search == Search(query, old(search.generation) + 1, query != "" && session.CanServe(), old(search.requestPending))
      ensures searchModel == if query == "" then Cleared else Computed(query, countryModel, [])
    {
      search := search.(query := query, generation := search.generation + 1);
      if query == "" {
        search, searchModel := search.(busy := false), Cleared;
        return;
      }
      searchModel := Computed(query, countryModel, []);
      search := search.(busy := session.CanServe());
    }

    method SendSearch()
      requires Sound() && session.CanServe() && search.query != "" && !search.requestPending
      modifies `search, `searchBus, `sentFor, `searchHolder
      ensures Sound() && search == old(search).(requestPending := true)
      ensures searchBus.calls == old(searchBus.calls)[old(searchBus.next) := SearchCall(search.query, search.generation, session.backend, session.session)]
    {
      search, sentFor := search.(requestPending := true), search.generation;
      searchHolder := HeldBy(searchBus.next);
      searchBus := searchBus.Add(SearchCall(search.query, search.generation, session.backend, session.session));
    }

    /** Leaves the search page; the call in flight stays in flight. */
    method ClearLocationSearch()
      requires Valid()
      modifies `search, `searchBus, `sentFor, `searchHolder, `searchModel
      ensures Valid() && searchModel == Cleared && searchBus.calls == old(searchBus.calls)
      ensures search == Search("", old(search.generation) + 1, false, old(search.requestPending))
      ensures Steady(old(Seeking()), Seeking())
    {
      SearchLocations("");
    }

    method SearchAgain()
      requires Sound() && search.query != ""
      modifies `search, `searchBus, `sentFor, `searchHolder, `searchModel
      ensures Valid() && Searched(old(search.query), old(search), old(searchBus.calls), old(searchBus.next))
      ensures Steady(old(Seeking()), Seeking())
    {
      Text.SimpleIsKept(search.query);
      SearchLocations(search.query);
    }

    /** After fresh data: the shown query is searched again, then the slot takes its next turn. */
    method Resume()
      requires Sound() && (search.query == "" ==> ResultsAgree())
      modifies `search, `searchBus, `sentFor, `searchHolder, `searchModel
      modifies `flags, `page, `groupModel, `serverModel, `slot, `bus, `held, `turns
      ensures Valid() && Settled() && groupModel == old(groupModel) && serverModel == old(serverModel)
      ensures Turned(old(turns), old(slot.busy))
      ensures if search.query == "" then search == old(search) else Searched(search.query, old(search), old(searchBus.calls), old(searchBus.next))
      ensures search.query == old(search.query)
      ensures if old(slot.busy) then slot == old(slot) && flags == old(flags) && page == old(page)
              else Continued(old(flags), old(page))
      ensures Steady(old(Seeking()), Seeking())
    {
      if search.query != "" {
        SearchAgain();
      }
      Dispatch();
    }

    method OnSearchReply(id: nat, reply: Reply<string>)
      requires Valid() && id in searchBus.calls
      modifies `search, `searchBus, `sentFor, `searchHolder, `searchModel, `resultSource
      ensures Valid()
      ensures !old(LiveSearch(searchBus.calls[id])) ==>
                search == old(search) && searchModel == old(searchModel) && searchBus.calls == old(searchBus.calls) - {id}
      ensures old(LiveSearch(searchBus.calls[id])) ==>
                var answered := old(search).(requestPending := false);
                if old(searchBus.calls[id].generation) == old(search.generation) then
                  && search == answered.(busy := false) && searchBus.calls == old(searchBus.calls) - {id}
                  && if reply.HasRows() then
                       searchModel == Computed(search.query, countryModel, reply.listing.rows) && resultSource == old(searchBus.calls[id])
                     else searchModel == old(searchModel)
                else if old(search.query) == "" then
                  search == answered && searchModel == old(searchModel) && searchBus.calls == old(searchBus.calls) - {id}
                else Searched(old(search.query), answered, old(searchBus.calls) - {id}, old(searchBus.next))
      ensures Steady(old(Seeking()), Seeking())
    {
      var call := searchBus.calls[id];
      if !LiveSearch(call) {
        searchBus := searchBus.Remove(id);
        return;
      }
      FreeSearch(id);
      if call.generation != search.generation || call.query != search.query {
        if search.query != "" {
          SearchAgain();
        }
        return;
      }
      ShowResults(call, reply);
    }

    method FreeSearch(id: nat)
      requires Valid() && id in searchBus.calls && LiveSearch(searchBus.calls[id])
      modifies `search, `searchBus, `searchHolder
      ensures Sound() && (!search.busy ==> ResultsAgree())
      ensures search == old(search).(requestPending := false) && searchBus == old(searchBus).Remove(id)
      ensures old(searchBus.calls[id].generation) == search.generation ==> old(searchBus.calls[id].query) == search.query
    {
      search, searchBus, searchHolder := search.(requestPending := false), searchBus.Remove(id), NoHolder;
    }

    method ShowResults(call: SearchCall, reply: Reply<string>)
      requires Sound() && call.query == search.query != "" && call.generation == search.generation
      requires searchModel.Computed? && searchModel.query == call.query && searchModel.countries == countryModel
      requires ResultsAnswer(searchModel.rows)
      modifies `search, `searchModel, `resultSource
      ensures Valid() && search == old(search).(busy := false)
      ensures if reply.HasRows() then searchModel == Computed(call.query, countryModel, reply.listing.rows) && resultSource == call
              else searchModel == old(searchModel)
    {
      search := search.(busy := false);
      if reply.HasRows() {
        searchModel, resultSource := Computed(call.query, countryModel, reply.listing.rows), call;
      }
    }

    method OnCountriesReply(id: nat, reply: Reply<string>)
      requires Valid() && id in bus.calls && bus.calls[id].request.Countries?
      modifies `countryModel, `search, `searchBus, `sentFor, `searchHolder, `searchModel
      modifies `flags, `page, `groupModel, `serverModel, `slot, `bus, `held, `turns
      ensures Valid() && Steady(old(Seen()), Seen())
      ensures groupModel == old(groupModel) && serverModel == old(serverModel) && search.query == old(search.query)
      ensures !old(Live(bus.calls[id])) ==>
                slot == old(slot) && flags == old(flags) && page == old(page) && countryModel == old(countryModel) && search == old(search)
      ensures old(Live(bus.calls[id])) ==> Settled() && Continued(old(flags), old(page))
      ensures countryModel == if old(Live(bus.calls[id])) && reply.HasRows() then reply.listing.rows else old(countryModel)
      ensures old(Live(bus.calls[id])) && reply.Answered? && search.query != "" ==>
                Searched(search.query, old(search), old(searchBus.calls), old(searchBus.next))
      ensures Steady(old(Seeking()), Seeking())
      ensures !old(Live(bus.calls[id])) ==> bus == old(bus).Remove(id)
    {
      if !Live(bus.calls[id]) {
        Discard(id);
        return;
      }
      TakeCountries(id, reply);
    }

    method TakeCountries(id: nat, reply: Reply<string>)
      requires Valid() && held.By(id)
      modifies `countryModel, `search, `searchBus, `sentFor, `searchHolder, `searchModel
      modifies `flags, `page, `groupModel, `serverModel, `slot, `bus, `held, `turns
      ensures Valid() && Settled() && Continued(old(flags), old(page)) && Turned(old(turns), false)
      ensures groupModel == old(groupModel) && serverModel == old(serverModel) && search.query == old(search.query)
      ensures countryModel == if reply.HasRows() then reply.listing.rows else old(countryModel)
      ensures reply.Answered? && search.query != "" ==> Searched(search.query, old(search), old(searchBus.calls), old(searchBus.next))
      ensures Steady(old(Seeking()), Seeking())
    {
      hide SlotExact, CarriersTracked, Fits, SearchExact, SearchFits, ServersAgree, Simple;
      FreeSlot(id);
      if reply.Failed? {
        Dispatch();
        return;
      }
      if reply.HasRows() {
        countryModel := reply.listing.rows;
      }
      Resume();
    }

    // ---- Contexts ----

    /** Whatever the slot waited for no longer counts. */
    method DropSlot()
      requires Valid()
      modifies `slot, `held
      ensures Valid() && slot == Slot(false, old(slot.ticket) + 1)
    {
      slot, held := Slot(false, slot.ticket + 1), NotHeld;
    }

    method ClaimServerContext(text: string) returns (context: nat)
      requires Valid()
      modifies `serverContext, `flags, `page, `groupModel, `serverModel, `slot, `bus, `held, `turns
      ensures Valid() && Steady(old(Seen()), Seen())
      ensures if ValidCountry(Country(text)) then
                context == serverContext == old(serverContext) + 1
                && OpenedCountry(Country(text), old(page), old(flags), old(slot), old(CanStart()))
              else context == 0 && serverContext == old(serverContext) && page == old(page) && flags == old(flags) && slot == old(slot)
    {
      if |Text.Trim(text)| != 2 {
        return 0;
      }
      serverContext := serverContext + 1;
      context := serverContext;
      LoadServerGroups(text);
    }

    method ReleaseServerContext(context: nat)
      requires Valid()
      modifies `serverContext, `groupContext, `flags, `page, `groupModel, `serverModel, `slot, `bus, `held, `turns
      ensures Valid() && Steady(old(Seen()), Seen())
      ensures if context == 0 || context != old(serverContext) then
                serverContext == old(serverContext) && page == old(page) && flags == old(flags) && slot == old(slot)
              else (serverContext == old(serverContext) + 1 && page == old(page).Closed() && groupModel == [] && serverModel == []
                    && Settled() && AfterReset(old(flags.countries)))
    {
      if context == 0 || context != serverContext {
        return;
      }
      serverContext := serverContext + 1;
      ResetServerContext();
    }

    /** A country refresh is all that survives leaving the server pages. */
    ghost predicate AfterReset(countriesDue: bool)
      reads `session, `slot, `flags, `bus, `held
    {
      if countriesDue && session.CanServe() then slot.busy && Waits(Countries) && flags == Flags(false, false, false, false)
      else !slot.busy && flags == Flags(countriesDue, false, false, false)
    }

    method ResetServerContext()
      requires Valid()
      modifies `groupContext, `flags, `page, `groupModel, `serverModel, `slot, `bus, `held, `turns
      ensures Valid() && Settled() && AfterReset(old(flags.countries)) && Turned(old(turns), false)
      ensures page == old(page).Closed() && groupModel == [] && serverModel == [] && groupContext == old(groupContext) + 1
    {
      LeavePages();
      Dispatch();
    }

    method LeavePages()
      requires Valid()
      modifies `groupContext, `flags, `page, `groupModel, `serverModel, `slot, `held
      ensures Valid() && slot == Slot(false, old(slot.ticket) + 1) && flags == Flags(old(flags.countries), false, false, false)
      ensures page == old(page).Closed() && groupModel == [] && serverModel == [] && groupContext == old(groupContext) + 1
    {
      DropSlot();
      ClosePage();
      groupContext := groupContext + 1;
      flags := Flags(flags.countries, false, false, false);
    }

    method ClaimGroupServerContext(countryText: string, kindText: string, nameText: string) returns (context: nat)
      requires Valid()
      modifies `groupContext, `flags, `page, `serverModel, `slot, `bus, `held, `turns
      ensures Valid() && Steady(old(Seen()), Seen())
      ensures var (c, k, n) := (Country(countryText), Text.Trim(kindText), Text.Trim(nameText));
              if ValidCountry(c) && ServerGroups.IsKind(k) && n != "" then
                context == groupContext == old(groupContext) + 1
                && OpenedGroup(c, k, n, old(page), old(flags), old(slot), old(CanStart()))
              else context == 0 && groupContext == old(groupContext) && page == old(page) && flags == old(flags) && slot == old(slot)
    {
      if |Text.Trim(countryText)| != 2 || !ServerGroups.IsKind(Text.Trim(kindText)) || Text.Trim(nameText) == "" {
        return 0;
      }
      groupContext := groupContext + 1;
      context := groupContext;
      LoadGroupServers(countryText, kindText, nameText);
    }

    method ReleaseGroupServerContext(context: nat)
      requires Valid()
      modifies `groupContext, `flags, `page, `groupModel, `serverModel, `slot, `bus, `held, `turns
      ensures Valid() && Steady(old(Seen()), Seen())
      ensures if context == 0 || context != old(groupContext) then
                groupContext == old(groupContext) && page == old(page) && flags == old(flags) && slot == old(slot)
              else (groupContext == old(groupContext) + 1 && serverModel == []
                    && Settled() && Continued(old(flags).(servers := false, loads := false), LeftGroup(old(page))))
    {
      if context == 0 || context != groupContext {
        return;
      }
      groupContext := groupContext + 1;
      ResetGroupServerContext();
    }

    static function LeftGroup(p: Page): Page {
      Page(p.country, "", "", p.generation + 1)
    }

    method ResetGroupServerContext()
      requires Valid()
      modifies `flags, `page, `groupModel, `serverModel, `slot, `bus, `held, `turns
      ensures Valid() && Settled() && serverModel == [] && groupModel == old(groupModel) && Turned(old(turns), false)
      ensures Continued(old(flags).(servers := false, loads := false), LeftGroup(old(page)))
    {
      DropSlot();
      flags := flags.(servers := false, loads := false);
      page, serverModel := LeftGroup(page), [];
      Dispatch();
    }

    // ---- Backend and session ----

    /** The backend says that its data changed: loads only, or the whole topology. */
    method OnServerDataChanged(topologyChanged: bool)
      requires Valid()
      modifies `search, `searchBus, `sentFor, `searchHolder, `searchModel
      modifies `flags, `page, `groupModel, `serverModel, `slot, `bus, `held, `turns
      ensures Valid() && Settled() && Steady(old(Seen()), Seen()) && search.query == old(search.query)
      ensures var due := ChangedFlags(old(flags), old(page), topologyChanged);
              if old(slot.busy) then slot == old(slot) && flags == due && page == old(page) else Continued(due, old(page))
      ensures if topologyChanged && search.query != "" then Searched(search.query, old(search), old(searchBus.calls), old(searchBus.next))
              else search == old(search)
      ensures Steady(old(Seeking()), Seeking())
    {
      hide SlotExact, CarriersTracked, Fits, SearchExact, SearchFits, ServersAgree, ResultsAgree, Simple;
      flags := ChangedFlags(flags, page, topologyChanged);
      if topologyChanged {
        Resume();
      } else {
        Dispatch();
      }
    }

    static function ChangedFlags(f: Flags, p: Page, topologyChanged: bool): Flags {
      if topologyChanged then Flags(true, p.country != "", p.GroupOpen(), false)
      else if p.country != "" then f.(loads := true)
      else f
    }

    /** Forgets the account's data. */
    method ClearBrowser()
      requires Valid() && searchHolder == NoHolder
      modifies `countryModel, `groupModel, `serverModel, `searchModel, `flags, `page, `search
      ensures Valid() && Forgotten(old(page), old(search))
    {
      ClosePage();
      flags := Flags(false, false, false, false);
      ClearSearch();
    }

    method ClosePage()
      requires Valid()
      modifies `groupModel, `serverModel, `page
      ensures Valid() && groupModel == [] && serverModel == [] && page == old(page).Closed()
    {
      page, groupModel, serverModel := page.Closed(), [], [];
    }

    method ClearSearch()
      requires Valid() && searchHolder == NoHolder
      modifies `countryModel, `searchModel, `search
      ensures Valid() && countryModel == [] && searchModel == Cleared
      ensures search == Search("", old(search.generation) + 1, false, false)
    {
      countryModel, searchModel := [], Cleared;
      search := Search("", search.generation + 1, false, false);
    }

    ghost predicate Forgotten(oldPage: Page, oldSearch: Search)
      reads `countryModel, `groupModel, `serverModel, `searchModel, `flags, `page, `search
    {
      && countryModel == groupModel == [] && serverModel == [] && searchModel == Cleared
      && flags == Flags(false, false, false, false) && page == oldPage.Closed()
      && search == Search("", oldSearch.generation + 1, false, false)
    }

    /** A new session or owner: calls of the old one no longer count. */
    method Renew(renewed: Session)
      requires Valid() && (renewed.loggedIn || renewed.available ==> renewed.pinned)
      requires renewed.backend >= session.backend && renewed.session >= session.session
      requires renewed.backend > session.backend || renewed.session > session.session
      modifies `session, `slot, `held, `search, `searchHolder
      ensures Valid() && session == renewed && slot == Slot(false, old(slot.ticket) + 1)
      ensures searchHolder == NoHolder && search == old(search).(busy := false, requestPending := false)
    {
      session := renewed;
      slot, held := Slot(false, slot.ticket + 1), NotHeld;
      search, searchHolder := search.(busy := false, requestPending := false), NoHolder;
    }

    method SignIn(ready: bool)
      requires Valid() && session.pinned && !session.loggedIn
      modifies `session, `slot, `held, `search, `searchHolder
      ensures Valid() && session == old(session).(session := old(session.session) + 1, ready := ready, loggedIn := true)
      ensures slot == Slot(false, old(slot.ticket) + 1) && search == old(search)
    {
      Renew(session.(session := session.session + 1, ready := ready, loggedIn := true));
    }

    method SignOut(ready: bool)
      requires Valid() && session.loggedIn
      modifies `session, `slot, `held, `searchHolder
      modifies `countryModel, `groupModel, `serverModel, `searchModel, `flags, `page, `search
      ensures Valid() && session == old(session).(session := old(session.session) + 1, ready := ready, loggedIn := false)
      ensures slot == Slot(false, old(slot.ticket) + 1) && Forgotten(old(page), old(search))
    {
      Renew(session.(session := session.session + 1, ready := ready, loggedIn := false));
      ClearBrowser();
    }

    /** An accepted snapshot. */
    method ApplySnapshot(ready: bool, loggedIn: bool)
      requires Valid() && session.pinned
      modifies `session, `searchBus, `sentFor, `searchHolder, `search, `countryModel, `searchModel
      modifies `flags, `page, `groupModel, `serverModel, `slot, `bus, `held, `turns
      ensures Valid() && Steady(old(Seen()), Seen())
      ensures session == old(session).(ready := ready, loggedIn := loggedIn,
                                       session := old(session.session) + if loggedIn != old(session.loggedIn) then 1 else 0)
      ensures if old(session.loggedIn) && !loggedIn then
                Forgotten(old(page), old(search)) && slot == Slot(false, old(slot.ticket) + 1)
              else if ready && loggedIn && !(old(session.ready) && old(session.loggedIn)) then
                && Settled() && search.query == old(search.query) && (search.query == "" ==> search == old(search))
                && (if old(slot.busy) && old(session.loggedIn) then slot == old(slot) && flags == old(flags) && page == old(page)
                    else Continued(old(flags), old(page)))
              else
                && flags == old(flags) && page == old(page) && search == old(search)
                && slot == if loggedIn != old(session.loggedIn) then Slot(false, old(slot.ticket) + 1) else old(slot)
      ensures Steady(old(Seeking()), Seeking())
    {
      var (wasReady, wasLoggedIn) := (session.ready, session.loggedIn);
      AdoptSession(ready, loggedIn);
      if ready && loggedIn && (!wasReady || !wasLoggedIn) {
        Resume();
      }
    }

    method AdoptSession(ready: bool, loggedIn: bool)
      requires Valid() && session.pinned
      modifies `session, `slot, `held, `searchHolder
      modifies `countryModel, `groupModel, `serverModel, `searchModel, `flags, `page, `search
      ensures Valid()
      ensures session == old(session).(ready := ready, loggedIn := loggedIn,
                                       session := old(session.session) + if loggedIn != old(session.loggedIn) then 1 else 0)
      ensures slot == if loggedIn != old(session.loggedIn) then Slot(false, old(slot.ticket) + 1) else old(slot)
      ensures if old(session.loggedIn) && !loggedIn then Forgotten(old(page), old(search))
              else flags == old(flags) && page == old(page) && search == old(search)
    {
      if loggedIn && !session.loggedIn {
        SignIn(ready);
      } else if !loggedIn && session.loggedIn {
        SignOut(ready);
      } else {
        session := session.(ready := ready);
      }
    }

    /**
     The outcome of a call to the owner: whether it can be reached. Coming back alone dispatches nothing,
     so a refresh that became due meanwhile stays undone, and a query typed meanwhile unsent, exactly if the session
     could serve it at once.
     */
    method SetBackendAvailable(available: bool)
      requires Valid() && (available ==> session.pinned)
      modifies `session
      ensures Valid() && Steady(old(Seen()), Seen()) && session == old(session).(available := available)
      ensures Steady(old(Seeking()), Seeking())
    {
      session := session.(available := available);
    }

    /** The answer to a read of the owner's state: it is within reach again, and a usable snapshot is adopted. */
    method OnSnapshotRead(reading: Reading)
      requires Valid() && session.pinned
      modifies `session, `searchBus, `sentFor, `searchHolder, `search, `countryModel, `searchModel
      modifies `flags, `page, `groupModel, `serverModel, `slot, `bus, `held, `turns
      ensures Valid() && Steady(old(Seen()), Seen()) && session.available
      ensures reading.Usable? ==> session.ready == reading.ready && session.loggedIn == reading.loggedIn
      ensures reading.Usable? ==>
                (!Settled() <==> old(session.ready && session.loggedIn) && reading.ready && reading.loggedIn
                                 && !old(slot.busy) && old(Due()))
      ensures !Settled() ==> slot == old(slot) && flags == old(flags) && page == old(page)
      ensures reading.Usable? ==>
                (!Seeking().Settled() <==> old(session.ready && session.loggedIn) && reading.ready && reading.loggedIn
                                           && !old(search.requestPending) && old(Unsent()))
      ensures Steady(old(Seeking()), Seeking())
    {
      SetBackendAvailable(true);
      if reading.Usable? {
        ApplySnapshot(reading.ready, reading.loggedIn);
      }
    }

    /** Too many failed snapshot reads, or the backend refused this client. */
    method LoseBackend(rejected: bool)
      requires Valid()
      modifies `session
      ensures Valid() && Settled() && Steady(old(Seen()), Seen())
      ensures session == old(session).(ready := false, available := old(session.available) && !rejected)
      ensures Steady(old(Seeking()), Seeking())
    {
      session := session.(ready := false, available := session.available && !rejected);
    }

    /** A new owner appeared; it is pinned once its identity is known. */
    method OnServiceRegistered()
      requires Valid() && !session.pinned
      modifies `session, `slot, `held, `search, `searchHolder
      ensures Valid() && Settled() && !slot.busy && !session.available && search == old(search)
      ensures session.backend == old(session.backend) + 1
      ensures Steady(old(Seeking()), Seeking())
    {
      Renew(session.(backend := session.backend + 1, available := false));
    }

    method PinOwner()
      requires Valid()
      modifies `session
      ensures Valid() && session == old(session).(pinned := true) && Steady(old(Seen()), Seen())
      ensures Steady(old(Seeking()), Seeking())
    {
      session := session.(pinned := true);
    }

    method OnServiceUnregistered()
      requires Valid()
      modifies `session, `slot, `held, `searchHolder
      modifies `countryModel, `groupModel, `serverModel, `searchModel, `flags, `page, `search
      ensures Valid() && Settled() && !slot.busy && Forgotten(old(page), old(search))
      ensures session == Session(false, false, false, false, old(session.backend) + 1,
                                 old(session.session) + if old(session.loggedIn) then 1 else 0)
      ensures Steady(old(Seeking()), Seeking())
    {
      Renew(Session(false, false, false, false, session.backend + 1,
                    session.session + if session.loggedIn then 1 else 0));
      ClearBrowser();
    }
  }

  // ---- What every reachable state guarantees ----

  /** The slot is busy exactly while one call or timer is live, and its load has made a bounded number of calls. */
  lemma SlotIsExact(b: LocationBrowser)
    requires b.Valid()
    ensures b.slot.busy ==>
              b.held.attempts <= match b.bus.calls[b.held.id].request
                            case Countries | Loads(_) => 1
                            case Groups(_, _) | GroupsTimer(_, _) => 5
                            case Servers(_, _, _, _, _) | ServersTimer(_, _, _, _, _) => 3
    ensures b.serverModel != [] ==>
              b.serverSource == Servers(b.page.country, b.page.kind, b.page.name, b.serverSource.generation, b.serverSource.retry)
    ensures var live := set id | id in b.bus.calls && b.Live(b.bus.calls[id]);
            |live| == if b.slot.busy then 1 else 0
  {
    var live := set id | id in b.bus.calls && b.Live(b.bus.calls[id]);
    if b.slot.busy {
      assert live == {b.held.id};
    } else {
      assert live == {};
    }
  }

  /** A search is pending exactly while one search call is live; a current call asks for the current query. */
  lemma SearchSlotIsExact(b: LocationBrowser)
    requires b.Valid()
    ensures var live := set id | id in b.searchBus.calls && b.LiveSearch(b.searchBus.calls[id]);
            |live| == if b.search.requestPending then 1 else 0
    ensures b.search.busy ==> b.search.requestPending && b.search.query != ""
    ensures match b.searchModel
            case Cleared => b.search.query == ""
            case Computed(query, countries, rows) =>
              query == b.search.query && countries == b.countryModel
              && (rows != [] ==> b.resultSource.query == query && b.resultSource.generation == b.search.generation)
  {
    var live := set id | id in b.searchBus.calls && b.LiveSearch(b.searchBus.calls[id]);
    if b.search.requestPending {
      assert live == {b.searchHolder.id};
    } else {
      assert live == {};
    }
  }

  /** The scheduler leaves the slot free only if nothing that could run is due. */
  lemma DueMeansRunnable(b: LocationBrowser)
    ensures b.Due() <==> Next(b.flags, b.page).Run?
    ensures Next(b.flags, b.page).Run? ==> Next(b.flags, b.page).request.Attempts() == 1
  {
  }

  /** A browser that served its session, and whose backend is out of reach. */
  method Unreached() returns (b: LocationBrowser)
    ensures fresh(b) && b.Valid() && b.session.pinned && b.session.ready && b.session.loggedIn && !b.session.available
    ensures !b.search.requestPending && !b.slot.busy
  {
    b := new LocationBrowser();
    b.PinOwner();
    b.ApplySnapshot(true, true);
  }

  /** A refresh that became due out of reach stays undone, even once the owner's state was read again. */
  method RefreshIsOverlooked() returns (b: LocationBrowser)
    ensures fresh(b) && b.Valid() && !b.Settled()
    ensures b.session.CanServe() && !b.slot.busy && b.flags.countries
  {
    b := Unreached();
    b.LoadCountries();
    b.OnSnapshotRead(Usable(true, true));
  }

  /** A query typed while the backend was out of reach stays unsent, even once the owner's state was read again. */
  method QueryIsOverlooked(text: string) returns (b: LocationBrowser)
    requires Text.Simplified(text) != ""
    ensures fresh(b) && b.Valid() && !b.Seeking().Settled()
    ensures b.session.CanServe() && b.search.query != "" && !b.search.requestPending
  {
    b := Unreached();
    b.SearchLocations(text);
    b.OnSnapshotRead(Usable(true, true));
  }
}
