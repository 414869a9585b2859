/** The location-permission hook: a permission/location state record, the
    persisted copy of the last granted position, and the watch handle of the
    continuous position subscription.

    Every platform answer (permission query, position outcome, watch id) is a
    parameter, so each asynchronous operation of the hook is one sequential
    transition. The functions After* give the net effect of each operation on
    a Hook snapshot; the class LocationPermissionHook performs the same
    operations step by step, the way the hook calls setState, and is proved
    to reach exactly the snapshot the function describes. */
module LocationPermission {
  import opened Geo

  /** The hook's state record. */
  datatype LocationState = LocationState(
    latitude: Option<int>,
    longitude: Option<int>,
    accuracy: Option<int>,
    error: Option<string>,
    loading: bool,
    permissionState: PermissionState,
    isWatching: bool)

  /** The state the hook starts from, and the one clearPermissions restores. */
  const InitialState := LocationState(None, None, None, None, false, Unknown, false)

  /** Which browser capabilities exist. `storageAvailable` stands for
      "window is defined and localStorage does not throw". */
  datatype Platform = Platform(storageAvailable: bool, hasPermissions: bool, hasGeolocation: bool)

  /** A parsed localStorage record (the timestamp it also carries is never read). */
  datatype StoredData = StoredData(
    latitude: Option<int>,
    longitude: Option<int>,
    accuracy: Option<int>,
    permissionState: PermissionState)

  /** The text stored under the hook's key: a JSON record, or text that is
      empty or does not parse to a record. */
  datatype StoredEntry = Json(data: StoredData) | NotJson

  const OneShotOptions := PositionOptions(Some(true), Some(15000), Some(60000))
  const WatchOptions := PositionOptions(Some(true), Some(15000), Some(10000))

  /** Messages of the one-shot request (getCurrentLocation). */
  const LocationMessages := MessageTable(
    "Konum izni reddedildi. Lütfen tarayıcı ayarlarından konum iznini etkinleştirin.",
    "Konum bilgisi mevcut değil. GPS sinyal kalitesini kontrol edin.",
    "Konum alma işlemi zaman aşımına uğradı. Tekrar deneyin.",
    "Bilinmeyen bir hata oluştu.")

  /** Messages of the watch error handler. */
  const WatchMessages := MessageTable(
    "Konum izni reddedildi.",
    "Konum bilgisi mevcut değil.",
    "Konum alma işlemi zaman aşımına uğradı.",
    "Bilinmeyen bir hata oluştu.")

  const PreviouslyDeniedMessage := "Konum izni daha önce reddedilmiş. Lütfen tarayıcı ayarlarından izni manuel olarak etkinleştirin."

  /** Each message table tells its four error kinds apart. */
  lemma MessageTablesDistinct()
    ensures LocationMessages.Distinct() && WatchMessages.Distinct()
  {
  }

  // ---------------------------------------------------------------------
  // Persistence

  /** The states saveToStorage is willing to persist. */
  predicate Storable(s: LocationState) {
    s.permissionState == Granted && Truthy(s.latitude) && Truthy(s.longitude)
  }

  /** The records loadFromStorage is willing to hand back. */
  predicate Loadable(d: StoredData) {
    d.permissionState == Granted && Truthy(d.latitude) && Truthy(d.longitude)
  }

  predicate HoldsLoadable(e: Option<StoredEntry>) {
    e.Some? && e.value.Json? && Loadable(e.value.data)
  }

  function RecordOf(s: LocationState): StoredData {
    StoredData(s.latitude, s.longitude, s.accuracy, s.permissionState)
  }

  /** saveToStorage: the new content of the stored entry. */
  function SaveToStorage(p: Platform, s: LocationState, stored: Option<StoredEntry>): (r: Option<StoredEntry>)
    ensures r != stored ==> Storable(s) && HoldsLoadable(r)
    ensures p.storageAvailable && Storable(s) ==> r == Some(Json(RecordOf(s)))
    ensures !p.storageAvailable || !Storable(s) ==> r == stored
  {
    if p.storageAvailable && Storable(s) then Some(Json(RecordOf(s))) else stored
  }

  /** clearStorage: the entry is removed whenever storage can be reached. */
  function ClearStorage(p: Platform, stored: Option<StoredEntry>): (r: Option<StoredEntry>)
    ensures p.storageAvailable ==> r == None
    ensures !p.storageAvailable ==> r == stored
  {
    if p.storageAvailable then None else stored
  }

  /** loadFromStorage: the stored record when it is granted with truthy
      coordinates, otherwise nothing (also for unparsable text). */
  function LoadFromStorage(p: Platform, stored: Option<StoredEntry>): (r: Option<StoredData>)
    ensures r.Some? <==> p.storageAvailable && HoldsLoadable(stored)
    ensures r.Some? ==> r.value == stored.value.data && Loadable(r.value)
  {
    if !p.storageAvailable then None
    else match stored
      case Some(Json(d)) => if d.permissionState == Granted && Truthy(d.latitude) && Truthy(d.longitude) then Some(d) else None
      case _ => None
  }

  /** What is saved comes back unchanged. */
  lemma SaveThenLoad(p: Platform, s: LocationState, stored: Option<StoredEntry>)
    requires p.storageAvailable && Storable(s)
    ensures LoadFromStorage(p, SaveToStorage(p, s, stored)) == Some(RecordOf(s))
    ensures var d := RecordOf(s);
      d.latitude == s.latitude && d.longitude == s.longitude && d.accuracy == s.accuracy && d.permissionState == s.permissionState
  {
  }

  /** Nothing comes back after a clear. */
  lemma ClearThenLoad(p: Platform, stored: Option<StoredEntry>)
    ensures LoadFromStorage(p, ClearStorage(p, stored)) == None || !p.storageAvailable
  {
  }

  // ---------------------------------------------------------------------
  // Platform queries

  /** checkPermissionState: the platform's answer, or unknown when either API
      is missing or the query rejects. */
  function CheckPermissionState(p: Platform, q: QueryAnswer): (r: PermissionState)
    ensures !p.hasPermissions || !p.hasGeolocation || q.Threw? ==> r == Unknown
    ensures p.hasPermissions && p.hasGeolocation && q.Answered? ==> r == q.state
    ensures r == Denied ==> p.hasPermissions && p.hasGeolocation && q == Answered(Denied)
  {
    if !p.hasPermissions || !p.hasGeolocation then Unknown
    else match q
      case Answered(s) => s
      case Threw => Unknown
  }

  /** How getCurrentLocation's promise settles. */
  datatype Located = Located(coords: Coords) | Rejected(message: string)

  /** The settlement of getCurrentLocation for a platform outcome. */
  function LocationOutcome(p: Platform, outcome: PositionOutcome): (r: Located)
    ensures r.Located? <==> p.hasGeolocation && outcome.Position?
    ensures r.Located? ==> r.coords == outcome.coords
    ensures !p.hasGeolocation ==> r == Rejected(UnsupportedMessage)
    ensures p.hasGeolocation && outcome.PositionError? ==> r == Rejected(LocationMessages.Message(outcome.code))
  {
    if !p.hasGeolocation then Rejected(UnsupportedMessage)
    else match outcome
      case Position(c) => Located(c)
      case PositionError(code) => Rejected(LocationMessages.Message(code))
  }

  /** The message a failed one-shot request settles with tells the error
      kind back, and is never the message for a missing geolocation API. */
  lemma RejectionNamesKind(p: Platform, c1: int, c2: int)
    requires p.hasGeolocation
    requires LocationOutcome(p, PositionError(c1)) == LocationOutcome(p, PositionError(c2))
    ensures Classify(c1) == Classify(c2)
    ensures LocationOutcome(p, PositionError(c1)) != Rejected(UnsupportedMessage)
  {
    MessageTablesDistinct();
    MessageDeterminesKind(LocationMessages, c1, c2);
  }

  // ---------------------------------------------------------------------
  // The hook as a value

  /** A registered watch: the watchId value its error handler closed over,
      and the options it was registered with. */
  datatype Watch = Watch(captured: Option<int>, options: PositionOptions)

  /** Everything the hook's operations read or change: the state record, the
      watch handle, the platform's registered watches, the stored entry, the
      one-shot position requests issued (with their options), and the
      hydration flag. */
  datatype Hook = Hook(
    state: LocationState,
    watchId: Option<int>,
    watches: map<int, Watch>,
    stored: Option<StoredEntry>,
    positionRequests: seq<PositionOptions>,
    isHydrated: bool)

  /** The hook right after mounting over whatever the browser has stored. */
  function Mounted(stored: Option<StoredEntry>): Hook {
    Hook(InitialState, None, map[], stored, [], false)
  }

  /** The invariant every operation keeps: the platform holds a watch exactly
      when the hook holds its handle, there is at most that one, its error
      handler captured a null handle, and isWatching implies a handle. */
  predicate Consistent(h: Hook) {
    && h.watches == (if h.watchId.Some? then map[h.watchId.value := Watch(None, WatchOptions)] else map[])
    && (h.state.isWatching ==> h.watchId.Some?)
  }

  lemma ConsistentHasOneWatch(h: Hook)
    requires Consistent(h)
    ensures |h.watches| <= 1
    ensures h.watchId.Some? <==> |h.watches| == 1
  {
    if h.watchId.Some? {
      assert h.watches.Keys == {h.watchId.value};
    } else {
      assert h.watches.Keys == {};
    }
  }

  /** A write to storage either leaves the entry alone, removes it, or stores
      a granted record with truthy coordinates. */
  predicate StorageStep(before: Option<StoredEntry>, after: Option<StoredEntry>) {
    after == before || after == None || HoldsLoadable(after)
  }

  lemma StorageStepTransitive(a: Option<StoredEntry>, b: Option<StoredEntry>, c: Option<StoredEntry>)
    requires StorageStep(a, b) && StorageStep(b, c)
    ensures StorageStep(a, c)
  {
  }

  /** The state after a successful position fix. */
  function GrantedState(c: Coords, watching: bool): (s: LocationState)
    ensures Storable(s) <==> c.latitude != 0 && c.longitude != 0
  {
    LocationState(Some(c.latitude), Some(c.longitude), Some(c.accuracy), None, false, Granted, watching)
  }

  /** startWatching. */
  function AfterStartWatching(p: Platform, h: Hook, id: int): (r: Hook)
    ensures r == h <==> !p.hasGeolocation || h.watchId.Some?
    ensures r != h ==> r.watchId == Some(id) && r.state == h.state.(isWatching := true)
    ensures r != h ==> r.watches == h.watches[id := Watch(None, WatchOptions)]
    ensures r.stored == h.stored && r.positionRequests == h.positionRequests && r.isHydrated == h.isHydrated
    ensures Consistent(h) ==> Consistent(r)
  {
    if !p.hasGeolocation || h.watchId.Some? then h
    else h.(watches := h.watches[id := Watch(h.watchId, WatchOptions)],
            watchId := Some(id),
            state := h.state.(isWatching := true))
  }

  /** stopWatching. */
  function AfterStopWatching(h: Hook): (r: Hook)
    ensures r.watchId == None && r.state == h.state.(isWatching := false)
    ensures r.watches == if h.watchId.Some? then h.watches - {h.watchId.value} else h.watches
    ensures r.stored == h.stored && r.positionRequests == h.positionRequests && r.isHydrated == h.isHydrated
    ensures Consistent(h) ==> Consistent(r) && r.watches == map[]
  {
    var h1 := if h.watchId.Some? then h.(watches := h.watches - {h.watchId.value}, watchId := None) else h;
    h1.(state := h1.state.(isWatching := false))
  }

  lemma StartWatchingIdempotent(p: Platform, h: Hook, id1: int, id2: int)
    ensures AfterStartWatching(p, AfterStartWatching(p, h, id1), id2) == AfterStartWatching(p, h, id1)
  {
  }

  lemma StopWatchingIdempotent(h: Hook)
    ensures AfterStopWatching(AfterStopWatching(h)) == AfterStopWatching(h)
  {
  }

  /** The platform's answers to one requestPermission run: the permission
      query, the one-shot position outcome, the re-query after a failure, and
      the id watchPosition hands out if a watch is started. */
  datatype Request = Request(first: QueryAnswer, position: PositionOutcome, requery: QueryAnswer, watchId: int)

  /** requestPermission. */
  function AfterRequestPermission(p: Platform, h: Hook, req: Request): (r: Hook)
    // a known denial never reaches the position API
    ensures CheckPermissionState(p, req.first) == Denied ==>
      && r.positionRequests == h.positionRequests
      && r.watches == h.watches && r.watchId == h.watchId
      && r.stored == ClearStorage(p, h.stored)
      && r.state == h.state.(permissionState := Denied, error := Some(PreviouslyDeniedMessage), loading := false)
    // otherwise exactly one one-shot request is issued when geolocation exists
    ensures CheckPermissionState(p, req.first) != Denied ==>
      r.positionRequests == h.positionRequests + (if p.hasGeolocation then [OneShotOptions] else [])
    // a fix grants, saves, and starts watching
    ensures CheckPermissionState(p, req.first) != Denied && LocationOutcome(p, req.position).Located? ==>
      var c := req.position.coords;
      && r.state == GrantedState(c, h.watchId.None?)
      && r.stored == SaveToStorage(p, GrantedState(c, false), h.stored)
      && r.watchId == (if h.watchId.Some? then h.watchId else Some(req.watchId))
    // a failure records the classified message, re-queries, keeps the coordinates
    ensures CheckPermissionState(p, req.first) != Denied && LocationOutcome(p, req.position).Rejected? ==>
      var again := CheckPermissionState(p, req.requery);
      && r.state == h.state.(error := Some(LocationOutcome(p, req.position).message), loading := false, permissionState := again)
      && r.stored == (if again == Denied then ClearStorage(p, h.stored) else h.stored)
      && r.watches == h.watches && r.watchId == h.watchId
    ensures !r.state.loading && r.isHydrated == h.isHydrated
    ensures Consistent(h) ==> Consistent(r)
    ensures StorageStep(h.stored, r.stored)
  {
    var h1 := h.(state := h.state.(loading := true, error := None));
    if CheckPermissionState(p, req.first) == Denied then
      h1.(stored := ClearStorage(p, h1.stored),
          state := h1.state.(permissionState := Denied, error := Some(PreviouslyDeniedMessage), loading := false))
    else
      var h2 := if p.hasGeolocation then h1.(positionRequests := h1.positionRequests + [OneShotOptions]) else h1;
      match LocationOutcome(p, req.position)
      case Located(c) =>
        var s := GrantedState(c, false);
        AfterStartWatching(p, h2.(state := s, stored := SaveToStorage(p, s, h2.stored)), req.watchId)
      case Rejected(message) =>
        var again := CheckPermissionState(p, req.requery);
        h2.(stored := if again == Denied then ClearStorage(p, h2.stored) else h2.stored,
            state := h2.state.(error := Some(message), loading := false, permissionState := again))
  }

  /** The error a request leaves behind depends on this request alone, never
      on an error left over from an earlier one. */
  lemma RequestErrorIsFresh(p: Platform, h: Hook, stale: Option<string>, req: Request)
    ensures AfterRequestPermission(p, h.(state := h.state.(error := stale)), req).state.error
         == AfterRequestPermission(p, h, req).state.error
  {
  }

  /** The watch success handler. */
  function AfterWatchSuccess(p: Platform, h: Hook, id: int, c: Coords): (r: Hook)
    requires id in h.watches
    ensures r.state == GrantedState(c, true)
    ensures r.stored == SaveToStorage(p, GrantedState(c, true), h.stored)
    ensures r.watches == h.watches && r.watchId == h.watchId
    ensures r.positionRequests == h.positionRequests && r.isHydrated == h.isHydrated
    ensures Consistent(h) ==> Consistent(r)
  {
    var s := GrantedState(c, true);
    h.(state := s, stored := SaveToStorage(p, s, h.stored))
  }

  /** The watch error handler. It cancels the watch only through the watchId
      its closure captured when the watch was registered. */
  function AfterWatchError(h: Hook, id: int, code: int): (r: Hook)
    requires id in h.watches
    ensures r.state == h.state.(error := Some(WatchMessages.Message(code)), loading := false, isWatching := false)
    ensures r.stored == h.stored && r.positionRequests == h.positionRequests && r.isHydrated == h.isHydrated
    // the captured handle is always null, so the cancellation never happens
    ensures Consistent(h) ==> Consistent(r) && r.watches == h.watches && r.watchId == h.watchId
    ensures r.watches.Keys <= h.watches.Keys
  {
    var captured := h.watches[id].captured;
    var h1 := if Classify(code) == PermissionDenied && captured.Some?
              then h.(watches := h.watches - {captured.value}, watchId := None)
              else h;
    h1.(state := h1.state.(error := Some(WatchMessages.Message(code)), loading := false, isWatching := false))
  }

  /** The message a watch error records tells its error kind back. */
  lemma WatchErrorNamesKind(h: Hook, id: int, c1: int, c2: int)
    requires id in h.watches
    requires AfterWatchError(h, id, c1).state.error == AfterWatchError(h, id, c2).state.error
    ensures Classify(c1) == Classify(c2)
  {
    MessageTablesDistinct();
    MessageDeterminesKind(WatchMessages, c1, c2);
  }

  /** clearPermissions. */
  function AfterClearPermissions(p: Platform, h: Hook): (r: Hook)
    ensures r.state == InitialState && r.watchId == None
    ensures r.stored == ClearStorage(p, h.stored)
    ensures r.positionRequests == h.positionRequests && r.isHydrated == h.isHydrated
    ensures Consistent(h) ==> Consistent(r) && r.watches == map[]
    ensures r.watches.Keys <= h.watches.Keys
  {
    var h1 := AfterStopWatching(h);
    h1.(stored := ClearStorage(p, h1.stored), state := InitialState)
  }

  /** The hydration effect: the stored record, when loadable, supplies the
      coordinates, accuracy and permission. */
  function AfterHydrate(p: Platform, h: Hook): (r: Hook)
    ensures r.isHydrated
    ensures LoadFromStorage(p, h.stored).Some? ==>
      var d := h.stored.value.data;
      r.state == h.state.(latitude := d.latitude, longitude := d.longitude, accuracy := d.accuracy, permissionState := Granted)
    ensures LoadFromStorage(p, h.stored).None? ==> r.state == h.state
    ensures r.watches == h.watches && r.watchId == h.watchId && r.stored == h.stored
    ensures r.positionRequests == h.positionRequests
    ensures Consistent(h) ==> Consistent(r)
  {
    var loaded := LoadFromStorage(p, h.stored);
    var h1 := h.(isHydrated := true);
    if loaded.Some? && loaded.value.permissionState == Granted && Truthy(loaded.value.latitude) && Truthy(loaded.value.longitude) then
      var d := loaded.value;
      h1.(state := h1.state.(latitude := d.latitude, longitude := d.longitude, accuracy := d.accuracy, permissionState := d.permissionState))
    else h1
  }

  /** The shared body of the initialisation effect and of the permission
      change listener: adopt the queried permission, and fetch a position when
      it is granted and no latitude is known yet. */
  function AfterReconcile(p: Platform, h: Hook, query: QueryAnswer, req: Request): (r: Hook)
    ensures var granted := CheckPermissionState(p, query);
      granted == Granted && !Truthy(h.state.latitude) ==>
        r == AfterRequestPermission(p, h.(state := h.state.(permissionState := Granted)), req)
    ensures CheckPermissionState(p, query) != Granted || Truthy(h.state.latitude) ==>
      r == h.(state := h.state.(permissionState := CheckPermissionState(p, query)))
  {
    var permission := CheckPermissionState(p, query);
    var h1 := h.(state := h.state.(permissionState := permission));
    if permission == Granted && !Truthy(h.state.latitude) then AfterRequestPermission(p, h1, req) else h1
  }

  /** The initialisation effect, which waits for hydration. */
  function AfterInitialize(p: Platform, h: Hook, query: QueryAnswer, req: Request): (r: Hook)
    ensures !h.isHydrated ==> r == h
    ensures h.isHydrated ==> r == AfterReconcile(p, h, query, req)
  {
    if !h.isHydrated then h else AfterReconcile(p, h, query, req)
  }

  /** The permission change listener, attached only after hydration and only
      when the Permissions API exists. */
  function AfterPermissionChange(p: Platform, h: Hook, query: QueryAnswer, req: Request): (r: Hook)
    ensures !h.isHydrated || !p.hasPermissions ==> r == h
    ensures h.isHydrated && p.hasPermissions ==> r == AfterReconcile(p, h, query, req)
  {
    if !h.isHydrated || !p.hasPermissions then h else AfterReconcile(p, h, query, req)
  }

  // ---------------------------------------------------------------------
  // Runs of the hook

  /** One thing that can happen to the hook. Watch callbacks name the watch
      they belong to; the platform delivers callbacks only for registered
      watches. */
  datatype Event =
    | Hydrate
    | Initialize(query: QueryAnswer, req: Request)
    | PermissionChange(query: QueryAnswer, req: Request)
    | RequestPermission(req: Request)
    | StartWatching(id: int)
    | StopWatching
    | WatchSuccess(id: int, coords: Coords)
    | WatchError(id: int, code: int)
    | ClearPermissions

  function Step(p: Platform, h: Hook, e: Event): Hook {
    match e
    case Hydrate => AfterHydrate(p, h)
    case Initialize(q, req) => AfterInitialize(p, h, q, req)
    case PermissionChange(q, req) => AfterPermissionChange(p, h, q, req)
    case RequestPermission(req) => AfterRequestPermission(p, h, req)
    case StartWatching(id) => AfterStartWatching(p, h, id)
    case StopWatching => AfterStopWatching(h)
    case WatchSuccess(id, c) => if id in h.watches then AfterWatchSuccess(p, h, id, c) else h
    case WatchError(id, code) => if id in h.watches then AfterWatchError(h, id, code) else h
    case ClearPermissions => AfterClearPermissions(p, h)
  }

  function Run(p: Platform, h: Hook, events: seq<Event>): Hook
    decreases |events|
  {
    if events == [] then h else Run(p, Step(p, h, events[0]), events[1..])
  }

  lemma StepKeepsInvariants(p: Platform, h: Hook, e: Event)
    requires Consistent(h)
    ensures Consistent(Step(p, h, e))
    ensures StorageStep(h.stored, Step(p, h, e).stored)
  {
  }

  /** Whatever happens, in any order: at most one watch is ever registered,
      it always matches the hook's handle, and the stored entry is either the
      one found at mount, absent, or a granted record with coordinates. */
  lemma {:induction false} RunKeepsInvariants(p: Platform, h: Hook, events: seq<Event>)
    requires Consistent(h)
    ensures Consistent(Run(p, h, events))
    ensures |Run(p, h, events).watches| <= 1
    ensures StorageStep(h.stored, Run(p, h, events).stored)
    decreases |events|
  {
    if events == [] {
      ConsistentHasOneWatch(h);
    } else {
      var h1 := Step(p, h, events[0]);
      StepKeepsInvariants(p, h, events[0]);
      RunKeepsInvariants(p, h1, events[1..]);
      StorageStepTransitive(h.stored, h1.stored, Run(p, h1, events[1..]).stored);
    }
  }

  /** Starting from an empty store, storage only ever holds granted records
      with truthy coordinates. */
  lemma StorageOnlyHoldsGrantedRecords(p: Platform, events: seq<Event>)
    ensures var r := Run(p, Mounted(None), events);
      r.stored == None || HoldsLoadable(r.stored)
  {
    RunKeepsInvariants(p, Mounted(None), events);
  }

  /** Every permission query in this event answers "denied". */
  predicate DeniedEvent(e: Event) {
    match e
    case Initialize(q, req) => q == Answered(Denied)
    case PermissionChange(q, req) => q == Answered(Denied)
    case RequestPermission(req) => req.first == Answered(Denied)
    case _ => true
  }

  lemma DeniedStepNeverRequestsPosition(p: Platform, h: Hook, e: Event)
    requires p.hasPermissions && p.hasGeolocation && DeniedEvent(e)
    ensures Step(p, h, e).positionRequests == h.positionRequests
    ensures !e.StartWatching? ==> Step(p, h, e).watches.Keys <= h.watches.Keys
  {
  }

  /** While the platform keeps answering "denied", no run issues a one-shot
      position request, and only a direct startWatching call registers a
      watch. */
  lemma {:induction false} DeniedRunNeverRequestsPosition(p: Platform, h: Hook, events: seq<Event>)
    requires p.hasPermissions && p.hasGeolocation
    requires forall i :: 0 <= i < |events| ==> DeniedEvent(events[i])
    ensures Run(p, h, events).positionRequests == h.positionRequests
    ensures (forall i :: 0 <= i < |events| ==> !events[i].StartWatching?) ==>
      Run(p, h, events).watches.Keys <= h.watches.Keys
    decreases |events|
  {
    if events != [] {
      DeniedStepNeverRequestsPosition(p, h, events[0]);
      DeniedRunNeverRequestsPosition(p, Step(p, h, events[0]), events[1..]);
    }
  }

  /** After a reset, a new session hydrates to the initial state. */
  lemma ClearThenHydrate(p: Platform, h: Hook)
    requires p.storageAvailable
    ensures AfterHydrate(p, AfterClearPermissions(p, h)).state == InitialState
  {
  }

  /** A fix saved by the watch is what the next session hydrates to. */
  lemma WatchFixSurvivesReload(p: Platform, h: Hook, id: int, c: Coords)
    requires p.storageAvailable && id in h.watches && c.latitude != 0 && c.longitude != 0
    ensures var next := Mounted(AfterWatchSuccess(p, h, id, c).stored);
      AfterHydrate(p, next).state == InitialState.(latitude := Some(c.latitude), longitude := Some(c.longitude),
                                                   accuracy := Some(c.accuracy), permissionState := Granted)
  {
  }

  /** clearPermissions nulls the latitude, so the initialisation effect runs
      again; with the permission still granted it asks for a new fix at once,
      starts watching and saves the new fix for the next session. */
  lemma ClearThenReinitialize(p: Platform, h: Hook, req: Request)
    requires p.storageAvailable && p.hasPermissions && p.hasGeolocation && h.isHydrated
    requires req.first == Answered(Granted) && req.position.Position?
    requires req.position.coords.latitude != 0 && req.position.coords.longitude != 0
    ensures var r := AfterInitialize(p, AfterClearPermissions(p, h), Answered(Granted), req);
      var c := req.position.coords;
      && r.state == GrantedState(c, true)
      && r.positionRequests == h.positionRequests + [OneShotOptions]
      && r.watchId == Some(req.watchId)
      && LoadFromStorage(p, r.stored) == Some(StoredData(Some(c.latitude), Some(c.longitude), Some(c.accuracy), Granted))
  {
    var cleared := AfterClearPermissions(p, h);
    var granted := cleared.(state := cleared.state.(permissionState := Granted));
    var c := req.position.coords;
    SaveThenLoad(p, GrantedState(c, false), granted.stored);
  }

  /** Coordinates are not tied to a granted permission: a failed request
      after a fix keeps the old coordinates while the permission becomes the
      re-queried "denied". */
  lemma CoordinatesOutliveGrant()
    ensures var p := Platform(true, true, true);
      var h := Mounted(None).(state := GrantedState(Coords(41, 29, 5), false));
      var r := AfterRequestPermission(p, h, Request(Answered(Prompt), PositionError(TIMEOUT), Answered(Denied), 7));
      r.state.latitude == Some(41) && r.state.permissionState == Denied
  {
  }

  // ---------------------------------------------------------------------
  // The hook as an object

  class LocationPermissionHook {
    const platform: Platform
    var state: LocationState
    var watchId: Option<int>
    /** The watches the platform currently holds, by id. */
    var watches: map<int, Watch>
    /** The localStorage entry under the hook's key. */
    var stored: Option<StoredEntry>
    /** The getCurrentPosition calls made so far, with their options. */
    var positionRequests: seq<PositionOptions>
    var isHydrated: bool

    function Snapshot(): Hook
      reads this
    {
      Hook(state, watchId, watches, stored, positionRequests, isHydrated)
    }

    predicate Valid()
      reads this
    {
      Consistent(Snapshot())
    }

    constructor (platform: Platform, stored: Option<StoredEntry>)
      ensures this.platform == platform && Snapshot() == Mounted(stored) && Valid()
    {
      this.platform := platform;
      state := InitialState;
      watchId := None;
      watches := map[];
      this.stored := stored;
      positionRequests := [];
      isHydrated := false;
    }

    method StartWatching(id: int)
      requires Valid()
      modifies this
      ensures Valid() && Snapshot() == AfterStartWatching(platform, old(Snapshot()), id)
    {
      if !platform.hasGeolocation || watchId.Some? {
        return;
      }
      // watchPosition registers the handlers, which close over the current handle
      watches := watches[id := Watch(watchId, WatchOptions)];
      watchId := Some(id);
      state := state.(isWatching := true);
    }

    method StopWatching()
      requires Valid()
      modifies this
      ensures Valid() && Snapshot() == AfterStopWatching(old(Snapshot()))
    {
      if watchId.Some? {
        watches := watches - {watchId.value};
        watchId := None;
      }
      state := state.(isWatching := false);
    }

    method HandleWatchSuccess(id: int, c: Coords)
      requires Valid() && id in watches
      modifies this
      ensures Valid() && Snapshot() == AfterWatchSuccess(platform, old(Snapshot()), id, c)
    {
      var newState := GrantedState(c, true);
      state := newState;
      stored := SaveToStorage(platform, newState, stored);
    }

    method HandleWatchError(id: int, code: int)
      requires Valid() && id in watches
      modifies this
      ensures Valid() && Snapshot() == AfterWatchError(old(Snapshot()), id, code)
    {
      var message := WatchMessages.Message(code);
      var captured := watches[id].captured;
      if Classify(code) == PermissionDenied && captured.Some? {
        watches := watches - {captured.value};
        watchId := None;
      }
      state := state.(error := Some(message), loading := false, isWatching := false);
    }

    /** getCurrentLocation: issues the one-shot request when geolocation exists. */
    method GetCurrentLocation(outcome: PositionOutcome) returns (r: Located)
      modifies this`positionRequests
      ensures r == LocationOutcome(platform, outcome)
      ensures positionRequests == old(positionRequests) + (if platform.hasGeolocation then [OneShotOptions] else [])
    {
      if !platform.hasGeolocation {
        return Rejected(UnsupportedMessage);
      }
      positionRequests := positionRequests + [OneShotOptions];
      match outcome
      case Position(c) => r := Located(c);
      case PositionError(code) => r := Rejected(LocationMessages.Message(code));
    }

    method RequestPermission(req: Request)
      requires Valid()
      modifies this
      ensures Valid() && Snapshot() == AfterRequestPermission(platform, old(Snapshot()), req)
    {
      state := state.(loading := true, error := None);
      var permission := CheckPermissionState(platform, req.first);
      if permission == Denied {
        stored := ClearStorage(platform, stored);
        state := state.(permissionState := Denied, error := Some(PreviouslyDeniedMessage), loading := false);
        return;
      }
      var located := GetCurrentLocation(req.position);
      match located
      case Located(c) =>
        var newState := GrantedState(c, false);
        state := newState;
        stored := SaveToStorage(platform, newState, stored);
        StartWatching(req.watchId);
      case Rejected(message) =>
        var again := CheckPermissionState(platform, req.requery);
        if again == Denied {
          stored := ClearStorage(platform, stored);
        }
        state := state.(error := Some(message), loading := false, permissionState := again);
    }

    method ClearPermissions()
      requires Valid()
      modifies this
      ensures Valid() && Snapshot() == AfterClearPermissions(platform, old(Snapshot()))
    {
      StopWatching();
      stored := ClearStorage(platform, stored);
      state := InitialState;
    }

    method Hydrate()
      requires Valid()
      modifies this
      ensures Valid() && Snapshot() == AfterHydrate(platform, old(Snapshot()))
    {
      isHydrated := true;
      var loaded := LoadFromStorage(platform, stored);
      if loaded.Some? && loaded.value.permissionState == Granted && Truthy(loaded.value.latitude) && Truthy(loaded.value.longitude) {
        var d := loaded.value;
        state := state.(latitude := d.latitude, longitude := d.longitude, accuracy := d.accuracy, permissionState := d.permissionState);
      }
    }

    method Reconcile(query: QueryAnswer, req: Request)
      requires Valid()
      modifies this
      ensures Valid() && Snapshot() == AfterReconcile(platform, old(Snapshot()), query, req)
    {
      var latitude := state.latitude;
      var permission := CheckPermissionState(platform, query);
      state := state.(permissionState := permission);
      if permission == Granted && !Truthy(latitude) {
        RequestPermission(req);
      }
    }

    method InitializePermission(query: QueryAnswer, req: Request)
      requires Valid()
      modifies this
      ensures Valid() && Snapshot() == AfterInitialize(platform, old(Snapshot()), query, req)
    {
      if !isHydrated {
        return;
      }
      Reconcile(query, req);
    }

    method HandlePermissionChange(query: QueryAnswer, req: Request)
      requires Valid()
      modifies this
      ensures Valid() && Snapshot() == AfterPermissionChange(platform, old(Snapshot()), query, req)
    {
      if !isHydrated || !platform.hasPermissions {
        return;
      }
      Reconcile(query, req);
    }
  }
}
