# Location permission and geolocation state machine (nefes)

This project models the location side of the nefes air-quality dashboard in Dafny:

- `useLocationPermission` tracks the browser's geolocation permission and the user's coordinates. It persists the last granted fix in localStorage and keeps one continuous position watch.
- `useGeolocation` is a simpler one-shot variant.
- The home page shows or hides the permission dialog and decides whether a map is drawn.

Every browser answer is a parameter: the permission query result, the position outcome (coordinates or an error code), the id `watchPosition` hands out, and which APIs exist. Each asynchronous operation is therefore one deterministic, sequential transition.

Files:

- `Geo.dfy` (module `Geo`): shared vocabulary. It holds the permission states, JavaScript truthiness of a nullable coordinate, position options and outcomes, the classification of `GeolocationPositionError` codes, and the four-message tables.
- `LocationPermission.dfy` (module `LocationPermission`): `useLocationPermission`.
  - The `After*` functions give the net effect of each operation on a `Hook` snapshot. The snapshot holds the state record, the watch handle, the platform's registered watches, the stored entry, the one-shot requests issued and the hydration flag.
  - The class `LocationPermissionHook` carries the same data as fields. Its methods update them step by step, as the hook calls `setState`, and each is proved to reach exactly the snapshot its `After*` function gives.
  - `Event`, `Step` and `Run` describe arbitrary sequences of operations. Inductive lemmas prove the gating rules over all of them.
- `Geolocation.dfy` (module `Geolocation`): `useGeolocation` as the class `GeolocationHook`. Issuing a request (mount, refresh) and receiving its callback are separate methods. The option merge is a pure function.
- `Home.dfy` (module `Home`): the dialog-visibility step, the map gate, and the class `HomePage` holding the dialog flag.

Coordinates and accuracy are integers, because only their truthiness and identity matter (`0` and `null` are falsy). The key under which the hook persists, `nefes_location_permission`, is implicit: the field `stored` is the value under that key.

Behaviour worth knowing, proved in the model:

- `handleError` cancels the watch only through the `watchId` its closure captured when `startWatching` ran. `startWatching` registers a watch only while `watchId` is null, so the captured value is always null. `Consistent` records this (`Watch.captured == None`), and `AfterWatchError` proves that a permission-denied watch error leaves the watch registered and the handle set.
- Coordinates are not tied to a granted permission. A failed request keeps the previous coordinates and replaces the permission by the re-queried state. `CoordinatesOutliveGrant` exhibits this.
- `clearPermissions` does not end the session's use of the location. It nulls the latitude, which is in the initialisation effect's dependency list, so that effect runs again. With the permission still granted it requests a new fix, starts a new watch and saves the fix again (`ClearThenReinitialize`).
- A second `requestPermission` while a watch exists sets `isWatching=false`, and the `startWatching` call that follows is a no-op. So `isWatching` can be false while a watch is registered. `isWatching` true always implies a registered watch (`Consistent`).
- A granted permission with a coordinate equal to 0 renders the placeholder and hides the dialog (`MapAndDialog`).

## Model

| member | source | states |
|---|---|---|
| `Geo.Classify` | src/hooks/useLocationPermission.ts:120-133 | exactly code 1, 2 and 3 are the permission-denied, position-unavailable and timeout kinds; every other code is the default kind |
| `Geo.MessageTable.Message` | src/hooks/useLocationPermission.ts:118-135 | the recorded message is one of the table's four, chosen by the error kind; unknown codes get the generic message |
| `Geo.MessageDeterminesKind` | src/hooks/useLocationPermission.ts:169-189 | with four distinct messages, equal messages mean equal error kinds |
| `LocationPermission.MessageTablesDistinct` | src/hooks/useLocationPermission.ts:118-133 | the one-shot and the watch handler each use four different messages |
| `LocationPermission.RejectionNamesKind` | src/hooks/useLocationPermission.ts:117-135 | two failed one-shot requests settle with the same message only when their codes are of the same kind, and that message is never the unsupported one |
| `LocationPermission.WatchErrorNamesKind` | src/hooks/useLocationPermission.ts:168-189 | two watch errors record the same message only when their codes are of the same kind |
| `LocationPermission.SaveToStorage` | src/hooks/useLocationPermission.ts:42-60 | writes only for a granted state with truthy latitude and longitude, and then writes exactly its coordinates, accuracy and permission; unreachable storage is left untouched |
| `LocationPermission.ClearStorage` | src/hooks/useLocationPermission.ts:63-71 | the entry is gone whenever storage is reachable |
| `LocationPermission.LoadFromStorage` | src/hooks/useLocationPermission.ts:18-39 | returns a record iff storage is reachable and holds a parsed granted record with truthy coordinates (unparsable text gives nothing), and then returns its four fields |
| `LocationPermission.SaveThenLoad` | src/hooks/useLocationPermission.ts:18-60 | saving a storable state and loading returns the same latitude, longitude, accuracy and permission |
| `LocationPermission.ClearThenLoad` | src/hooks/useLocationPermission.ts:63-71 | after a clear of reachable storage nothing is loaded |
| `LocationPermission.CheckPermissionState` | src/hooks/useLocationPermission.ts:88-99 | unknown when the Permissions or Geolocation API is missing or the query throws, else the platform's state; denied only when the platform answered denied |
| `LocationPermission.LocationOutcome` | src/hooks/useLocationPermission.ts:102-140 | resolves with the coordinates iff geolocation exists and the platform gave a fix; rejects with the unsupported message without geolocation, else with the classified one-shot message |
| `LocationPermission.ConsistentHasOneWatch` | src/hooks/useLocationPermission.ts:143-203 | under the hook invariant at most one watch is registered, and one exactly when the hook holds a handle |
| `LocationPermission.GrantedState` | src/hooks/useLocationPermission.ts:235-243 | the state after a fix is storable iff both coordinates are non-zero |
| `LocationPermission.AfterStartWatching` | src/hooks/useLocationPermission.ts:143-203 | a no-op iff a handle exists or geolocation is missing; otherwise registers exactly one watch whose handler captured a null handle, stores its id and sets isWatching; storage and one-shot requests untouched; keeps the invariant |
| `LocationPermission.AfterStopWatching` | src/hooks/useLocationPermission.ts:206-212 | clears the registered watch if there is a handle, drops the handle, always sets isWatching false and changes no other field; under the invariant no watch remains |
| `LocationPermission.StartWatchingIdempotent` | src/hooks/useLocationPermission.ts:143-144 | a second startWatching before stopWatching changes nothing |
| `LocationPermission.StopWatchingIdempotent` | src/hooks/useLocationPermission.ts:206-212 | stopping twice is stopping once |
| `LocationPermission.AfterRequestPermission` | src/hooks/useLocationPermission.ts:215-264 | on a denied check: no position request, no watch change, storage cleared, state denied with the fixed message and loading false; otherwise one one-shot request with its options when geolocation exists; on a fix: granted state with the fix, error null, saved, watch started (isWatching true iff no handle existed before); on failure: the classified message, the re-queried permission, previous coordinates kept, storage cleared only if the re-query says denied; loading always ends false |
| `LocationPermission.RequestErrorIsFresh` | src/hooks/useLocationPermission.ts:216-262 | the error after requestPermission does not depend on the error before it |
| `LocationPermission.AfterWatchSuccess` | src/hooks/useLocationPermission.ts:152-166 | coordinates and accuracy overwritten, error null, loading false, granted, isWatching true, the new state saved; watches untouched |
| `LocationPermission.AfterWatchError` | src/hooks/useLocationPermission.ts:168-197 | the kind's watch message, loading and isWatching false, coordinates kept; under the invariant the captured handle is null so no watch is cancelled |
| `LocationPermission.AfterClearPermissions` | src/hooks/useLocationPermission.ts:338-350 | stops watching (no watch remains), clears storage and restores exactly the initial state |
| `LocationPermission.AfterHydrate` | src/hooks/useLocationPermission.ts:267-280 | marks the hook hydrated; a loadable stored record supplies latitude, longitude, accuracy and granted, otherwise the state is unchanged |
| `LocationPermission.AfterReconcile` | src/hooks/useLocationPermission.ts:286-298 | adopts the queried permission; runs requestPermission exactly when the query answers granted and the latitude is falsy |
| `LocationPermission.AfterInitialize` | src/hooks/useLocationPermission.ts:283-301 | does nothing before hydration, otherwise reconciles |
| `LocationPermission.AfterPermissionChange` | src/hooks/useLocationPermission.ts:304-336 | does nothing before hydration or without the Permissions API, otherwise reconciles |
| `LocationPermission.StepKeepsInvariants` | src/hooks/useLocationPermission.ts:143-350 | every operation keeps the invariant and only ever removes the stored entry or writes a granted record with coordinates |
| `LocationPermission.RunKeepsInvariants` | src/hooks/useLocationPermission.ts:143-350 | over any sequence of operations at most one watch is registered and the stored entry is the one found at mount, absent, or a granted record with coordinates |
| `LocationPermission.StorageOnlyHoldsGrantedRecords` | src/hooks/useLocationPermission.ts:42-60 | from an empty store, storage only ever holds granted records with truthy coordinates |
| `LocationPermission.DeniedStepNeverRequestsPosition` | src/hooks/useLocationPermission.ts:219-230 | an operation whose permission check answers denied issues no one-shot request |
| `LocationPermission.DeniedRunNeverRequestsPosition` | src/hooks/useLocationPermission.ts:215-230 | while every permission query answers denied, no run issues a one-shot position request (getCurrentPosition), and a run without a direct startWatching call registers no new watch |
| `LocationPermission.ClearThenReinitialize` | src/hooks/useLocationPermission.ts:283-301 | after clearPermissions with the permission still granted, the re-run initialisation effect asks for one new fix, shows it as granted and watching, registers a new watch and saves the fix so that it loads back |
| `LocationPermission.ClearThenHydrate` | src/hooks/useLocationPermission.ts:338-350 | after clearPermissions the next session hydrates to the initial state |
| `LocationPermission.WatchFixSurvivesReload` | src/hooks/useLocationPermission.ts:152-164 | a watch fix with non-zero coordinates is what the next session hydrates to |
| `LocationPermission.CoordinatesOutliveGrant` | src/hooks/useLocationPermission.ts:251-263 | a failed request after a fix keeps the coordinates while the permission becomes denied |
| `LocationPermission.LocationPermissionHook.constructor` | src/hooks/useLocationPermission.ts:73-85 | the initial state record, no handle, no watches, no requests, not hydrated, over the stored entry found |
| `LocationPermission.LocationPermissionHook.StartWatching` | src/hooks/useLocationPermission.ts:143-203 | reaches exactly AfterStartWatching and keeps the invariant |
| `LocationPermission.LocationPermissionHook.StopWatching` | src/hooks/useLocationPermission.ts:206-212 | reaches exactly AfterStopWatching and keeps the invariant |
| `LocationPermission.LocationPermissionHook.HandleWatchSuccess` | src/hooks/useLocationPermission.ts:152-166 | reaches exactly AfterWatchSuccess and keeps the invariant |
| `LocationPermission.LocationPermissionHook.HandleWatchError` | src/hooks/useLocationPermission.ts:168-197 | reaches exactly AfterWatchError and keeps the invariant |
| `LocationPermission.LocationPermissionHook.GetCurrentLocation` | src/hooks/useLocationPermission.ts:102-140 | settles as LocationOutcome and records one request with the one-shot options exactly when geolocation exists |
| `LocationPermission.LocationPermissionHook.RequestPermission` | src/hooks/useLocationPermission.ts:215-264 | reaches exactly AfterRequestPermission and keeps the invariant |
| `LocationPermission.LocationPermissionHook.ClearPermissions` | src/hooks/useLocationPermission.ts:338-350 | reaches exactly AfterClearPermissions and keeps the invariant |
| `LocationPermission.LocationPermissionHook.Hydrate` | src/hooks/useLocationPermission.ts:267-280 | reaches exactly AfterHydrate and keeps the invariant |
| `LocationPermission.LocationPermissionHook.Reconcile` | src/hooks/useLocationPermission.ts:307-318 | reaches exactly AfterReconcile and keeps the invariant |
| `LocationPermission.LocationPermissionHook.InitializePermission` | src/hooks/useLocationPermission.ts:283-301 | reaches exactly AfterInitialize and keeps the invariant |
| `LocationPermission.LocationPermissionHook.HandlePermissionChange` | src/hooks/useLocationPermission.ts:304-318 | reaches exactly AfterPermissionChange and keeps the invariant |
| `Geolocation.Override` | src/hooks/useGeolocation.ts:39-44 | a key the caller left out keeps the default, a written key wins, and only an explicitly undefined key yields undefined |
| `Geolocation.EffectiveOptions` | src/hooks/useGeolocation.ts:39-44 | each of the three options is the default overridden by the caller's key |
| `Geolocation.DefaultsAndOverrides` | src/hooks/useGeolocation.ts:104-109 | no caller options give enableHighAccuracy true, timeout 10000, maximumAge 0; full caller options are used as given |
| `Geolocation.MessagesDistinct` | src/hooks/useGeolocation.ts:58-74 | the four error messages and the unsupported message are all different |
| `Geolocation.ErrorMessageNamesKind` | src/hooks/useGeolocation.ts:58-74 | the message an error callback records determines the error kind and is never the unsupported message |
| `Geolocation.GeolocationHook.constructor` | src/hooks/useGeolocation.ts:19-26 | null coordinates, accuracy and error, loading true, no requests |
| `Geolocation.GeolocationHook.Mount` | src/hooks/useGeolocation.ts:28-89 | without geolocation: the unsupported error, loading false, coordinates kept, no request; otherwise one request with the merged options |
| `Geolocation.GeolocationHook.Refresh` | src/hooks/useGeolocation.ts:92-151 | sets loading true and error null first; without geolocation then the unsupported error and loading false; otherwise one request with the merged options |
| `Geolocation.GeolocationHook.HandleSuccess` | src/hooks/useGeolocation.ts:47-55 | the state becomes exactly the fix's coordinates and accuracy, error null, loading false |
| `Geolocation.GeolocationHook.HandleError` | src/hooks/useGeolocation.ts:58-81 | coordinates kept, loading false, the kind's fixed message; keeps "loading means no error" and "error is a known message" |
| `Home.NextDialogVisibility` | src/app/page.tsx:25-37 | granted hides the dialog; prompt or denied shows it; unknown with a falsy coordinate shows it; unknown with both coordinates truthy leaves it as it was |
| `Home.MapAndDialog` | src/app/page.tsx:42-52 | a rendered map comes with a hidden dialog; a coordinate equal to 0 yields the placeholder |
| `Home.PlaceholderMeansDialog` | src/app/page.tsx:25-52 | without the map and without a grant, the dialog is shown unless an unknown permission comes with truthy coordinates |
| `Home.HomePage.constructor` | src/app/page.tsx:18 | the dialog starts hidden |
| `Home.HomePage.SyncDialog` | src/app/page.tsx:25-37 | the flag becomes NextDialogVisibility of the current permission, coordinates and previous flag |
| `Home.HomePage.OnOpenChange` | src/app/page.tsx:57 | the dialog's own open/close sets the flag directly |

## Left out

- Asynchrony: overlapping `requestPermission` runs, stale closures and interleaved watch callbacks are not modelled. Each operation is one atomic transition, so the `loading=true` that `requestPermission` sets first is never visible between operations.
- The platform APIs are oracles passed in as parameters. This covers `navigator.geolocation`, `navigator.permissions`, `localStorage`, `JSON.parse`/`JSON.stringify` and `Date.now`. The timestamp the hook stores is never read and is not modelled.
- A stored JSON value of another type (a string coordinate, say) is not modelled. The stored permission is one of the four states. Empty or unparsable text is one case, `NotJson`.
- Storage availability is one fixed platform fact for the whole session. A `localStorage` call that fails only sometimes is not modelled.
- The change listener is assumed attached whenever the hook is hydrated and the Permissions API exists. The registration query rejecting (src/hooks/useLocationPermission.ts:322-329) and listener removal are not modelled.
- The unmount cleanup effect (src/hooks/useLocationPermission.ts:353-359) and React hydration timing are not modelled.
- Effect re-runs caused by dependency arrays are over-approximated, not tracked: a `Run` may contain an `Initialize` or `PermissionChange` event at any point, so every run React can produce is among the runs the trace lemmas cover, together with some it cannot. `useGeolocation`'s mount effect is modelled as one `Mount` call; its re-run when a new `options` object is passed is not tracked.
- `useGeolocation` callbacks do not track which outstanding request they answer. A callback needs only that some request was issued.
- Coordinates and accuracy are integers. Floating point, NaN and their truthiness are not modelled.
- Console logging (src/lib/logger.ts and `console.*` calls) is I/O.
- The map component (src/components/Map.tsx) is not part of this model. Neither is the dialog presentation (src/components/LocationPermissionDialog.tsx, including its not-loading guard on the allow button) or the information dialog (src/components/InfoDialog.tsx). They are rendering and foreign-library code.
- The repository's air-quality fetching, retry, fallback data, derived metrics and city comparison are not part of this model. Their source files are not among those modelled.
