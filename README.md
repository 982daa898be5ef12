# Geolocation and address caching decorators, in Dafny

This project models the core of a small browser client library. The library gets the user's coordinates from the browser. It resolves them to an address through a backend endpoint, and then hands the address to a callback. Two caching decorators over a key-value store avoid repeated permission prompts and network calls:

- `CachedGeoLocationService` keeps the coordinates forever under a fixed key. When the browser refuses a request, the decorator absorbs the failure: it stores and returns the default coordinates instead.
- `CachedAddressApi` keeps one address under the fixed key `'em_geo'`, for a lifetime of one day by default. The key does not depend on the coordinates, so a live entry answers every call whatever coordinates it is given.
- `InMemoryStorage` is the reference storage backend.
- `createGeoLocation` and `createAddressApi` choose the decorator chain from an options object.
- `createOnFocusHandler` wires everything into one handler that swallows every error.

## How the model is built

- **Modules.** There is one module per source file: `Storage`, `GeoServices`, `GeoFactory`, `AddressServices`, `AddressFactory` and `Example`. Three shared modules support them: `Wrappers`, `Values` and `JsValues`.
- **Stateful objects are classes.** Each source object that changes its fields is a class whose methods have `modifies` clauses. The storage holds a `map` field. The decorators hold references to their storage and to the service they wrap.
- **External collaborators are classes over an oracle.** The browser's geolocation is a `NavigatorGeoLocationService`. It holds a `Platform` value: whether geolocation exists, and its answer to the n-th position request. The backend endpoint is a `Backend`. It holds a function that answers the n-th request for an endpoint and coordinates. Both count the requests they receive, so "the inner service is not called" becomes "the request count is unchanged".
- **Pure step functions.** `GeoStep`, `AddressStep` and `HandlerStep` describe one call as a function of the previous state. `GeoRun`, `AddressRun` and `HandlerRun` chain such calls. Each method's postcondition ties its effect to its step function. The multi-call properties are lemmas about the runs: cache-forever, memoization until expiry, always delegating with a lifetime of zero or less once a call has found no live entry, and the browser being asked at most once.
- **Clock readings are parameters.** `Date.now()` becomes an integer millisecond reading. An address call takes two readings. The first is taken at the expiry check. The second is taken when the expiration date is built, after the backend has answered.
- **Dates follow ECMAScript's TimeClip.** A `Date` beyond ±8.64·10^15 ms is invalid, and an invalid date never counts as "not expired".
- **Options are JavaScript values.** Options and configurations are `JsValue`s. That covers `undefined`, `null`, booleans, numbers, strings, storage objects, and plain objects given by their own properties. `Object.assign`, property reads, truthiness and `Number.isInteger` are modelled on them.
- **Dead type guards stay dead.** The source writes its guards as `!x instanceof C`, which never throws (services/address-api/services.js:43, :86, :89, :101; services/geo-location/services.js:70, :73; both index.js files at :28). The model therefore checks no argument types. A stored value of any shape flows through the decorators.

The model follows what the code does, also where that differs from the intent its own comments and names document:

- The lifetime setter checks only `Number.isInteger` (services/address-api/services.js:79), so a zero or negative integer is kept as the lifetime.
- Coordinates of any shape are accepted. The guard whose message says they should be a `GeoCoords` (services/address-api/services.js:43-45) never fires.
- A failed backend request rejects, and the decorator passes that rejection on. The comment at services/address-api/services.js:46-47 intends an empty string on failure, but the code returns `fetch`'s promise as it is.
- `createAddressApi` reads `options.cacheStorage`, and it hands the constructor a string where the constructor destructures an object (see Findings).

## Model

| member | source | states |
|---|---|---|
| `Storage.InMemoryStorage.constructor` | services/geo-location/storage.js:26-29 | a new storage is empty: `Get` returns absent for every key |
| `Storage.InMemoryStorage.Get` | services/geo-location/storage.js:35-37 | answers the stored value exactly for a key that was set, and absent (`undefined`) for every other key |
| `Storage.InMemoryStorage.Set` | services/geo-location/storage.js:31-37 | afterwards `Get(key)` returns the value; every other key reads as before; the map is the old one with the key overwritten, so a second `set` replaces the first |
| `JsValues.Assign` | services/address-api/index.js:18 | `Object.assign`: the result has the keys of both, the source's own properties win, the target's others are kept |
| `JsValues.IsTruthy` | services/address-api/index.js:25 | JavaScript truthiness: exactly `undefined`, `null`, `false`, `0` and `''` are falsy; every object is truthy |
| `JsValues.IsInteger` | services/address-api/services.js:79 | `Number.isInteger`: holds only of numbers |
| `JsValues.IntegerNumbers` | services/address-api/services.js:79 | `Number.isInteger` holds of every whole number, negative ones included, and of no number strictly between two consecutive whole numbers |
| `JsValues.Property` | services/address-api/index.js:27 | reading a property of `undefined` or `null` throws a TypeError; otherwise a missing property reads as `undefined` |
| `GeoServices.NavigatorGeoLocationService.IsGeolocationSupported` | services/geo-location/services.js:22-24 | answers whether the browser has geolocation |
| `GeoServices.NavigatorGeoLocationService.DetermineGeoPosition` | services/geo-location/services.js:31-43 | without geolocation the request rejects; otherwise it is the browser's answer to this request; each call is one request |
| `GeoServices.Absorb` | services/geo-location/services.js:92-97 | a rejection becomes the default coordinates and a success keeps its coordinates; either way the value is truthy |
| `GeoServices.IsHit` | services/geo-location/services.js:91 | the `!coords` test: a lookup is a hit exactly when the key holds an object (coordinates or an address entry), whatever its shape |
| `GeoServices.GeoStep` | services/geo-location/services.js:89-101 | a truthy stored value is returned with no new request; otherwise one request is made and its absorbed result is stored and returned; afterwards the key always holds a truthy value equal to the result |
| `GeoServices.GeoRun` | services/geo-location/services.js:89-101 | n calls give n results and a populated key; they make at most one request in all, and none when the key already holds a truthy value, in which case nothing changes |
| `GeoServices.HitIsForever` | services/geo-location/services.js:90-91 | once the key holds a truthy value, any number of calls returns it and leaves storage and request count unchanged |
| `GeoServices.CacheForever` | services/geo-location/services.js:89-101 | over any number of calls the browser is asked at most once, and every call returns the first call's value, which stays on the key; this holds after an absorbed failure too |
| `GeoServices.CachedGeoLocationService.constructor` | services/geo-location/services.js:69-80 | keeps the storage and the wrapped service as given, with no type check; the key is the fixed constant |
| `GeoServices.CachedGeoLocationService.IsGeolocationSupported` | services/geo-location/services.js:82-84 | exactly the wrapped service's answer; no storage is touched |
| `GeoServices.CachedGeoLocationService.DetermineGeoPosition` | services/geo-location/services.js:89-101 | behaves as `GeoStep` on the key's slot and the request count, and writes only that key; no error propagates from the wrapped service; a non-storage storage throws a TypeError |
| `GeoFactory.IsObject` | services/geo-location/index.js:40-42 | holds exactly for object values, i.e. neither `undefined`, `null` nor a primitive; every property of such a value can be read without a TypeError |
| `GeoFactory.PlanGeoLocation` | services/geo-location/index.js:19-38 | a non-object or `null` throws a TypeError; `useCache` defaults to true and chooses bare or cached; a missing or null `cacheStorage` gives a fresh storage, any other supplied value is used; supplied fields override the defaults |
| `GeoFactory.CreateGeoLocation` | services/geo-location/index.js:19-38 | builds exactly the chain `PlanGeoLocation` decides: the bare service, or a new decorator over it with a fresh empty storage or the supplied one |
| `AddressServices.CheckApiUrl` | services/address-api/services.js:27-33 | destructuring `undefined` or `null` throws; a missing or non-string `apiUrl` throws a TypeError, the empty string an Error; it succeeds exactly for a non-empty string, which it returns unchanged |
| `AddressServices.AddressApi.constructor` | services/address-api/services.js:27-36 | stores the validated `apiUrl` unchanged |
| `AddressServices.AddressApi.Create` | services/address-api/services.js:27-36 | construction fails exactly when `CheckApiUrl` does, with its error; otherwise a new service holds the `apiUrl` unchanged |
| `AddressServices.Backend.Fetch` | services/address-api/services.js:48 | the backend's answer to this request; each call is one request |
| `AddressServices.AddressApi.GeolocateAddressByCoords` | services/address-api/services.js:42-50 | asks the backend once with its endpoint and the coordinates as given, with no type check |
| `AddressServices.ExpirationDate` | services/address-api/services.js:129-131 | `now + lifetime` as a date, invalid exactly outside the range of a `Date` |
| `AddressServices.IsNotExpired` | services/address-api/services.js:133-137 | on a truthy stored value: only an object with a present, valid `expirationDate` can be unexpired |
| `AddressServices.Unwrap` | services/address-api/services.js:121-123 | on a truthy stored value: an object gives its `value`, or null when it has none |
| `AddressServices.Wrap` | services/address-api/services.js:125-127 | the wrapped entry is truthy, unwraps to the value, and counts as not expired exactly before a valid expiration date |
| `AddressServices.IsLive` | services/address-api/services.js:104-105 | the hit test `address && _isCacheValueNotExpired(address)`: the truthiness test comes first, so a stored `null` or other falsy value is a miss and never reaches the expiry helper; the test holds exactly when the key holds an entry with a present, valid expiration date later than now |
| `AddressServices.MalformedEntriesExpire` | services/address-api/services.js:121-123 | an entry without `expirationDate`, or with an invalid one, is expired; an object without `value` unwraps to null; falsy values and coordinates are never live |
| `AddressServices.AddressStep` | services/address-api/services.js:100-119 | a live entry (truthy, valid expiration strictly after the check time) is returned unwrapped with no request; otherwise one request; on success the address is returned and the new entry unwraps to it and is live exactly before write time + lifetime; a rejection propagates and leaves the slot |
| `AddressServices.AddressRun` | services/address-api/services.js:100-119 | n calls give n results; the backend is asked at most once per call |
| `AddressServices.TwoCallsWithinLifetime` | services/address-api/services.js:104-116 | after a miss the backend answers, with write time + lifetime within a `Date`'s range, a call checked before write time + lifetime returns the identical address, whatever its coordinates, with no second request |
| `AddressServices.ExpiredCallDelegates` | services/address-api/services.js:133-137 | a call checked at or after write time + lifetime asks the backend again |
| `AddressServices.NotLiveLater` | services/address-api/services.js:136 | an entry that is not live at some time is not live at any later time |
| `AddressServices.NonPositiveLifetimeAlwaysDelegates` | services/address-api/services.js:129-137 | with lifetime 0 or negative, a clock that does not run backwards and a first call that finds no live entry, every call of a run asks the backend; an entry cached earlier under a longer lifetime is still served until it expires |
| `AddressServices.LiveRun` | services/address-api/services.js:104-106 | while the entry stays live, every call returns the unwrapped entry and nothing changes |
| `AddressServices.MemoizedUntilExpiry` | services/address-api/services.js:100-119 | after a miss the backend answers, with write time + lifetime within a `Date`'s range, every later call checked before the expiry returns that address, and the backend is asked only once in all |
| `AddressServices.CachedAddressApi.constructor` | services/address-api/services.js:85-98 | keeps storage and wrapped service as given, with no type check; key `'em_geo'`; lifetime 86 400 000 ms |
| `AddressServices.CachedAddressApi.SetCacheLifetime` | services/address-api/services.js:78-83 | a non-integer throws a TypeError and keeps the old lifetime; any integer, zero or negative included, is stored as given |
| `AddressServices.CachedAddressApi.GeolocateAddressByCoords` | services/address-api/services.js:100-119 | behaves as `AddressStep` with its endpoint, backend and current lifetime, and writes only its key; a non-storage storage throws a TypeError and asks nothing |
| `AddressFactory.Config` | services/address-api/index.js:23 | `Object.assign({}, new ApiConfig(), options)`: the keys of the defaults and of the options; every own property of the options overrides, and the defaults fill the rest |
| `AddressFactory.ApiConfig` | services/address-api/index.js:6-19 | starts from `apiUrl = ''`, `useCache = true`, `cacheStorage = null`; every own property of the options overrides |
| `AddressFactory.PlanAddressApi` | services/address-api/index.js:22-37 | as written: succeeds exactly when `config.apiUrl` itself passes the constructor's check; `useCache` chooses bare or cached; the storage comes from `options.cacheStorage`: a fresh one only for an explicit null, otherwise the value, `undefined` when omitted |
| `AddressFactory.StringApiUrlRejected` | services/address-api/index.js:24 | as written, any string `apiUrl` makes the factory throw the TypeError 'apiUrl has no string type' |
| `AddressFactory.OmittedStorageIsUndefined` | services/address-api/index.js:27-31 | as written, an omitted `cacheStorage` gives the decorator `undefined` as storage |
| `AddressFactory.PlanAddressApiCorrected` | services/address-api/index.js:22-37 | corrected: succeeds exactly for a non-empty string `apiUrl`, kept unchanged, and otherwise fails with the constructor's error; the storage is fresh when `cacheStorage` is omitted or null, otherwise the supplied value |
| `AddressFactory.CreateAddressApi` | services/address-api/index.js:22-37 | builds exactly the chain `PlanAddressApi` decides, or throws its error |
| `AddressFactory.CreateAddressApiCorrected` | services/address-api/index.js:22-37 | builds exactly the chain `PlanAddressApiCorrected` decides, or throws its error |
| `Example.HandlerStep` | example.js:44-47 | one handler call leaves coordinates cached and asks the browser at most once, and not at all when they were cached; it asks the backend at most once; a live address is handed to the callback unchanged whatever the coordinates; when nothing reaches the callback, the backend was asked and the address cache is as before |
| `Example.HandlerRun` | example.js:44-47 | n handler calls give n callback outcomes; the browser is asked at most once in all, and not at all when coordinates are cached, in which case the geolocation side is unchanged; the backend is asked at most once per call |
| `Example.HandlerRunGeo` | example.js:44 | over handler calls the geolocation side evolves exactly as consecutive decorator calls |
| `Example.PlatformAskedAtMostOnce` | example.js:44 | however often the handler runs, the browser is asked for a position at most once, and not at all once coordinates are cached |
| `Example.AbsorbedFailureStillResolves` | example.js:44-45 | a refused position request caches the default coordinates, and the address is still resolved for them |
| `Example.BerlinScenario` | example.js:44-46 | the browser reports Berlin's coordinates, the backend maps them to "Berlin, DE", and the callback receives exactly that |
| `Example.Invoke` | example.js:44-47 | the constant handler returns `''` and changes nothing; the pipeline passes the coordinates to the address service and the address to the callback, once and only when there is one; every rejection is caught; only the two cache keys change |
| `Example.CreateOnFocusHandler` | example.js:9-52 | as written: without geolocation it gives the constant handler; with geolocation it throws the TypeError from `createAddressApi` |
| `Example.ExamplePlan` | example.js:17-43 | over the corrected factory, the example's `ApiConfig` (endpoint `/api/address`, cache on, its own storage) plans a cached address service on exactly that storage |
| `Example.CreateOnFocusHandlerCorrected` | example.js:9-52 | over the corrected factory: without geolocation the constant handler, and no address service is built; with geolocation the pipeline over a fresh geolocation cache and a fresh address cache (endpoint `/api/address`, default lifetime, its own storage) and the caller's callback |

## Left out

- The browser's geolocation: `navigator.geolocation.watchPosition`, the permission prompt and the watch subscription that is never cleared. `Platform` stands for all of it, as one answer per request. In the source, only the first report settles the promise. Every later report of the watch (services/geo-location/services.js:37-40) overwrites `latitude` and `longitude` of that same `GeoCoords` object. That object is the one stored by reference (:98) and returned (:100), so later cached calls see the latest position, and once the address entry has expired the wrapped address service is handed the new coordinates. The model's coordinates are immutable values, so it captures neither these later writes nor the subscription leak. It also does not model a request that never settles: the source has no timeout, but `Platform` answers every request.
- The body of `fetch`: the source's `AddressApi` calls `fetch(this._apiUrl)` without the coordinates and resolves with a `Response`. The model's `Backend` receives the endpoint and the coordinates and answers an address string or a rejection.
- `Date.now()`: each clock reading is an integer parameter. The clock is not assumed monotonic, except where a lemma says so.
- NaN and the infinities: a `JsValue` number is a finite real.
- Promise scheduling and concurrent handler calls racing on a shared key: calls are composed in sequence.
- `console.warn`: logging only.
- The interface classes with their `new.target` guards and `NotImplementedException` (`AddressApiInterface`, `GeoLocationServiceInterface`, `StorageInterface`). exceptions.js and coords.js are not part of this model. The default coordinates are taken to be (0, 0). Only their identity matters, since the core never reads them.
- Storage backends other than `InMemoryStorage`: a supplied storage value that is not an `InMemoryStorage` becomes a `null` storage field. Every call through it throws a TypeError. This is right for `undefined`, primitives and plain objects. A caller's own object with `get` and `set` methods is not modelled.
- GeoServices.CacheForever: "every call returns the first call's value" holds in the source for the object reference only. Later watch reports may change that object's fields, as stated above.
- AddressServices.Unwrap, AddressServices.IsNotExpired: defined only on truthy stored values. In the source both helpers throw a TypeError when handed `null` (services/address-api/services.js:122, :135), and `_unwrapValue` gives null for other falsy values. The decorator never hands them a falsy value, because `address &&` at :105 is tested first.
- Decorators over decorators: a cached service wraps only the concrete `NavigatorGeoLocationService` or `AddressApi`, as the factories build them.
- `StorageObject` options: in JavaScript, `Object.assign` also copies a storage object's own `_map` field (storage.js:24). The model's `Own` gives a storage object no own properties, so that copy is omitted. No caller reads it. Likewise, a string's index properties are not modelled.
- A callback that throws, or one that is truthy but not a function: the handler would catch the error anyway. The callback is an optional recorder.
- The `cacheLifetime` getter: it is a plain field read.
- The engine's own messages for destructuring `undefined` and for calling `get` on a non-storage: the model uses its own wording.
- Example.Invoke: requires both decorators to hold a storage object. Every handler `createOnFocusHandler` returns does. The contract does not say that geolocation support is not asked again. Asking changes no state, so the contract cannot observe it; the method body never asks.
- Example.CreateOnFocusHandler: states only the two outcomes that occur. As written, the factory never returns a pipeline.

## Findings

| source | as written | input that shows it | evidently intended | confidence | as-written member | corrected member |
|---|---|---|---|---|---|---|
| services/address-api/index.js:24 | `new AddressApi(config.apiUrl)` hands the constructor the URL string. The constructor destructures `{apiUrl}` from it, gets `undefined`, and throws 'apiUrl has no string type'. | `createAddressApi(new ApiConfig({apiUrl: "/api/address"}))`, the call in example.js:43. So `createOnFocusHandler` throws whenever the browser has geolocation. | pass `{apiUrl: config.apiUrl}`, so that a non-empty string URL is accepted | high; not executed | `AddressFactory.StringApiUrlRejected` | `AddressFactory.PlanAddressApiCorrected` |
| services/address-api/index.js:27 | the storage is read from `options.cacheStorage`, not from the merged `config`. An omitted field is `undefined`, which passes `!== null`. The decorator then gets `undefined` as storage, and every lookup throws a TypeError. | `createAddressApi({apiUrl: {apiUrl: "/api"}})`: no `cacheStorage` given | read `config.cacheStorage`, whose default `null` selects a fresh `InMemoryStorage` | high; not executed | `AddressFactory.OmittedStorageIsUndefined` | `AddressFactory.PlanAddressApiCorrected` |

The handler is modelled over the corrected factory (`Example.CreateOnFocusHandlerCorrected`). `Example.CreateOnFocusHandler` is the handler factory as written.
