/**
 * The orchestration of example.js: `createOnFocusHandler` and the handler it
 * returns, which runs "coordinates, then address, then callback" and swallows
 * every error.
 */
module Example {
  import opened Wrappers
  import opened Values
  import opened Storage
  import opened JsValues
  import opened GeoServices
  import opened GeoFactory
  import opened AddressServices
  import opened AddressFactory

  /** The backend endpoint the example configures. */
  const ExampleApiUrl := "/api/address"

  /** The caller's callback, seen through the addresses it receives. */
  class Callback {
    var received: seq<Option<string>>

    constructor ()
      ensures received == []
    {
      received := [];
    }

    method Receive(address: Option<string>)
      modifies this
      ensures received == old(received) + [address]
    {
      received := received + [address];
    }
  }

  /** The closure `createOnFocusHandler` returns: the constant `() => ''`, or the pipeline over two decorators. */
  datatype Handler =
    | ConstantEmpty
    | Pipeline(location: CachedGeoLocationService, api: CachedAddressApi, callback: Option<Callback>)

  /** What a handler call returns: `''`, or a promise that always fulfils. */
  datatype HandlerResult = EmptyString | Settled

  /** Both decorators of a pipeline have a storage object, as those `createOnFocusHandler` builds do. */
  predicate Wired(h: Handler) {
    h.Pipeline? ==> h.location.storage != null && h.api.storage != null
  }

  /** What a handler call reads and changes: the state of both decorators. */
  datatype World = World(geo: GeoState, address: AddressState)

  /** One handler call on the model: the new state and the address handed to the callback, if any. */
  function HandlerStep(w: World, p: Platform, r: Resolver, t: Clock): (out: (World, Option<Option<string>>))
    ensures IsHit(out.0.geo.slot) && out.0.geo.requests <= w.geo.requests + 1
    ensures IsHit(w.geo.slot) ==> out.0.geo == w.geo
    ensures out.0.address.requests <= w.address.requests + 1
    ensures IsLive(w.address.slot, t.checkedAt) ==>
      out.0.address == w.address && out.1 == Some(Unwrap(w.address.slot.value))
    ensures out.1.None? ==> out.0.address.slot == w.address.slot && out.0.address.requests == w.address.requests + 1
  {
    var (geo, coords) := GeoStep(w.geo, p);
    var (address, result) := AddressStep(w.address, r, Call(coords, t));
    (World(geo, address), if result.Success? then Some(result.value) else None)
  }

  /** Consecutive handler calls: the final state and what each call handed to the callback. */
  function HandlerRun(w: World, p: Platform, r: Resolver, clocks: seq<Clock>): (out: (World, seq<Option<Option<string>>>))
    ensures |out.1| == |clocks|
    ensures IsHit(w.geo.slot) ==> out.0.geo == w.geo
    ensures w.geo.requests <= out.0.geo.requests <= w.geo.requests + 1
    ensures w.address.requests <= out.0.address.requests <= w.address.requests + |clocks|
    decreases |clocks|
  {
    if clocks == [] then (w, [])
    else
      var (w1, d) := HandlerStep(w, p, r, clocks[0]);
      var (w2, ds) := HandlerRun(w1, p, r, clocks[1..]);
      (w2, [d] + ds)
  }

  /** Across handler calls the geolocation side evolves exactly as consecutive decorator calls do. */
  lemma {:induction false} HandlerRunGeo(w: World, p: Platform, r: Resolver, clocks: seq<Clock>)
    ensures HandlerRun(w, p, r, clocks).0.geo == GeoRun(w.geo, p, |clocks|).0
    decreases |clocks|
  {
    if clocks != [] {
      var (w1, _) := HandlerStep(w, p, r, clocks[0]);
      HandlerRunGeo(w1, p, r, clocks[1..]);
    }
  }

  /** However often the handler runs, the browser is asked for a position at most once. */
  lemma PlatformAskedAtMostOnce(w: World, p: Platform, r: Resolver, clocks: seq<Clock>)
    ensures HandlerRun(w, p, r, clocks).0.geo.requests <= w.geo.requests + 1
    ensures IsHit(w.geo.slot) ==> HandlerRun(w, p, r, clocks).0.geo == w.geo
  {
    HandlerRunGeo(w, p, r, clocks);
    if clocks != [] {
      CacheForever(w.geo, p, |clocks|);
    }
    if IsHit(w.geo.slot) {
      HitIsForever(w.geo, p, |clocks|);
    }
  }

  /**
   * A refused or failed position request is absorbed: the default coordinates
   * are cached, and the address is still resolved, for those coordinates.
   */
  lemma AbsorbedFailureStillResolves(w: World, p: Platform, r: Resolver, t: Clock)
    requires !IsHit(w.geo.slot) && Reply(p, w.geo.requests).Failure?
    ensures var (w', delivered) := HandlerStep(w, p, r, t);
      var (address, result) := AddressStep(w.address, r, Call(Coords(DefaultCoords), t));
      && w'.geo == GeoState(Some(Coords(DefaultCoords)), w.geo.requests + 1)
      && w'.address == address
      && delivered == (if result.Success? then Some(result.value) else None)
    ensures !IsLive(w.address.slot, t.checkedAt) ==>
      HandlerStep(w, p, r, t).0.address.requests == w.address.requests + 1
  {
  }

  /**
   * The end-to-end scenario: the browser reports Berlin's coordinates and the
   * callback receives "Berlin, DE". The backend here answers by the coordinates
   * it is handed; the source's `fetch(this._apiUrl)` sends none, so this
   * scenario relies on the model's richer backend.
   */
  lemma BerlinScenario()
    ensures var berlin := GeoCoords(52.5, 13.4);
      var p := Platform(true, n => Success(berlin));
      var respond := (url, coords, n) => if coords == Coords(berlin) then Success("Berlin, DE") else Failure(Rejection);
      var r := Resolver(ExampleApiUrl, respond, DefaultCacheLifetime);
      HandlerStep(World(GeoState(None, 0), AddressState(None, 0)), p, r, Clock(0, 0)).1 == Some(Some("Berlin, DE"))
  {
  }

  /** The state of both decorators of a pipeline. */
  function WorldOf(h: Handler): World
    requires h.Pipeline? && Wired(h)
    reads h.location.storage, h.location.location, h.api.storage, h.api.api.backend
  {
    World(GeoState(h.location.storage.Get(GeoCacheKey), h.location.location.requests),
          AddressState(h.api.storage.Get(AddressCacheKey), h.api.api.backend.requests))
  }

  /** What a handler call may change. */
  function Footprint(h: Handler): set<object?> {
    if h.ConstantEmpty? then {}
    else {h.location.storage, h.location.location, h.api.storage, h.api.api.backend}
         + if h.callback.Some? then {h.callback.value} else {}
  }

  /**
   * A handler call. The constant handler returns `''` and touches nothing; support
   * is not asked again. The pipeline passes the coordinates it gets to the
   * address service and the address it gets to the callback, if there is one;
   * any rejection is caught, so the call always settles.
   */
  method Invoke(h: Handler, clock: Clock) returns (r: HandlerResult)
    requires Wired(h)
    modifies Footprint(h)
    ensures h.ConstantEmpty? ==> r == EmptyString
    ensures h.Pipeline? ==> r == Settled
    ensures h.Pipeline? ==>
      var (w', delivered) := HandlerStep(old(WorldOf(h)), h.location.location.platform, h.api.Chain(), clock);
      && WorldOf(h) == w'
      && (h.callback.Some? ==>
            h.callback.value.received == old(h.callback.value.received) + if delivered.Some? then [delivered.value] else [])
    ensures h.Pipeline? ==> forall k :: k != GeoCacheKey && k != AddressCacheKey ==>
      h.location.storage.Get(k) == old(h.location.storage.Get(k)) && h.api.storage.Get(k) == old(h.api.storage.Get(k))
  {
    if h.ConstantEmpty? {
      return EmptyString;
    }
    var coords := h.location.DetermineGeoPosition();
    if coords.Success? {
      var address := h.api.GeolocateAddressByCoords(coords.value, clock);
      if address.Success? && h.callback.Some? {
        h.callback.value.Receive(address.value);
      }
    }
    r := Settled;
  }

  /** The options `createOnFocusHandler` passes to `new ApiConfig`. */
  function ExampleOptions(storage: InMemoryStorage): JsValue {
    Object(map["apiUrl" := Str(ExampleApiUrl), "useCache" := Bool(true), "cacheStorage" := StorageObject(storage)])
  }

  /** Over the corrected factory, the example's configuration plans an address cache on its own storage. */
  lemma ExamplePlan(storage: InMemoryStorage)
    ensures PlanAddressApiCorrected(ApiConfig(ExampleOptions(storage)))
      == Success(CachedApi(ExampleApiUrl, SuppliedStorage(StorageObject(storage))))
  {
    var config := Config(ApiConfig(ExampleOptions(storage)));
    assert config["apiUrl"] == Str(ExampleApiUrl);
    assert config["useCache"] == Bool(true);
    assert config["cacheStorage"] == StorageObject(storage);
  }

  /**
   * `createOnFocusHandler` as written: without geolocation it returns the
   * constant handler; with geolocation `createAddressApi` throws, because it
   * hands the string `apiUrl` to a constructor that destructures `{apiUrl}`.
   */
  method CreateOnFocusHandler(callback: Option<Callback>, navigator: NavigatorGeoLocationService, backend: Backend)
    returns (r: Result<Handler, Error>)
    ensures !navigator.platform.supported ==> r == Success(ConstantEmpty)
    ensures navigator.platform.supported ==> r == Failure(TypeError(NotStringMessage))
  {
    r := Success(ConstantEmpty);
    var location := CreateGeoLocation(Object(map["useCache" := Bool(true)]), navigator);
    assert location.Success? && location.value.CachedGeoService?;
    var supported := location.value.cached.IsGeolocationSupported();
    if supported {
      var storage := new InMemoryStorage();
      var config := ApiConfig(ExampleOptions(storage));
      StringApiUrlRejected(config);
      var api := CreateAddressApi(config, backend);
      if api.Failure? {
        return Failure(api.error);
      }
    }
  }

  /**
   * `createOnFocusHandler` over the corrected factory: with geolocation it
   * returns the pipeline over a fresh geolocation cache and an address cache
   * with the example's endpoint, its own fresh storage and the default lifetime.
   */
  method CreateOnFocusHandlerCorrected(callback: Option<Callback>, navigator: NavigatorGeoLocationService, backend: Backend)
    returns (h: Handler)
    ensures !navigator.platform.supported ==> h == ConstantEmpty
    ensures navigator.platform.supported ==>
      && h.Pipeline? && Wired(h) && h.callback == callback
      && fresh(h.location) && h.location.location == navigator
      && fresh(h.location.storage) && h.location.storage.entries == map[]
      && fresh(h.api) && h.api.api.apiUrl == ExampleApiUrl && h.api.api.backend == backend
      && h.api.cacheLifetime == DefaultCacheLifetime
      && fresh(h.api.storage) && h.api.storage.entries == map[]
      && h.api.storage != h.location.storage
  {
    h := ConstantEmpty;
    var location := CreateGeoLocation(Object(map["useCache" := Bool(true)]), navigator);
    assert location.Success? && location.value.CachedGeoService?;
    var geo := location.value.cached;
    var supported := geo.IsGeolocationSupported();
    if supported {
      var storage := new InMemoryStorage();
      var config := ApiConfig(ExampleOptions(storage));
      ExamplePlan(storage);
      var api := CreateAddressApiCorrected(config, backend);
      assert api.Success? && api.value.CachedAddressService?;
      h := Pipeline(geo, api.value.cached, callback);
    }
  }
}
