/**
 * The geolocation services (services/geo-location/services.js): the browser's
 * capability as NavigatorGeoLocationService sees it, and the decorator that
 * caches its answer forever under a fixed key.
 */
module GeoServices {
  import opened Wrappers
  import opened Values
  import opened Storage

  /** The fixed key under which the decorator keeps the coordinates. */
  const GeoCacheKey := "44a34afa-a15f-4488-8398-be92e520144e"

  /**
   * What the browser offers: whether it has geolocation at all, and its answer
   * to the n-th position request (the user may grant or refuse each prompt).
   */
  datatype Platform = Platform(supported: bool, answer: nat -> Result<GeoCoords, Error>)

  /** The outcome of the n-th position request: without geolocation it rejects. */
  function Reply(p: Platform, n: nat): Result<GeoCoords, Error> {
    if p.supported then p.answer(n) else Failure(Rejection)
  }

  /** The undecorated service: every request goes to the browser. */
  class NavigatorGeoLocationService {
    const platform: Platform
    var requests: nat

    constructor (platform: Platform)
      ensures this.platform == platform && requests == 0
    {
      this.platform := platform;
      requests := 0;
    }

    method IsGeolocationSupported() returns (supported: bool)
      ensures supported == platform.supported
    {
      supported := platform.supported;
    }

    method DetermineGeoPosition() returns (r: Result<GeoCoords, Error>)
      modifies this
      ensures r == Reply(platform, old(requests))
      ensures requests == old(requests) + 1
    {
      r := Reply(platform, requests);
      requests := requests + 1;
    }
  }

  /** A stored value counts as cached when JavaScript treats it as true (the `!coords` test). */
  predicate IsHit(slot: Option<StoredValue>): (b: bool)
    ensures b <==> slot.Some? && (slot.value.Coords? || slot.value.Entry?)
  {
    slot.Some? && Truthy(slot.value)
  }

  /**
   * The try/catch of the decorator: a rejection becomes the default coordinates.
   * Either way the result is truthy, so it will be served from the cache from then on.
   */
  function Absorb(reply: Result<GeoCoords, Error>): (c: StoredValue)
    ensures c.Coords? && Truthy(c)
    ensures reply.Success? ==> c.coords == reply.value
    ensures reply.Failure? ==> c.coords == DefaultCoords
  {
    match reply
    case Success(x) => Coords(x)
    case Failure(_) => Coords(DefaultCoords)
  }

  /** What one decorator call reads and changes: the slot under its key and the browser's request count. */
  datatype GeoState = GeoState(slot: Option<StoredValue>, requests: nat)

  /** One `determineGeoPosition` of the decorator: the new state and the value it resolves to. */
  function GeoStep(s: GeoState, p: Platform): (r: (GeoState, StoredValue))
    ensures IsHit(r.0.slot) && r.0.slot == Some(r.1)
    ensures IsHit(s.slot) ==> r.0 == s
    ensures !IsHit(s.slot) ==> r.0.requests == s.requests + 1 && r.1 == Absorb(Reply(p, s.requests))
  {
    if IsHit(s.slot) then (s, s.slot.value)
    else
      var coords := Absorb(Reply(p, s.requests));
      (GeoState(Some(coords), s.requests + 1), coords)
  }

  /** `n` decorator calls in a row: the final state and what each call resolved to. */
  function GeoRun(s: GeoState, p: Platform, n: nat): (r: (GeoState, seq<StoredValue>))
    ensures |r.1| == n
    ensures n > 0 ==> IsHit(r.0.slot)
    ensures IsHit(s.slot) ==> r.0 == s
    ensures s.requests <= r.0.requests <= s.requests + 1
    decreases n
  {
    if n == 0 then (s, [])
    else
      var (s1, v) := GeoStep(s, p);
      var (s2, vs) := GeoRun(s1, p, n - 1);
      (s2, [v] + vs)
  }

  /** Once the key holds a truthy value, every later call returns it and the browser is never asked. */
  lemma {:induction false} HitIsForever(s: GeoState, p: Platform, n: nat)
    requires IsHit(s.slot)
    ensures GeoRun(s, p, n).0 == s
    ensures forall i :: 0 <= i < n ==> GeoRun(s, p, n).1[i] == s.slot.value
    decreases n
  {
    if n > 0 {
      HitIsForever(s, p, n - 1);
    }
  }

  /**
   * Cache-forever: over any number of calls the browser is asked at most once,
   * and every call resolves to what the first one did, which stays on the key —
   * also when that first answer was an absorbed failure.
   */
  lemma {:induction false} CacheForever(s: GeoState, p: Platform, n: nat)
    requires n > 0
    ensures var (s', vs) := GeoRun(s, p, n);
      && (forall i :: 0 <= i < n ==> vs[i] == vs[0])
      && s'.slot == Some(vs[0])
      && s'.requests <= s.requests + 1
      && (IsHit(s.slot) ==> vs[0] == s.slot.value && s'.requests == s.requests)
      && (!IsHit(s.slot) ==> vs[0] == Absorb(Reply(p, s.requests)))
  {
    var (s1, v) := GeoStep(s, p);
    HitIsForever(s1, p, n - 1);
  }

  /** The caching decorator. */
  class CachedGeoLocationService {
    /** `null` when the value it was given as storage is not a storage object. */
    const storage: InMemoryStorage?
    const location: NavigatorGeoLocationService
    const cacheKey: string := GeoCacheKey

    constructor (storage: InMemoryStorage?, location: NavigatorGeoLocationService)
      ensures this.storage == storage && this.location == location
    {
      this.storage := storage;
      this.location := location;
    }

    /** Asks the wrapped service every time; nothing is cached and no storage is touched. */
    method IsGeolocationSupported() returns (supported: bool)
      ensures supported == location.platform.supported
    {
      supported := location.IsGeolocationSupported();
    }

    /**
     * Serves the stored value if it is truthy; otherwise asks the wrapped
     * service, absorbs a rejection into the default coordinates, and stores
     * and returns what it got. No error of the wrapped service propagates.
     */
    method DetermineGeoPosition() returns (r: Result<StoredValue, Error>)
      modifies storage, location
      ensures storage == null ==> r == Failure(TypeError(NotAStorageMessage))
      ensures storage == null ==> location.requests == old(location.requests)
      ensures storage != null ==>
        var (s', v) := GeoStep(GeoState(old(storage.Get(cacheKey)), old(location.requests)), location.platform);
        && r == Success(v)
        && location.requests == s'.requests
        && storage.entries == if IsHit(old(storage.Get(cacheKey))) then old(storage.entries)
                              else old(storage.entries)[cacheKey := v]
    {
      if storage == null {
        r := Failure(TypeError(NotAStorageMessage));
        return;
      }
      var cached := storage.Get(cacheKey);
      var coords: StoredValue;
      if IsHit(cached) {
        coords := cached.value;
      } else {
        var reply := location.DetermineGeoPosition();
        coords := Absorb(reply);
        storage.Set(cacheKey, coords);
      }
      r := Success(coords);
    }
  }

  /** A geolocation service as the factory returns it: bare or decorated. */
  datatype GeoService =
    | NavigatorService(navigator: NavigatorGeoLocationService)
    | CachedGeoService(cached: CachedGeoLocationService)
}
