/**
 * The address services (services/address-api/services.js): AddressApi, which
 * asks the backend, and the decorator that caches one answer for a lifetime.
 */
module AddressServices {
  import opened Wrappers
  import opened Values
  import opened Storage
  import opened JsValues

  /** The fixed key of the address cache; it does not depend on the coordinates. */
  const AddressCacheKey := "em_geo"

  /** One day in milliseconds, the default lifetime of a cached address. */
  const DefaultCacheLifetime := 24 * 60 * 60 * 1000

  const NotStringMessage := "apiUrl has no string type"
  const ZeroLengthMessage := "apiUrl has zero length"
  const LifetimeTypeMessage := "Wrong type of the cacheLifetime argument"

  /** How the backend answers the n-th request for an endpoint and coordinates. */
  type Respond = (string, StoredValue, nat) -> Result<string, Error>

  /** The backend endpoint: an address, or a rejection, for each request. */
  class Backend {
    const respond: Respond
    var requests: nat

    constructor (respond: Respond)
      ensures this.respond == respond && requests == 0
    {
      this.respond := respond;
      requests := 0;
    }

    method Fetch(url: string, coords: StoredValue) returns (r: Result<string, Error>)
      modifies this
      ensures r == respond(url, coords, old(requests))
      ensures requests == old(requests) + 1
    {
      r := respond(url, coords, requests);
      requests := requests + 1;
    }
  }

  /**
   * The constructor's check of its argument, which it destructures as `{apiUrl}`:
   * `undefined` and `null` cannot be destructured, a non-string `apiUrl`
   * (a missing one included) is a TypeError, the empty string an Error.
   */
  function CheckApiUrl(arg: JsValue): (r: Result<string, Error>)
    ensures (arg.Undefined? || arg.Null?) ==> r == Failure(TypeError(NullishMessage))
    ensures r.Success? <==> arg.Object? && "apiUrl" in arg.props && arg.props["apiUrl"].Str? && arg.props["apiUrl"].s != ""
    ensures r.Success? ==> r.value == arg.props["apiUrl"].s
    ensures !arg.Object? && !arg.Undefined? && !arg.Null? ==> r == Failure(TypeError(NotStringMessage))
    ensures arg.Object? && ("apiUrl" !in arg.props || !arg.props["apiUrl"].Str?) ==> r == Failure(TypeError(NotStringMessage))
    ensures arg.Object? && "apiUrl" in arg.props && arg.props["apiUrl"] == Str("") ==> r == Failure(PlainError(ZeroLengthMessage))
  {
    var apiUrl :- Property(arg, "apiUrl");
    if !apiUrl.Str? then Failure(TypeError(NotStringMessage))
    else if |apiUrl.s| == 0 then Failure(PlainError(ZeroLengthMessage))
    else Success(apiUrl.s)
  }

  /** The undecorated service. */
  class AddressApi {
    const apiUrl: string
    const backend: Backend

    constructor (arg: JsValue, backend: Backend)
      requires CheckApiUrl(arg).Success?
      ensures apiUrl == CheckApiUrl(arg).value && this.backend == backend
    {
      apiUrl := CheckApiUrl(arg).value;
      this.backend := backend;
    }

    /** `new AddressApi(arg)`, which throws when the check fails and otherwise keeps `apiUrl` unchanged. */
    static method Create(arg: JsValue, backend: Backend) returns (r: Result<AddressApi, Error>)
      ensures r.Success? <==> CheckApiUrl(arg).Success?
      ensures r.Failure? ==> r.error == CheckApiUrl(arg).error
      ensures r.Success? ==> fresh(r.value) && r.value.apiUrl == CheckApiUrl(arg).value && r.value.backend == backend
    {
      var checked := CheckApiUrl(arg);
      if checked.Failure? {
        r := Failure(checked.error);
      } else {
        var api := new AddressApi(arg, backend);
        r := Success(api);
      }
    }

    /** Asks the backend; no check of `coords` takes effect, since the guard in the source never throws. */
    method GeolocateAddressByCoords(coords: StoredValue) returns (r: Result<string, Error>)
      modifies backend
      ensures r == backend.respond(apiUrl, coords, old(backend.requests))
      ensures backend.requests == old(backend.requests) + 1
    {
      r := backend.Fetch(apiUrl, coords);
    }
  }

  /** `_createExpirationDate`: `new Date(now + lifetime)`, invalid outside the range of a `Date`. */
  function ExpirationDate(now: int, lifetime: int): (d: Date)
    ensures d.Date? <==> -MaxTime <= now + lifetime <= MaxTime
    ensures d.Date? ==> d.time == now + lifetime
  {
    if -MaxTime <= now + lifetime <= MaxTime then Date(now + lifetime) else InvalidDate
  }

  /**
   * `_isCacheValueNotExpired`: an object whose `expirationDate` is present,
   * a valid date, and strictly later than `now`.
   */
  predicate IsNotExpired(v: StoredValue, now: int): (b: bool)
    requires Truthy(v)
    ensures b ==> v.Entry? && v.expirationDate.Some? && v.expirationDate.value.Date?
  {
    && v.Entry?
    && v.expirationDate.Some?
    && v.expirationDate.value.Date?
    && v.expirationDate.value.time > now
  }

  /** `_unwrapValue`: the `value` of an object, `None` (null) when it has none. */
  function Unwrap(v: StoredValue): (r: Option<string>)
    requires Truthy(v)
    ensures r.Some? ==> v.Entry? && v.value == r
    ensures v.Entry? ==> r == v.value
    ensures !v.Entry? ==> r.None?
  {
    if v.Entry? then v.value else None
  }

  /** `_wrapValue`: the entry that unwraps to `value` and is live exactly until `expirationDate`. */
  function Wrap(value: string, expirationDate: Date): (v: StoredValue)
    ensures Truthy(v)
    ensures Unwrap(v) == Some(value)
    ensures forall now :: IsNotExpired(v, now) <==> expirationDate.Date? && expirationDate.time > now
  {
    Entry(Some(value), Some(expirationDate))
  }

  /** The decorator's hit test: the stored value is truthy and not expired. */
  predicate IsLive(slot: Option<StoredValue>, now: int): (b: bool)
    ensures b <==> slot.Some? && Truthy(slot.value) && IsNotExpired(slot.value, now)
    ensures b <==> && slot.Some? && slot.value.Entry? && slot.value.expirationDate.Some?
                   && slot.value.expirationDate.value.Date? && slot.value.expirationDate.value.time > now
  {
    slot.Some? && Truthy(slot.value) && IsNotExpired(slot.value, now)
  }

  /**
   * Stored values of the wrong shape are never served: an entry without a
   * valid expiration date is expired, coordinates and falsy values are never
   * live, and an object without `value` unwraps to null.
   */
  lemma MalformedEntriesExpire(value: Option<string>, d: Option<Date>, c: GeoCoords, now: int)
    ensures (d.None? || d == Some(InvalidDate)) ==> !IsLive(Some(Entry(value, d)), now)
    ensures !IsLive(Some(Coords(c)), now) && !IsLive(Some(Falsy), now) && !IsLive(None, now)
    ensures Unwrap(Entry(None, d)) == None && Unwrap(Coords(c)) == None
  {
  }

  /** What one decorator call reads and changes: the slot under its key and the backend's request count. */
  datatype AddressState = AddressState(slot: Option<StoredValue>, requests: nat)

  /** The fixed part of a decorated chain: endpoint, backend and lifetime. */
  datatype Resolver = Resolver(url: string, respond: Respond, lifetime: int)

  /** The two clock readings of one call: at the expiry check, and at the write after the backend answered. */
  datatype Clock = Clock(checkedAt: int, writtenAt: int)

  /** The arguments of one decorator call. */
  datatype Call = Call(coords: StoredValue, clock: Clock)

  /** One `geolocateAddressByCoords` of the decorator: the new state and its result (`None` is null). */
  function AddressStep(s: AddressState, r: Resolver, c: Call): (out: (AddressState, Result<Option<string>, Error>))
    ensures IsLive(s.slot, c.clock.checkedAt) ==> out == (s, Success(Unwrap(s.slot.value)))
    ensures !IsLive(s.slot, c.clock.checkedAt) ==>
      var reply := r.respond(r.url, c.coords, s.requests);
      && out.0.requests == s.requests + 1
      && (reply.Success? ==>
            && out.1 == Success(Some(reply.value))
            && out.0.slot.Some? && Truthy(out.0.slot.value) && Unwrap(out.0.slot.value) == Some(reply.value)
            && forall t :: IsLive(out.0.slot, t) <==> -MaxTime <= c.clock.writtenAt + r.lifetime <= MaxTime && t < c.clock.writtenAt + r.lifetime)
      && (reply.Failure? ==> out.1 == Failure(reply.error) && out.0.slot == s.slot)
  {
    if IsLive(s.slot, c.clock.checkedAt) then (s, Success(Unwrap(s.slot.value)))
    else
      match r.respond(r.url, c.coords, s.requests)
      case Success(address) =>
        (AddressState(Some(Wrap(address, ExpirationDate(c.clock.writtenAt, r.lifetime))), s.requests + 1), Success(Some(address)))
      case Failure(e) => (AddressState(s.slot, s.requests + 1), Failure(e))
  }

  /** Consecutive decorator calls: the final state and each call's result. */
  function AddressRun(s: AddressState, r: Resolver, calls: seq<Call>): (out: (AddressState, seq<Result<Option<string>, Error>>))
    ensures |out.1| == |calls|
    ensures s.requests <= out.0.requests <= s.requests + |calls|
    decreases |calls|
  {
    if calls == [] then (s, [])
    else
      var (s1, v) := AddressStep(s, r, calls[0]);
      var (s2, vs) := AddressRun(s1, r, calls[1..]);
      (s2, [v] + vs)
  }

  /** The clock never runs backwards, within a call or from one call to the next. */
  predicate ClockForward(calls: seq<Call>) {
    && (forall i :: 0 <= i < |calls| ==> calls[i].clock.checkedAt <= calls[i].clock.writtenAt)
    && (forall i :: 0 <= i < |calls| - 1 ==> calls[i].clock.writtenAt <= calls[i + 1].clock.checkedAt)
  }

  /**
   * Memoization: a miss that the backend answers, with an expiration inside
   * the range of a `Date`, is followed, before that expiration, by a hit that returns the same address whatever coordinates it
   * is given, without a second backend request.
   */
  lemma TwoCallsWithinLifetime(s: AddressState, r: Resolver, c1: Call, c2: Call)
    requires !IsLive(s.slot, c1.clock.checkedAt)
    requires r.respond(r.url, c1.coords, s.requests).Success?
    requires -MaxTime <= c1.clock.writtenAt + r.lifetime <= MaxTime
    requires c2.clock.checkedAt < c1.clock.writtenAt + r.lifetime
    ensures var (s1, r1) := AddressStep(s, r, c1);
      var (s2, r2) := AddressStep(s1, r, c2);
      && r2 == r1 == Success(Some(r.respond(r.url, c1.coords, s.requests).value))
      && s2 == s1
      && s2.requests == s.requests + 1
  {
  }

  /** Expiration: at or after the stored expiration the next call asks the backend again. */
  lemma ExpiredCallDelegates(s: AddressState, r: Resolver, c1: Call, c2: Call)
    requires !IsLive(s.slot, c1.clock.checkedAt)
    requires r.respond(r.url, c1.coords, s.requests).Success?
    requires c2.clock.checkedAt >= c1.clock.writtenAt + r.lifetime
    ensures var (s1, _) := AddressStep(s, r, c1);
      AddressStep(s1, r, c2).0.requests == s.requests + 2
  {
  }

  /** A slot that is not live at some time is not live later either. */
  lemma NotLiveLater(slot: Option<StoredValue>, t: int, t': int)
    requires !IsLive(slot, t) && t <= t'
    ensures !IsLive(slot, t')
  {
  }

  /**
   * With a lifetime of zero or less (the setter accepts negative integers),
   * once a call finds no live entry, every call of a forward-running clock
   * asks the backend: an expiration is never later than the time it was
   * written at. An entry stored earlier under a longer lifetime is still
   * served until it expires.
   */
  lemma {:induction false} NonPositiveLifetimeAlwaysDelegates(s: AddressState, r: Resolver, calls: seq<Call>)
    requires r.lifetime <= 0
    requires ClockForward(calls)
    requires calls != [] ==> !IsLive(s.slot, calls[0].clock.checkedAt)
    ensures AddressRun(s, r, calls).0.requests == s.requests + |calls|
    decreases |calls|
  {
    if calls != [] {
      var (s1, _) := AddressStep(s, r, calls[0]);
      if |calls| > 1 {
        if s1.slot == s.slot {
          NotLiveLater(s.slot, calls[0].clock.checkedAt, calls[1].clock.checkedAt);
        }
        assert !IsLive(s1.slot, calls[1].clock.checkedAt);
      }
      assert ClockForward(calls[1..]) by {
        forall i | 0 <= i < |calls[1..]| - 1
          ensures calls[1..][i].clock.writtenAt <= calls[1..][i + 1].clock.checkedAt
        {
          assert calls[1..][i] == calls[i + 1] && calls[1..][i + 1] == calls[i + 2];
        }
      }
      NonPositiveLifetimeAlwaysDelegates(s1, r, calls[1..]);
    }
  }

  /** While the slot stays live, a run of calls returns the cached address each time and asks nothing. */
  lemma {:induction false} LiveRun(s: AddressState, r: Resolver, calls: seq<Call>)
    requires forall i :: 0 <= i < |calls| ==> IsLive(s.slot, calls[i].clock.checkedAt)
    ensures AddressRun(s, r, calls).0 == s
    ensures forall i :: 0 <= i < |calls| ==> AddressRun(s, r, calls).1[i] == Success(Unwrap(s.slot.value))
    decreases |calls|
  {
    if calls != [] {
      assert IsLive(s.slot, calls[0].clock.checkedAt);
      LiveRun(s, r, calls[1..]);
    }
  }

  /**
   * Memoization over any number of calls: after a miss answered by the
   * backend, with an expiration inside the range of a `Date`, every call
   * made before the expiration returns that address,
   * whatever its coordinates, and the backend is asked only the once.
   */
  lemma MemoizedUntilExpiry(s: AddressState, r: Resolver, c: Call, later: seq<Call>)
    requires !IsLive(s.slot, c.clock.checkedAt)
    requires r.respond(r.url, c.coords, s.requests).Success?
    requires -MaxTime <= c.clock.writtenAt + r.lifetime <= MaxTime
    requires forall i :: 0 <= i < |later| ==> later[i].clock.checkedAt < c.clock.writtenAt + r.lifetime
    ensures var (out, results) := AddressRun(s, r, [c] + later);
      && out.requests == s.requests + 1
      && forall i :: 0 <= i < |results| ==> results[i] == Success(Some(r.respond(r.url, c.coords, s.requests).value))
  {
    assert ([c] + later)[1..] == later;
    var (s1, _) := AddressStep(s, r, c);
    LiveRun(s1, r, later);
  }

  /** The caching decorator. */
  class CachedAddressApi {
    /** `null` when the value it was given as storage is not a storage object (`undefined`, say). */
    const storage: InMemoryStorage?
    const api: AddressApi
    const cacheKey: string := AddressCacheKey
    var cacheLifetime: int

    /** A new decorator has key `'em_geo'` and a lifetime of one day; its arguments are not checked. */
    constructor (storage: InMemoryStorage?, api: AddressApi)
      ensures this.storage == storage && this.api == api
      ensures cacheLifetime == DefaultCacheLifetime
    {
      this.storage := storage;
      this.api := api;
      cacheLifetime := DefaultCacheLifetime;
    }

    /** The `cacheLifetime` setter: any integer is kept as given, anything else throws and keeps the old lifetime. */
    method SetCacheLifetime(value: JsValue) returns (r: Outcome<Error>)
      modifies this
      ensures IsInteger(value) ==> r == Pass && cacheLifetime == value.n.Floor
      ensures !IsInteger(value) ==> r == Fail(TypeError(LifetimeTypeMessage)) && cacheLifetime == old(cacheLifetime)
    {
      if !IsInteger(value) {
        r := Fail(TypeError(LifetimeTypeMessage));
        return;
      }
      cacheLifetime := value.n.Floor;
      r := Pass;
    }

    /** The decorator as `Resolver` sees it. */
    function Chain(): Resolver
      reads this
    {
      Resolver(api.apiUrl, api.backend.respond, cacheLifetime)
    }

    /**
     * A live entry is unwrapped and returned; otherwise the wrapped service is
     * asked, and its address stored with expiration `writtenAt + lifetime` and
     * returned. A rejection of the wrapped service propagates and stores nothing.
     */
    method GeolocateAddressByCoords(coords: StoredValue, clock: Clock) returns (r: Result<Option<string>, Error>)
      modifies storage, api.backend
      ensures storage == null ==> r == Failure(TypeError(NotAStorageMessage))
      ensures storage == null ==> api.backend.requests == old(api.backend.requests)
      ensures storage != null ==>
        var (s', result) := AddressStep(AddressState(old(storage.Get(cacheKey)), old(api.backend.requests)), Chain(), Call(coords, clock));
        && r == result
        && api.backend.requests == s'.requests
        && storage.entries == if s'.slot == old(storage.Get(cacheKey)) then old(storage.entries)
                              else old(storage.entries)[cacheKey := s'.slot.value]
    {
      if storage == null {
        r := Failure(TypeError(NotAStorageMessage));
        return;
      }
      var address := storage.Get(cacheKey);
      if IsLive(address, clock.checkedAt) {
        r := Success(Unwrap(address.value));
      } else {
        var answer := api.GeolocateAddressByCoords(coords);
        if answer.Failure? {
          r := Failure(answer.error);
          return;
        }
        storage.Set(cacheKey, Wrap(answer.value, ExpirationDate(clock.writtenAt, cacheLifetime)));
        r := Success(Some(answer.value));
      }
    }
  }

  /** An address service as the factory returns it: bare or decorated. */
  datatype AddressService =
    | BareAddressService(api: AddressApi)
    | CachedAddressService(cached: CachedAddressApi)
}
