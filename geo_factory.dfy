/** The geolocation factory (services/geo-location/index.js). */
module GeoFactory {
  import opened Wrappers
  import opened Values
  import opened Storage
  import opened JsValues
  import opened GeoServices

  const OptionsMessage := "options should be an object"

  /** The fields of a new `Config`. */
  const ConfigDefaults: map<string, JsValue> := map["useCache" := Bool(true), "cacheStorage" := Null]

  /** `isObject`: `typeof value === 'object'` and not `null`. */
  predicate IsObject(v: JsValue): (b: bool)
    ensures b <==> !(v.Undefined? || v.Null? || v.Bool? || v.Num? || v.Str?)
    ensures b ==> forall name :: Property(v, name).Success?
  {
    v.Object? || v.StorageObject?
  }

  /** Which storage a decorator gets: a fresh in-memory one, or the value the caller supplied. */
  datatype StoragePlan = FreshStorage | SuppliedStorage(value: JsValue)

  /** The decorator chain the factory builds. */
  datatype GeoPlan = NavigatorOnly | CachedNavigator(storage: StoragePlan)

  /**
   * The chain `createGeoLocation(options)` decides on. A non-object throws; a
   * missing field takes its default (`useCache` true, `cacheStorage` null), and
   * a field the caller supplies, even as `undefined`, overrides it.
   */
  function PlanGeoLocation(options: JsValue): (r: Result<GeoPlan, Error>)
    ensures r.Failure? <==> options.Undefined? || options.Null? || options.Bool? || options.Num? || options.Str?
    ensures r.Failure? ==> r.error == TypeError(OptionsMessage)
    ensures r.Success? ==> (r.value.NavigatorOnly? <==> "useCache" in Own(options) && !IsTruthy(Own(options)["useCache"]))
    ensures r.Success? && r.value.CachedNavigator? ==>
      (r.value.storage.FreshStorage? <==> "cacheStorage" !in Own(options) || Own(options)["cacheStorage"].Null?)
    ensures r.Success? && r.value.CachedNavigator? && r.value.storage.SuppliedStorage? ==>
      r.value.storage.value == Own(options)["cacheStorage"]
  {
    if !IsObject(options) then Failure(TypeError(OptionsMessage))
    else
      var merged := Assign(ConfigDefaults, options);
      if !IsTruthy(merged["useCache"]) then Success(NavigatorOnly)
      else if merged["cacheStorage"].Null? then Success(CachedNavigator(FreshStorage))
      else Success(CachedNavigator(SuppliedStorage(merged["cacheStorage"])))
  }

  /**
   * `createGeoLocation(options)`. The bare service stands for the browser's
   * geolocation, which the model receives as `navigator`.
   */
  method CreateGeoLocation(options: JsValue, navigator: NavigatorGeoLocationService) returns (r: Result<GeoService, Error>)
    ensures var plan := PlanGeoLocation(options);
      && (plan.Failure? ==> r == Failure(plan.error))
      && (plan == Success(NavigatorOnly) ==> r == Success(NavigatorService(navigator)))
      && (plan.Success? && plan.value.CachedNavigator? ==>
            && r.Success? && r.value.CachedGeoService?
            && fresh(r.value.cached)
            && r.value.cached.location == navigator
            && (plan.value.storage.FreshStorage? ==>
                  r.value.cached.storage != null && fresh(r.value.cached.storage) && r.value.cached.storage.entries == map[])
            && (plan.value.storage.SuppliedStorage? ==> r.value.cached.storage == StorageOf(plan.value.storage.value)))
  {
    if !IsObject(options) {
      return Failure(TypeError(OptionsMessage));
    }
    var merged := Assign(ConfigDefaults, options);
    var service := NavigatorService(navigator);
    if IsTruthy(merged["useCache"]) {
      var cacheStorage: InMemoryStorage?;
      if !merged["cacheStorage"].Null? {
        cacheStorage := StorageOf(merged["cacheStorage"]);
      } else {
        cacheStorage := new InMemoryStorage();
      }
      var cached := new CachedGeoLocationService(cacheStorage, navigator);
      service := CachedGeoService(cached);
    }
    r := Success(service);
  }
}
