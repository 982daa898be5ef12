/** The address factory (services/address-api/index.js), as written and corrected. */
module AddressFactory {
  import opened Wrappers
  import opened Values
  import opened Storage
  import opened JsValues
  import opened GeoFactory
  import opened AddressServices

  /** The fields of a new `ApiConfig`. */
  const ApiConfigDefaults: map<string, JsValue> :=
    map["apiUrl" := Str(""), "useCache" := Bool(true), "cacheStorage" := Null]

  /** `new ApiConfig(options)`: the defaults, with every own property of `options` copied over them. */
  function ApiConfig(options: JsValue): (config: JsValue)
    ensures config.Object?
    ensures config.props.Keys == ApiConfigDefaults.Keys + Own(options).Keys
    ensures forall k :: k in Own(options) ==> config.props[k] == Own(options)[k]
    ensures forall k :: k in ApiConfigDefaults && k !in Own(options) ==> config.props[k] == ApiConfigDefaults[k]
  {
    Object(Assign(ApiConfigDefaults, options))
  }

  /** `Object.assign({}, new ApiConfig(), options)`: the configuration both factories read. */
  function Config(options: JsValue): (config: map<string, JsValue>)
    ensures config.Keys == ApiConfigDefaults.Keys + Own(options).Keys
    ensures forall k :: k in Own(options) ==> config[k] == Own(options)[k]
    ensures forall k :: k in ApiConfigDefaults && k !in Own(options) ==> config[k] == ApiConfigDefaults[k]
  {
    Assign(ApiConfig(Undefined).props, options)
  }

  /** The decorator chain the factory builds. */
  datatype AddressPlan = BareApi(apiUrl: string) | CachedApi(apiUrl: string, storage: StoragePlan)

  /**
   * The chain `createAddressApi(options)` decides on, as written: the
   * constructor receives `config.apiUrl` itself, and the storage is taken from
   * `options.cacheStorage` (so an omitted field gives `undefined`), not from
   * the merged configuration.
   */
  function PlanAddressApi(options: JsValue): (r: Result<AddressPlan, Error>)
    ensures var checked := CheckApiUrl(Config(options)["apiUrl"]);
      && (r.Success? <==> checked.Success?)
      && (r.Failure? ==> r.error == checked.error)
      && (r.Success? ==> r.value.apiUrl == checked.value && options.Object?)
    ensures r.Success? ==> (r.value.BareApi? <==> !IsTruthy(Config(options)["useCache"]))
    ensures r.Success? && r.value.CachedApi? ==>
      r.value.storage == if "cacheStorage" in Own(options) && Own(options)["cacheStorage"].Null? then FreshStorage
                         else SuppliedStorage(if "cacheStorage" in Own(options) then Own(options)["cacheStorage"] else Undefined)
  {
    var config := Config(options);
    var apiUrl :- CheckApiUrl(config["apiUrl"]);
    if !IsTruthy(config["useCache"]) then Success(BareApi(apiUrl))
    else
      // `options` is an object here: otherwise `config.apiUrl` is '' and the constructor has thrown
      var supplied := Property(options, "cacheStorage").value;
      Success(CachedApi(apiUrl, if supplied.Null? then FreshStorage else SuppliedStorage(supplied)))
  }

  /**
   * As written, an `apiUrl` given as a string, the form the option documents,
   * always makes the factory throw: destructuring `{apiUrl}` out of a string
   * yields `undefined`.
   */
  lemma StringApiUrlRejected(options: JsValue)
    requires "apiUrl" in Own(options) && Own(options)["apiUrl"].Str?
    ensures PlanAddressApi(options) == Failure(TypeError(NotStringMessage))
  {
  }

  /** As written, a cached chain built from options without `cacheStorage` gets `undefined` as its storage. */
  lemma OmittedStorageIsUndefined(options: JsValue)
    requires PlanAddressApi(options).Success? && PlanAddressApi(options).value.CachedApi?
    requires "cacheStorage" !in Own(options)
    ensures PlanAddressApi(options).value.storage == SuppliedStorage(Undefined)
  {
  }

  /**
   * The chain the factory is evidently meant to build: the constructor receives
   * `{apiUrl: config.apiUrl}`, and the storage comes from the merged
   * configuration, so a non-empty string `apiUrl` is accepted and an omitted
   * `cacheStorage` means a fresh in-memory storage.
   */
  function PlanAddressApiCorrected(options: JsValue): (r: Result<AddressPlan, Error>)
    ensures var apiUrl := Config(options)["apiUrl"];
      && (r.Success? <==> apiUrl.Str? && apiUrl.s != "")
      && (r.Success? ==> r.value.apiUrl == apiUrl.s)
      && (r.Failure? ==> r.error == if apiUrl.Str? then PlainError(ZeroLengthMessage) else TypeError(NotStringMessage))
    ensures r.Success? ==> (r.value.BareApi? <==> !IsTruthy(Config(options)["useCache"]))
    ensures r.Success? && r.value.CachedApi? ==>
      (r.value.storage.FreshStorage? <==> "cacheStorage" !in Own(options) || Own(options)["cacheStorage"].Null?)
    ensures r.Success? && r.value.CachedApi? && r.value.storage.SuppliedStorage? ==>
      r.value.storage.value == Own(options)["cacheStorage"]
  {
    var config := Config(options);
    var apiUrl :- CheckApiUrl(Object(map["apiUrl" := config["apiUrl"]]));
    if !IsTruthy(config["useCache"]) then Success(BareApi(apiUrl))
    else Success(CachedApi(apiUrl, if config["cacheStorage"].Null? then FreshStorage else SuppliedStorage(config["cacheStorage"])))
  }

  /** The objects of an address service match a plan. */
  predicate Realizes(s: AddressService, plan: AddressPlan, backend: Backend)
    reads if s.CachedAddressService? then {s.cached} else {}
    reads if s.CachedAddressService? && s.cached.storage != null then {s.cached.storage} else {}
  {
    match plan
    case BareApi(url) =>
      s.BareAddressService? && s.api.apiUrl == url && s.api.backend == backend
    case CachedApi(url, storage) =>
      && s.CachedAddressService?
      && s.cached.api.apiUrl == url && s.cached.api.backend == backend
      && s.cached.cacheLifetime == DefaultCacheLifetime
      && (storage.SuppliedStorage? ==> s.cached.storage == StorageOf(storage.value))
      && (storage.FreshStorage? ==> s.cached.storage != null && s.cached.storage.entries == map[])
  }


  /** `createAddressApi(options)` as written. */
  method CreateAddressApi(options: JsValue, backend: Backend) returns (r: Result<AddressService, Error>)
    ensures var plan := PlanAddressApi(options);
      && (plan.Failure? ==> r == Failure(plan.error))
      && (plan.Success? ==> r.Success? && Realizes(r.value, plan.value, backend))
    ensures r.Success? && r.value.BareAddressService? ==> fresh(r.value.api)
    ensures r.Success? && r.value.CachedAddressService? ==>
      && fresh(r.value.cached) && fresh(r.value.cached.api)
      && (PlanAddressApi(options).value.storage.FreshStorage? ==> fresh(r.value.cached.storage))
  {
    var config := Config(options);
    var api :- AddressApi.Create(config["apiUrl"], backend);
    if IsTruthy(config["useCache"]) {
      var supplied := Property(options, "cacheStorage").value;
      var cacheStorage: InMemoryStorage?;
      if !supplied.Null? {
        cacheStorage := StorageOf(supplied);
      } else {
        cacheStorage := new InMemoryStorage();
      }
      var cached := new CachedAddressApi(cacheStorage, api);
      return Success(CachedAddressService(cached));
    }
    r := Success(BareAddressService(api));
  }

  /** `createAddressApi(options)` as evidently intended; see `PlanAddressApiCorrected`. */
  method CreateAddressApiCorrected(options: JsValue, backend: Backend) returns (r: Result<AddressService, Error>)
    ensures var plan := PlanAddressApiCorrected(options);
      && (plan.Failure? ==> r == Failure(plan.error))
      && (plan.Success? ==> r.Success? && Realizes(r.value, plan.value, backend))
    ensures r.Success? && r.value.BareAddressService? ==> fresh(r.value.api)
    ensures r.Success? && r.value.CachedAddressService? ==>
      && fresh(r.value.cached) && fresh(r.value.cached.api)
      && (PlanAddressApiCorrected(options).value.storage.FreshStorage? ==> fresh(r.value.cached.storage))
  {
    var config := Config(options);
    var api :- AddressApi.Create(Object(map["apiUrl" := config["apiUrl"]]), backend);
    if IsTruthy(config["useCache"]) {
      var cacheStorage: InMemoryStorage?;
      if !config["cacheStorage"].Null? {
        cacheStorage := StorageOf(config["cacheStorage"]);
      } else {
        cacheStorage := new InMemoryStorage();
      }
      var cached := new CachedAddressApi(cacheStorage, api);
      return Success(CachedAddressService(cached));
    }
    r := Success(BareAddressService(api));
  }
}
