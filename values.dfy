/** Values shared by the geolocation and the address services. */
module Values {
  import opened Wrappers

  /** What the core throws, or rejects its promises with. */
  datatype Error =
    | TypeError(message: string)   // a JavaScript `TypeError`
    | PlainError(message: string)  // a JavaScript `Error`
    | Rejection                    // a rejection by the browser or the backend; its reason is not modelled

  /** A point on Earth. The coordinates are opaque to the core: it only stores and passes them on. */
  datatype GeoCoords = GeoCoords(latitude: real, longitude: real)

  /** `new GeoCoords()`, the "unknown location" the geolocation cache falls back to. */
  const DefaultCoords := GeoCoords(0.0, 0.0)

  /** A JavaScript `Date`: a time value in milliseconds, or an invalid date. */
  datatype Date = Date(time: int) | InvalidDate

  /** The largest magnitude of a time value a `Date` can hold (ECMAScript's TimeClip). */
  const MaxTime := 8_640_000_000_000_000

  /**
   * The values the two caches keep in storage. `Falsy` is any value JavaScript
   * treats as false (`undefined` is a missing key instead); both caches test
   * truthiness before they look inside a stored value.
   */
  datatype StoredValue =
    | Falsy
    | Coords(coords: GeoCoords)
    | Entry(value: Option<string>, expirationDate: Option<Date>)  // `{value, expirationDate}`; `None` is a missing property

  predicate Truthy(v: StoredValue) {
    !v.Falsy?
  }
}
