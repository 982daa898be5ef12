/** The JavaScript values the factories and setters receive as options. */
module JsValues {
  import opened Wrappers
  import opened Values
  import opened Storage

  /** The words of the TypeError raised on reading a property of `undefined` or `null` (also by destructuring). */
  const NullishMessage := "cannot read a property of undefined or null"

  /**
   * A JavaScript value as far as the core looks at it. `Num` is a finite number;
   * `Object` is a plain object given by its own enumerable properties.
   */
  datatype JsValue =
    | Undefined
    | Null
    | Bool(b: bool)
    | Num(n: real)
    | Str(s: string)
    | StorageObject(storage: InMemoryStorage)
    | Object(props: map<string, JsValue>)

  /** JavaScript's truthiness. */
  predicate IsTruthy(v: JsValue): (b: bool)
    ensures !b <==> v == Undefined || v == Null || v == Bool(false) || v == Num(0.0) || v == Str("")
  {
    match v
    case Undefined => false
    case Null => false
    case Bool(b) => b
    case Num(n) => n != 0.0
    case Str(s) => s != ""
    case StorageObject(_) => true
    case Object(_) => true
  }

  /**
   * The own enumerable properties `Object.assign` copies from `v`: none from
   * `undefined`, `null`, booleans and numbers; for a string they are its indices
   * and for a storage object its private map, neither of which any caller reads.
   */
  function Own(v: JsValue): map<string, JsValue> {
    if v.Object? then v.props else map[]
  }

  /** `Object.assign(target, source)` on a plain object given by its properties. */
  function Assign(target: map<string, JsValue>, source: JsValue): (r: map<string, JsValue>)
    ensures r.Keys == target.Keys + Own(source).Keys
    ensures forall k :: k in Own(source) ==> r[k] == Own(source)[k]
    ensures forall k :: k in target && k !in Own(source) ==> r[k] == target[k]
  {
    target + Own(source)
  }

  /** `v.name`: throws on `undefined` and `null`; a missing property reads as `undefined`. */
  function Property(v: JsValue, name: string): (r: Result<JsValue, Error>)
    ensures r.Failure? <==> v.Undefined? || v.Null?
    ensures r.Failure? ==> r.error == TypeError(NullishMessage)
    ensures r.Success? ==> r.value == if name in Own(v) then Own(v)[name] else Undefined
  {
    match v
    case Undefined => Failure(TypeError(NullishMessage))
    case Null => Failure(TypeError(NullishMessage))
    case _ => Success(if name in Own(v) then Own(v)[name] else Undefined)
  }

  /** `Number.isInteger(v)`. */
  predicate IsInteger(v: JsValue): (b: bool)
    ensures b ==> v.Num?
  {
    v.Num? && v.n.Floor as real == v.n
  }

  /** `Number.isInteger` holds of every whole number, negative ones included, and of nothing strictly between two of them. */
  lemma IntegerNumbers(k: int, n: real)
    ensures IsInteger(Num(k as real))
    ensures k as real < n < (k + 1) as real ==> !IsInteger(Num(n))
  {
    if k as real < n < (k + 1) as real {
      assert n.Floor == k;
    }
  }

  /** The backend behind a value used as storage; `null` when the value is not a storage object. */
  function StorageOf(v: JsValue): InMemoryStorage? {
    if v.StorageObject? then v.storage else null
  }
}
