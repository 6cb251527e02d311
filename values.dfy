/**
 * The JavaScript values the handler-map compiler passes around: states,
 * payloads and arguments, the `{type, payload}` action record, and the
 * TypeError that spreading or property access can throw.
 */
module Values {

  datatype Option<+T> = None | Some(value: T)

  /** A JavaScript value, as far as action payloads and reducer states need one. */
  datatype Value =
    | Undefined
    | Null
    | Bool(b: bool)
    | Num(n: int)
    | Str(s: string)
    | Arr(items: seq<Value>)
    | Obj(fields: map<string, Value>)

  /** The outcome of a JavaScript call: a value, or a thrown TypeError. */
  datatype Result<+T> = Ok(value: T) | Thrown

  /**
   * An action record. `actionType` is the `type` field; `payload` is None when
   * the record has no `payload` key at all, and Some(Undefined) when the key is
   * present with the value `undefined`.
   */
  datatype Action = Action(actionType: string, payload: Option<Value>)

  /** `action.payload`: reading an absent key gives `undefined`. */
  function PayloadOf(a: Action): Value
  {
    match a.payload
    case Some(p) => p
    case None => Undefined
  }

  /**
   * The argument list `f(...v)` passes: an array passes its elements, a string
   * its characters; anything else is not iterable and the call throws.
   */
  function Spread(v: Value): Option<seq<Value>>
  {
    match v
    case Arr(xs) => Some(xs)
    case Str(s) => Some(seq(|s|, i requires 0 <= i < |s| => Str([s[i]])))
    case _ => None
  }

  /**
   * `v[key]`: throws on `undefined` and `null`; an object gives its own field or
   * `undefined`; every other value is read as having no own fields.
   */
  function Property(v: Value, key: string): Result<Value>
  {
    match v
    case Undefined => Thrown
    case Null => Thrown
    case Obj(m) => Ok(if key in m then m[key] else Undefined)
    case _ => Ok(Undefined)
  }

  /**
   * `{...v, [key]: x}`: a shallow copy of the object `v` with `key` set to `x`;
   * spreading any other value contributes no fields.
   */
  function WithField(v: Value, key: string, x: Value): (r: Value)
    ensures r.Obj? && key in r.fields && r.fields[key] == x
    ensures v.Obj? ==> r.fields.Keys == v.fields.Keys + {key}
    ensures v.Obj? ==> forall f :: f in v.fields && f != key ==> r.fields[f] == v.fields[f]
    ensures !v.Obj? ==> r.fields.Keys == {key}
  {
    match v
    case Obj(m) => Obj(m[key := x])
    case _ => Obj(map[key := x])
  }
}
