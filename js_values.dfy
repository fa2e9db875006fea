/**
 * The values of the JavaScript runtime that the structural type guard inspects and that
 * the persisted tiles carry: `typeof`, `Object.getOwnPropertyNames` and property reads.
 */
module JsValues {
  import opened Results

  datatype JsValue =
    | Undefined
    | Null
    | Bool(b: bool)
    | Num(n: real)
    | Str(s: string)
    | Arr(elems: seq<JsValue>)
    | Obj(props: seq<Prop>)

  /**
   * One own property of an object. An object holds its properties in JavaScript's
   * own-property order, each key once (`InOwnPropertyOrder`): the array-index keys first,
   * ascending, then the other keys in creation order. `OwnNames` lists them as held.
   */
  datatype Prop = Prop(key: string, value: JsValue)

  /** The `typeof` operator (functions and symbols do not occur here). */
  function TypeOf(v: JsValue): string
  {
    match v
    case Undefined => "undefined"
    case Bool(_) => "boolean"
    case Num(_) => "number"
    case Str(_) => "string"
    case Null | Arr(_) | Obj(_) => "object"
  }

  /** `typeof` is "object" for `null`, arrays and objects, and "undefined" only for `undefined`. */
  lemma TypeOfKinds(v: JsValue)
    ensures TypeOf(v) == "object" <==> v.Null? || v.Arr? || v.Obj?
    ensures TypeOf(v) == "undefined" <==> v.Undefined?
  {
  }

  /** `v == null` with loose equality holds for exactly `null` and `undefined`. */
  predicate IsNullish(v: JsValue)
  {
    v.Undefined? || v.Null?
  }

  /** The canonical decimal spelling of an array index, as property keys spell it. */
  function IndexKey(i: nat): (k: string)
    ensures |k| > 0
    ensures forall c :: c in k ==> '0' <= c <= '9'
  {
    var d := ['0' + (i % 10) as char];
    if i < 10 then d else IndexKey(i / 10) + d
  }

  /** The keys "0", ..., "n-1" followed by "length": the own names of a string or an array of length n. */
  function IndexedNames(n: nat): (ks: seq<string>)
    ensures |ks| == n + 1 && ks[n] == "length"
  {
    seq(n, i requires 0 <= i < n => IndexKey(i)) + ["length"]
  }

  /** The first index below `n` whose key is `key`. */
  function IndexOfKey(key: string, n: nat): (r: Option<nat>)
    ensures r.Some? ==> r.value < n && IndexKey(r.value) == key
  {
    IndexOfKeyFrom(key, n, 0)
  }

  function IndexOfKeyFrom(key: string, n: nat, i: nat): (r: Option<nat>)
    requires i <= n
    ensures r.Some? ==> i <= r.value < n && IndexKey(r.value) == key
    decreases n - i
  {
    if i == n then None
    else if IndexKey(i) == key then Some(i)
    else IndexOfKeyFrom(key, n, i + 1)
  }

  // ---------------------------------------------------------------------------------------
  // Own-property order

  predicate AllDigits(k: string)
  {
    k == [] || ('0' <= k[0] <= '9' && AllDigits(k[1..]))
  }

  function DigitValue(c: char): nat
  {
    if '0' <= c <= '9' then (c - '0') as nat else 0
  }

  /** The number a string of decimal digits spells. */
  function DecimalValue(k: string): nat
  {
    if k == [] then 0 else DecimalValue(k[..|k| - 1]) * 10 + DigitValue(k[|k| - 1])
  }

  /** An array index: the canonical decimal spelling (no leading zero) of an integer below 2^32 - 1. */
  predicate IsArrayIndex(k: string)
  {
    |k| > 0 && AllDigits(k) && (k[0] != '0' || |k| == 1) && DecimalValue(k) < 0xFFFF_FFFF
  }

  /**
   * The properties `ps` are in JavaScript's own-property order, each key once: the keys that
   * are array indexes come first, in ascending numeric order, and the other keys follow in
   * creation order.
   */
  predicate InOwnPropertyOrder(ps: seq<Prop>)
  {
    (forall i, j :: 0 <= i < j < |ps| ==> ps[i].key != ps[j].key) &&
    (forall i, j :: 0 <= i < j < |ps| && IsArrayIndex(ps[j].key) ==>
      IsArrayIndex(ps[i].key) && DecimalValue(ps[i].key) < DecimalValue(ps[j].key))
  }

  /** The keys of an object's properties, in the order it holds them. */
  function Keys(ps: seq<Prop>): (ks: seq<string>)
    ensures |ks| == |ps| && forall i :: 0 <= i < |ps| ==> ks[i] == ps[i].key
  {
    seq(|ps|, i requires 0 <= i < |ps| => ps[i].key)
  }

  /**
   * `Object.getOwnPropertyNames(v)`: it throws on `null` and `undefined`, a string or an array
   * lists its indexes and "length", another primitive lists nothing, and an object lists its
   * keys in the order it holds them.
   */
  function OwnNames(v: JsValue): (r: Result<seq<string>>)
    ensures r.Err? <==> IsNullish(v)
  {
    match v
    case Undefined | Null => Err(TypeError)
    case Bool(_) | Num(_) => Ok([])
    case Str(s) => Ok(IndexedNames(|s|))
    case Arr(es) => Ok(IndexedNames(|es|))
    case Obj(ps) => Ok(Keys(ps))
  }

  /** The first property value stored under `key`, or `undefined`. */
  function PropValue(ps: seq<Prop>, key: string): JsValue
  {
    if ps == [] then Undefined
    else if ps[0].key == key then ps[0].value
    else PropValue(ps[1..], key)
  }

  /**
   * The read `v[key]` on a value that is not `null` or `undefined` (those throw before any
   * read in the guard). Reads through the prototype chain are not modelled.
   */
  function Get(v: JsValue, key: string): (r: JsValue)
    ensures TypeOf(r) == "object" ==> r < v
  {
    match v
    case Obj(ps) => PropValueBelow(v, ps, key)
    case Arr(es) =>
      if key == "length" then Num(|es| as real)
      else (match IndexOfKey(key, |es|)
            case Some(i) => es[i]
            case None => Undefined)
    case Str(s) =>
      if key == "length" then Num(|s| as real)
      else (match IndexOfKey(key, |s|)
            case Some(i) => Str([s[i]])
            case None => Undefined)
    case _ => Undefined
  }

  /** `PropValue`, with the fact that what it finds lies inside the object. */
  function PropValueBelow(v: JsValue, ps: seq<Prop>, key: string): (r: JsValue)
    requires v.Obj? && |ps| <= |v.props| && ps == v.props[|v.props| - |ps|..]
    ensures r == PropValue(ps, key)
    ensures TypeOf(r) == "object" ==> r < v
    decreases |ps|
  {
    if ps == [] then Undefined
    else
      assert ps[0] == v.props[|v.props| - |ps|];
      if ps[0].key == key then ps[0].value
      else PropValueBelow(v, ps[1..], key)
  }
}
