/**
 * The recursive structural type guard `is(o, sample, strict, recursive)` of data-structures.tsx:
 * does `o` have the shape of `sample`? A throw inside it (reading the own names of a `null`
 * or `undefined` sample) propagates, which the model reports as `Err(TypeError)`.
 */
module TypeGuard {
  import opened Results
  import opened JsValues

  /** `sample[0]` for an array sample: `undefined` when the sample is empty. */
  function FirstOrUndefined(es: seq<JsValue>): JsValue
  {
    if |es| > 0 then es[0] else Undefined
  }

  /** What the guard answers for `o` against `s`. */
  function Conforms(o: JsValue, s: JsValue, strict: bool, recursive: bool): Result<bool>
    decreases o, 3, 0
  {
    if IsNullish(o) then Ok(false)
    else if TypeOf(s) == TypeOf(o) && TypeOf(o) != "object" then Ok(true)
    else if o.Arr? then
      if !s.Arr? then Ok(false)
      else ElementsConform(o, FirstOrUndefined(s.elems), strict, recursive, 0)
    else ObjectConforms(o, s, strict, recursive)
  }

  /** The branch for a non-array `o`: the sample's keys first, then, in strict mode, the keys of `o`. */
  function ObjectConforms(o: JsValue, s: JsValue, strict: bool, recursive: bool): Result<bool>
    decreases o, 2, 0
  {
    match OwnNames(s)
    case Err(e) => Err(e)
    case Ok(keys) =>
      match KeysConform(o, s, keys, strict, recursive, 0)
      case Err(e) => Err(e)
      case Ok(ok) => if !ok || !strict then Ok(ok) else StrictConforms(o, s)
  }

  /** Strict mode: no own key of `o` is missing from the sample or `null` there. */
  function StrictConforms(o: JsValue, s: JsValue): Result<bool>
  {
    match OwnNames(o)
    case Err(e) => Err(e)
    case Ok(oKeys) => Ok(NoExtraKeys(s, oKeys, 0))
  }

  /** The elements of the array `o` from index `i` on, each checked against `sample` until one fails. */
  function ElementsConform(o: JsValue, sample: JsValue, strict: bool, recursive: bool, i: nat): Result<bool>
    requires o.Arr? && i <= |o.elems|
    decreases o, 1, |o.elems| - i
  {
    if i == |o.elems| then Ok(true)
    else
      match Conforms(o.elems[i], sample, strict, recursive)
      case Err(e) => Err(e)
      case Ok(ok) => if !ok then Ok(false) else ElementsConform(o, sample, strict, recursive, i + 1)
  }

  /** One sample key: same `typeof` on both sides, and, when the sample's value is an object, the same shape. */
  function KeyConforms(o: JsValue, s: JsValue, key: string, strict: bool, recursive: bool): Result<bool>
    decreases o, 0, 0
  {
    if TypeOf(Get(o, key)) != TypeOf(Get(s, key)) then Ok(false)
    else if recursive && TypeOf(Get(s, key)) == "object" then Conforms(Get(o, key), Get(s, key), strict, recursive)
    else Ok(true)
  }

  /** The sample keys from index `i` on, checked in order until one fails. */
  function KeysConform(o: JsValue, s: JsValue, keys: seq<string>, strict: bool, recursive: bool, i: nat): Result<bool>
    requires i <= |keys|
    decreases o, 1, |keys| - i
  {
    if i == |keys| then Ok(true)
    else
      match KeyConforms(o, s, keys[i], strict, recursive)
      case Err(e) => Err(e)
      case Ok(ok) => if !ok then Ok(false) else KeysConform(o, s, keys, strict, recursive, i + 1)
  }

  /** Strict mode: no key of `o` from index `i` on is missing from the sample or `null` there. */
  function NoExtraKeys(s: JsValue, oKeys: seq<string>, i: nat): bool
    requires i <= |oKeys|
    decreases |oKeys| - i
  {
    i == |oKeys| || (!IsNullish(Get(s, oKeys[i])) && NoExtraKeys(s, oKeys, i + 1))
  }

  /** The guard itself, with its loops and early returns. */
  method Is(o: JsValue, sample: JsValue, strict: bool, recursive: bool) returns (r: Result<bool>)
    ensures r == Conforms(o, sample, strict, recursive)
    decreases o, 3
  {
    if IsNullish(o) {
      return Ok(false);
    }
    var s := sample;
    // primitives of the same type
    if TypeOf(s) == TypeOf(o) && TypeOf(o) != "object" {
      return Ok(true);
    }
    if o.Arr? {
      if !s.Arr? {
        return Ok(false);
      }
      r := IsEveryElement(o, FirstOrUndefined(s.elems), strict, recursive);
    } else {
      r := IsEveryProperty(o, s, strict, recursive);
      assert r == Conforms(o, sample, strict, recursive);
    }
  }

  /** The array branch: every element of `o` against the sample's first element. */
  method IsEveryElement(o: JsValue, oneSample: JsValue, strict: bool, recursive: bool) returns (r: Result<bool>)
    requires o.Arr?
    ensures r == ElementsConform(o, oneSample, strict, recursive, 0)
    decreases o, 1
  {
    var i := 0;
    while i < |o.elems|
      invariant 0 <= i <= |o.elems|
      invariant ElementsConform(o, oneSample, strict, recursive, 0) == ElementsConform(o, oneSample, strict, recursive, i)
    {
      var e := o.elems[i];
      var ok := Is(e, oneSample, strict, recursive);
      if ok.Err? {
        return ok;
      }
      if !ok.value {
        return Ok(false);
      }
      i := i + 1;
    }
    return Ok(true);
  }

  /** The object branch: the sample's keys, then, in strict mode, the keys of `o`. */
  method IsEveryProperty(o: JsValue, s: JsValue, strict: bool, recursive: bool) returns (r: Result<bool>)
    ensures r == ObjectConforms(o, s, strict, recursive)
    decreases o, 2
  {
    // every property of the sample must be present on o
    var keys := OwnNames(s);
    if keys.Err? {
      return Err(keys.error);
    }
    r := IsEverySampleKey(o, s, keys.value, strict, recursive);
    if r == Ok(true) && strict {
      r := HasNoExtraKeys(o, s);
    }
  }

  /** The sample-key loop: the same `typeof` on both sides, and the recursion where the sample holds an object. */
  method IsEverySampleKey(o: JsValue, s: JsValue, keys: seq<string>, strict: bool, recursive: bool) returns (r: Result<bool>)
    ensures r == KeysConform(o, s, keys, strict, recursive, 0)
    decreases o, 1
  {
    var i := 0;
    while i < |keys|
      invariant 0 <= i <= |keys|
      invariant KeysConform(o, s, keys, strict, recursive, 0) == KeysConform(o, s, keys, strict, recursive, i)
    {
      var ok := IsSampleKey(o, s, keys[i], strict, recursive);
      if ok != Ok(true) {
        return ok;
      }
      i := i + 1;
    }
    return Ok(true);
  }

  /** The body of the key loop: one sample key compared by `typeof`, and recursed into when an object. */
  method IsSampleKey(o: JsValue, s: JsValue, key: string, strict: bool, recursive: bool) returns (r: Result<bool>)
    ensures r == KeyConforms(o, s, key, strict, recursive)
    decreases o, 0
  {
    if TypeOf(Get(o, key)) != TypeOf(Get(s, key)) {
      return Ok(false);
    }
    if recursive && TypeOf(Get(s, key)) == "object" {
      r := Is(Get(o, key), Get(s, key), strict, recursive);
      return;
    }
    return Ok(true);
  }

  /** Strict mode: o must not have properties the sample lacks. */
  method HasNoExtraKeys(o: JsValue, s: JsValue) returns (r: Result<bool>)
    ensures r == StrictConforms(o, s)
  {
    var oKeys := OwnNames(o);
    if oKeys.Err? {
      return Err(oKeys.error);
    }
    var j := 0;
    while j < |oKeys.value|
      invariant 0 <= j <= |oKeys.value|
      invariant NoExtraKeys(s, oKeys.value, 0) == NoExtraKeys(s, oKeys.value, j)
    {
      if IsNullish(Get(s, oKeys.value[j])) {
        return Ok(false);
      }
      j := j + 1;
    }
    return Ok(true);
  }

  // ---------------------------------------------------------------------------------------
  // What the guard accepts

  /** `null` and `undefined` never pass; a primitive passes against any sample of its own `typeof`. */
  lemma GuardOnPrimitives(o: JsValue, s: JsValue, strict: bool, recursive: bool)
    ensures IsNullish(o) ==> Conforms(o, s, strict, recursive) == Ok(false)
    ensures !IsNullish(o) && TypeOf(s) == TypeOf(o) && TypeOf(o) != "object" ==> Conforms(o, s, strict, recursive) == Ok(true)
  {
  }

  lemma ElementsConformAll(o: JsValue, sample: JsValue, strict: bool, recursive: bool, i: nat)
    requires o.Arr? && i <= |o.elems|
    ensures ElementsConform(o, sample, strict, recursive, i) == Ok(true)
        <==> forall j :: i <= j < |o.elems| ==> Conforms(o.elems[j], sample, strict, recursive) == Ok(true)
  {
    ElementsConformIsFirstNonPass(o, sample, strict, recursive, i);
    FirstNonPassAll(ElementVerdicts(o, sample, strict, recursive), i);
  }

  /**
   * An array passes only against an array sample, and then exactly when every element passes
   * against the sample's first element (so an empty array always passes).
   */
  lemma ArrayGuard(o: JsValue, s: JsValue, strict: bool, recursive: bool)
    requires o.Arr?
    ensures !s.Arr? ==> Conforms(o, s, strict, recursive) == Ok(false)
    ensures s.Arr? ==> (Conforms(o, s, strict, recursive) == Ok(true)
      <==> forall j :: 0 <= j < |o.elems| ==> Conforms(o.elems[j], FirstOrUndefined(s.elems), strict, recursive) == Ok(true))
  {
    if s.Arr? {
      ElementsConformAll(o, FirstOrUndefined(s.elems), strict, recursive, 0);
    }
  }

  /** The key loop passes from `i` exactly when every sample key from `i` on passes. */
  lemma KeysConformAll(o: JsValue, s: JsValue, keys: seq<string>, strict: bool, recursive: bool, i: nat)
    requires i <= |keys|
    ensures KeysConform(o, s, keys, strict, recursive, i) == Ok(true)
        <==> forall j :: i <= j < |keys| ==> KeyConforms(o, s, keys[j], strict, recursive) == Ok(true)
  {
    KeysConformIsFirstNonPass(o, s, keys, strict, recursive, i);
    FirstNonPassAll(KeyVerdicts(o, s, keys, strict, recursive), i);
  }

  /** The verdict on each sample key, in order. */
  function KeyVerdicts(o: JsValue, s: JsValue, keys: seq<string>, strict: bool, recursive: bool): (vs: seq<Result<bool>>)
    ensures |vs| == |keys| && forall j :: 0 <= j < |keys| ==> vs[j] == KeyConforms(o, s, keys[j], strict, recursive)
  {
    seq(|keys|, j requires 0 <= j < |keys| => KeyConforms(o, s, keys[j], strict, recursive))
  }

  /** The verdict on each element against the sample, in order. */
  function ElementVerdicts(o: JsValue, sample: JsValue, strict: bool, recursive: bool): (vs: seq<Result<bool>>)
    requires o.Arr?
    ensures |vs| == |o.elems| && forall j :: 0 <= j < |o.elems| ==> vs[j] == Conforms(o.elems[j], sample, strict, recursive)
  {
    seq(|o.elems|, j requires 0 <= j < |o.elems| => Conforms(o.elems[j], sample, strict, recursive))
  }

  /** Verdicts from index `i` on, taken in order until one is not a pass: that verdict, or a pass. */
  function FirstNonPass(vs: seq<Result<bool>>, i: nat): Result<bool>
    requires i <= |vs|
    decreases |vs| - i
  {
    if i == |vs| then Ok(true)
    else
      match vs[i]
      case Err(e) => Err(e)
      case Ok(ok) => if !ok then Ok(false) else FirstNonPass(vs, i + 1)
  }

  /** The verdicts pass from `i` on exactly when each of them is a pass. */
  lemma {:induction false} FirstNonPassAll(vs: seq<Result<bool>>, i: nat)
    requires i <= |vs|
    ensures FirstNonPass(vs, i) == Ok(true) <==> forall j :: i <= j < |vs| ==> vs[j] == Ok(true)
    decreases |vs| - i
  {
    if i < |vs| {
      FirstNonPassAll(vs, i + 1);
    }
  }

  /** The key loop takes the per-key verdicts in order until one is not a pass. */
  lemma {:induction false} KeysConformIsFirstNonPass(o: JsValue, s: JsValue, keys: seq<string>, strict: bool, recursive: bool, i: nat)
    requires i <= |keys|
    ensures KeysConform(o, s, keys, strict, recursive, i) == FirstNonPass(KeyVerdicts(o, s, keys, strict, recursive), i)
    decreases |keys| - i
  {
    if i < |keys| {
      KeysConformIsFirstNonPass(o, s, keys, strict, recursive, i + 1);
    }
  }

  /** The element loop takes the per-element verdicts in order until one is not a pass. */
  lemma {:induction false} ElementsConformIsFirstNonPass(o: JsValue, sample: JsValue, strict: bool, recursive: bool, i: nat)
    requires o.Arr? && i <= |o.elems|
    ensures ElementsConform(o, sample, strict, recursive, i) == FirstNonPass(ElementVerdicts(o, sample, strict, recursive), i)
    decreases |o.elems| - i
  {
    if i < |o.elems| {
      ElementsConformIsFirstNonPass(o, sample, strict, recursive, i + 1);
    }
  }

  lemma {:induction false} NoExtraKeysAll(s: JsValue, oKeys: seq<string>, i: nat)
    requires i <= |oKeys|
    ensures NoExtraKeys(s, oKeys, i) <==> forall j :: i <= j < |oKeys| ==> !IsNullish(Get(s, oKeys[j]))
    decreases |oKeys| - i
  {
    if i < |oKeys| {
      NoExtraKeysAll(s, oKeys, i + 1);
    }
  }

  /**
   * An object passes exactly when every key of the sample has the same `typeof` on both sides
   * (and, recursively, the same shape where the sample holds an object), and, in strict mode,
   * no key of the object is absent from the sample or `null` there.
   */
  lemma ObjectGuard(o: JsValue, s: JsValue, strict: bool, recursive: bool)
    requires o.Obj? && !IsNullish(s)
    ensures Conforms(o, s, strict, recursive) == Ok(true) <==>
      (forall k :: k in OwnNames(s).value ==> KeyConforms(o, s, k, strict, recursive) == Ok(true)) &&
      (strict ==> forall k :: k in OwnNames(o).value ==> !IsNullish(Get(s, k)))
  {
    var keys := OwnNames(s).value;
    var oKeys := OwnNames(o).value;
    ObjectConformsUnfold(o, s, strict, recursive);
    KeysConformAll(o, s, keys, strict, recursive, 0);
    NoExtraKeysAll(s, oKeys, 0);
    assert (forall k :: k in keys ==> KeyConforms(o, s, k, strict, recursive) == Ok(true))
      <==> forall j :: 0 <= j < |keys| ==> KeyConforms(o, s, keys[j], strict, recursive) == Ok(true);
    assert (forall k :: k in oKeys ==> !IsNullish(Get(s, k)))
      <==> forall j :: 0 <= j < |oKeys| ==> !IsNullish(Get(s, oKeys[j]));
  }

  /** On an object against a non-nullish sample, the guard is the key loop and, if strict, the extra-key check. */
  lemma ObjectConformsUnfold(o: JsValue, s: JsValue, strict: bool, recursive: bool)
    requires o.Obj? && !IsNullish(s)
    ensures OwnNames(s).Ok? && OwnNames(o).Ok?
    ensures Conforms(o, s, strict, recursive) == Ok(true) <==>
      KeysConform(o, s, OwnNames(s).value, strict, recursive, 0) == Ok(true) &&
      (strict ==> NoExtraKeys(s, OwnNames(o).value, 0))
  {
    assert Conforms(o, s, strict, recursive) == ObjectConforms(o, s, strict, recursive);
  }

  /** A sample key that `o` lacks (or holds with another `typeof`) makes the object fail. */
  lemma MissingSampleKeyFails(o: JsValue, s: JsValue, key: string, strict: bool, recursive: bool)
    requires o.Obj? && !IsNullish(s)
    requires key in OwnNames(s).value && TypeOf(Get(o, key)) != TypeOf(Get(s, key))
    ensures Conforms(o, s, strict, recursive) != Ok(true)
  {
    ObjectGuard(o, s, strict, recursive);
  }

  /** Strict mode rejects an object with a key the sample does not have. */
  lemma StrictRejectsExtraKey(o: JsValue, s: JsValue, key: string, recursive: bool)
    requires o.Obj? && !IsNullish(s)
    requires key in OwnNames(o).value && IsNullish(Get(s, key))
    ensures Conforms(o, s, true, recursive) != Ok(true)
  {
    ObjectGuard(o, s, true, recursive);
  }

  /** The shape of a persisted tile as the document declares it. */
  const TILE_SAMPLE := Obj([Prop("name", Str("")), Prop("trait", Str(""))])

  /** A declared tile passes; the tile the Block conversion writes (key `traits`) does not. */
  lemma TileShapes()
    ensures Conforms(Obj([Prop("name", Str("Empty")), Prop("trait", Str(""))]), TILE_SAMPLE, true, true) == Ok(true)
    ensures Conforms(Obj([Prop("name", Str("Empty")), Prop("traits", Arr([]))]), TILE_SAMPLE, true, true) == Ok(false)
  {
  }

  /**
   * Two edge cases of the JavaScript semantics: a number sample has no own names, so a
   * boolean passes against it; and an empty array sample makes a non-empty array of objects
   * throw, because the element sample is then `undefined`.
   */
  lemma GuardEdgeCases()
    ensures Conforms(Bool(true), Num(5.0), true, true) == Ok(true)
    ensures Conforms(Arr([Obj([])]), Arr([]), true, true) == Err(TypeError)
  {
  }

  /**
   * Own-property order puts array-index keys first: the object `{b: {}, 1: ""}` is held as
   * `{1: "", b: {}}` and the sample `{b: null, 1: 0}` as `{1: 0, b: null}`.
   */
  lemma IndexKeysHeldFirst()
    ensures InOwnPropertyOrder([Prop("1", Str("")), Prop("b", Obj([]))])
    ensures InOwnPropertyOrder([Prop("1", Num(0.0)), Prop("b", Null)])
  {
    assert !IsArrayIndex("b");
  }

  /**
   * Array-index keys are checked first: held in own-property order, `{b: {}, 1: ""}` fails
   * against `{b: null, 1: 0}` on key "1", before the recursion into `b` (see `NullSampleKeyThrows`).
   */
  lemma IndexKeysCheckedFirst()
    ensures Conforms(Obj([Prop("1", Str("")), Prop("b", Obj([]))]), Obj([Prop("1", Num(0.0)), Prop("b", Null)]), true, true) == Ok(false)
  {
  }

  /** The recursion into a key the sample holds as `null` throws: `{b: {}}` against `{b: null}`. */
  lemma NullSampleKeyThrows()
    ensures Conforms(Obj([Prop("b", Obj([]))]), Obj([Prop("b", Null)]), true, true) == Err(TypeError)
  {
  }
}
