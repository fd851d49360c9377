/** Argument coercion and validation: `numberOrObject` and `enforceTypes`. */
module Coercion {
  import opened Values

  /** What the adapter itself throws while building a pipeline. */
  datatype Failure =
    | NotANumber(val: Value)        // the Error thrown by numberOrObject
    | NotAFunction(callee: string)  // the TypeError of calling a property that is not a function

  /** The `message` of the thrown error. */
  function Message(f: Failure): string
  {
    match f
    case NotANumber(v) => Display(v) + " is not a number"
    case NotAFunction(c) => c + " is not a function"
  }

  /** numberOrObject: a string is replaced by Number(string); anything else is
      kept as it is; either way the call throws when the value is NaN. */
  function NumberOrObject(v: Value): (r: Result<Value, Failure>)
    ensures r.Ok? <==> ToNumber(v).Some?
    ensures r.Ok? ==> ToNumber(r.value) == ToNumber(v)
    ensures r.Ok? && v.Str? ==> r.value.Num?
    ensures r.Ok? && !v.Str? ==> r.value == v
    ensures r.Err? ==> r.error == NotANumber(v) && Message(r.error) == Display(v) + " is not a number"
  {
    if v.Str? then
      match StringToNumber(v.s)
      case Some(n) => Ok(Num(n))
      case None => Err(NotANumber(v))
    else if ToNumber(v).None? then Err(NotANumber(v))
    else Ok(v)
  }

  /** `args.map(numberOrObject)`: element by element, in order, the first
      element that throws ends the whole map. */
  function CoerceAll(es: seq<Value>): (r: Result<seq<Value>, Failure>)
    ensures r.Ok? <==> forall i :: 0 <= i < |es| ==> ToNumber(es[i]).Some?
    ensures r.Ok? ==> |r.value| == |es| && forall i :: 0 <= i < |es| ==> NumberOrObject(es[i]) == Ok(r.value[i])
    ensures r.Err? ==> exists i :: 0 <= i < |es| && ToNumber(es[i]).None? && r.error == NotANumber(es[i]) &&
                                   forall j :: 0 <= j < i ==> ToNumber(es[j]).Some?
  {
    if es == [] then Ok([])
    else
      match NumberOrObject(es[0])
      case Err(e) => Err(e)
      case Ok(x) =>
        match CoerceAll(es[1..])
        case Err(e) =>
          assert forall i :: 1 <= i < |es| ==> es[1..][i - 1] == es[i];
          Err(e)
        case Ok(xs) =>
          assert forall i :: 1 <= i < |es| ==> es[1..][i - 1] == es[i];
          Ok([x] + xs)
  }

  /** The methods whose single argument must be numeric. */
  predicate ScalarRule(name: string)
  {
    name == "blur" || name == "rotate"
  }

  /** The methods whose array argument is coerced element by element. */
  predicate ListRule(name: string)
  {
    name == "sharpen" || name == "resize"
  }

  /** enforceTypes: the per-method coercion policy. */
  function EnforceTypes(name: string, v: Value): (r: Result<Value, Failure>)
    ensures ScalarRule(name) ==> r == NumberOrObject(v)
    ensures ListRule(name) && v.Arr? ==>
      && (r.Ok? <==> forall i :: 0 <= i < |v.elems| ==> ToNumber(v.elems[i]).Some?)
      && (r.Ok? ==> r.value.Arr? && |r.value.elems| == |v.elems| &&
                    forall i :: 0 <= i < |v.elems| ==> NumberOrObject(v.elems[i]) == Ok(r.value.elems[i]))
      && (r.Err? ==> exists i :: 0 <= i < |v.elems| && ToNumber(v.elems[i]).None? && r.error == NotANumber(v.elems[i]) &&
                                 forall j :: 0 <= j < i ==> ToNumber(v.elems[j]).Some?)
    ensures !ScalarRule(name) && !(ListRule(name) && v.Arr?) ==> r == Ok(v)
    ensures r.Ok? ==> r.value.Arr? == v.Arr?
  {
    if ScalarRule(name) then NumberOrObject(v)
    else if ListRule(name) && v.Arr? then
      match CoerceAll(v.elems)
      case Ok(xs) => Ok(Arr(xs))
      case Err(e) => Err(e)
    else Ok(v)
  }

  lemma {:induction false} CoerceAllIdempotent(es: seq<Value>)
    requires CoerceAll(es).Ok?
    ensures CoerceAll(CoerceAll(es).value) == CoerceAll(es)
  {
    if es != [] {
      CoerceAllIdempotent(es[1..]);
    }
  }

  /** Coercing an already coerced argument changes nothing more. */
  lemma EnforceTypesIdempotent(name: string, v: Value)
    requires EnforceTypes(name, v).Ok?
    ensures EnforceTypes(name, EnforceTypes(name, v).value) == EnforceTypes(name, v)
  {
    if ListRule(name) && v.Arr? && !ScalarRule(name) {
      CoerceAllIdempotent(v.elems);
    }
  }
}
