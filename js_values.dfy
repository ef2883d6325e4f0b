/** Values of the JavaScript world the rest of the model talks about:
    optional (null/undefined) values, the three ways an expression can end
    (giving `undefined`, giving a value, throwing), and truthiness of
    optional strings. */
module JsValues {

  /** A value that may be `null` or `undefined` (None). */
  datatype Option<+T> = None | Some(value: T)

  /** The outcome of evaluating a JavaScript function that may `return;`
      without a value, return a value, or throw a TypeError. */
  datatype Eval<+T> = Undefined | Value(value: T) | Thrown

  /** `!!s` for an optional string: absent and the empty string are falsy. */
  predicate Truthy(s: Option<string>)
  {
    s.Some? && s.value != ""
  }

  /** The first index whose element has key `k`, as `Array.prototype.find`
      and `findIndex` locate it. */
  function Find<T>(xs: seq<T>, key: T -> string, k: string): (r: Option<nat>)
    ensures r.Some? ==> r.value < |xs| && key(xs[r.value]) == k
    ensures r.Some? ==> forall j :: 0 <= j < r.value ==> key(xs[j]) != k
    ensures r.None? <==> forall j :: 0 <= j < |xs| ==> key(xs[j]) != k
    decreases |xs|
  {
    if xs == [] then None
    else if key(xs[0]) == k then Some(0)
    else match Find(xs[1..], key, k)
      case None => None
      case Some(j) => Some(j + 1)
  }
}
