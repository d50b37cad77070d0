/** JavaScript value semantics the plugin relies on: `undefined`, truthiness,
    the `||` operator and `String(undefined)`. */
module Js {

  /** A value that may be JavaScript `undefined` (None). */
  datatype Option<+T> = None | Some(value: T) {
    function GetOr(default: T): T {
      match this
      case Some(v) => v
      case None => default
    }
  }

  /** Truthiness of a string that may be undefined: only a non-empty string is truthy. */
  predicate TruthyStr(s: Option<string>) {
    s.Some? && s.value != ""
  }

  /** Truthiness of a (finite, integral) number that may be undefined: 0 is falsy. */
  predicate TruthyNum(n: Option<int>) {
    n.Some? && n.value != 0
  }

  /** `a || b` on strings that may be undefined. */
  function OrStr(a: Option<string>, b: Option<string>): (r: Option<string>)
    ensures TruthyStr(r) <==> TruthyStr(a) || TruthyStr(b)
    ensures TruthyStr(a) ==> r == a
  {
    if TruthyStr(a) then a else b
  }

  /** `a || b` on numbers that may be undefined. */
  function OrNum(a: Option<int>, b: Option<int>): (r: Option<int>)
    ensures TruthyNum(r) <==> TruthyNum(a) || TruthyNum(b)
    ensures TruthyNum(a) ==> r == a
  {
    if TruthyNum(a) then a else b
  }

  /** `String(v)`, as string concatenation and `replace` apply it. */
  function ToStr(s: Option<string>): (r: string)
    ensures s.Some? ==> r == s.value
    ensures s.None? ==> r == "undefined"
  {
    match s
    case Some(v) => v
    case None => "undefined"
  }

  /** The element at `i` of an array, `undefined` past its end (array destructuring). */
  function At<T>(a: seq<Option<T>>, i: nat): (r: Option<T>)
    ensures i < |a| ==> r == a[i]
    ensures i >= |a| ==> r == None
  {
    if i < |a| then a[i] else None
  }
}
