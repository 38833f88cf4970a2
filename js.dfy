// JavaScript values as the pricing functions see them: price lines, evaluation
// contexts and the objects they build are plain objects, modelled as maps from
// property names to values.

module Js {

  /** A JavaScript value. Numbers are exact reals (no NaN, no rounding);
      arrays are objects. */
  datatype Value =
    | Undefined
    | Null
    | Bool(b: bool)
    | Num(n: real)
    | Str(s: string)
    | Obj(fields: map<string, Value>)

  /** A plain object: its own enumerable properties. */
  type Object = map<string, Value>

  datatype Option<+T> = None | Some(value: T)

  /** The outcome of a call that may throw; `Thrown` stands for any exception. */
  datatype Outcome<+T> = Ok(value: T) | Thrown

  /** JavaScript truthiness: `undefined`, `null`, `false`, `0` and `''` are falsy. */
  predicate Truthy(v: Value) {
    match v
    case Undefined => false
    case Null => false
    case Bool(b) => b
    case Num(n) => n != 0.0
    case Str(s) => s != ""
    case Obj(_) => true
  }

  /** Property access `o.key`: a missing property reads as `undefined`. */
  function Get(o: Object, key: string): Value {
    if key in o then o[key] else Undefined
  }

  /** `o` is `base` after some of the keys in `written` were assigned: every
      other property of `base` is still there with its value, and no key
      outside `written` was added. */
  ghost predicate Overwrites(o: Object, base: Object, written: set<string>) {
    o.Keys <= base.Keys + written &&
    forall k :: k in base && k !in written ==> k in o && o[k] == base[k]
  }

  /** `o` is the spread `{ ...base, k1: v1, ... }` with the keys `added`:
      all of `base` copied, the added keys present, nothing else. */
  ghost predicate Extends(o: Object, base: Object, added: set<string>) {
    Overwrites(o, base, added) && added <= o.Keys
  }

  /** `out` is an order-preserving subsequence of `src`, each kept element
      extended by the keys `added`. */
  ghost predicate InOrderSubsequence(out: seq<Object>, src: seq<Object>, added: set<string>)
    decreases |src|
  {
    if out == [] then true
    else if src == [] then false
    else
      (Extends(out[|out| - 1], src[|src| - 1], added) &&
       InOrderSubsequence(out[..|out| - 1], src[..|src| - 1], added)) ||
      InOrderSubsequence(out, src[..|src| - 1], added)
  }

  /** A subsequence is never longer than the sequence it is drawn from. */
  lemma {:induction false} InOrderSubsequenceLength(out: seq<Object>, src: seq<Object>, added: set<string>)
    requires InOrderSubsequence(out, src, added)
    ensures |out| <= |src|
    decreases |src|
  {
    if out != [] {
      if Extends(out[|out| - 1], src[|src| - 1], added) &&
         InOrderSubsequence(out[..|out| - 1], src[..|src| - 1], added) {
        InOrderSubsequenceLength(out[..|out| - 1], src[..|src| - 1], added);
      } else {
        InOrderSubsequenceLength(out, src[..|src| - 1], added);
      }
    }
  }
}
