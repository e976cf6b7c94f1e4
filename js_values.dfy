/**
 * The slice of JavaScript value semantics that the chat route relies on:
 * the values a parsed JSON request body (or a thrown error's properties)
 * can hold, property reads on them, and truthiness (`!x`, `x || d`).
 */
module JsValues {

  /**
   * A JavaScript value. Numbers are integers here: fractions, NaN and
   * BigInt play no part in the route's decisions.
   */
  datatype JsValue =
    | Undefined
    | Null
    | Bool(b: bool)
    | Number(n: int)
    | Str(s: string)
    | Array(items: seq<JsValue>)
    | Object(props: map<string, JsValue>)

  /** JavaScript's ToBoolean: what `if (x)` and `!x` test. */
  predicate Truthy(v: JsValue) {
    match v
    case Undefined => false
    case Null => false
    case Bool(b) => b
    case Number(n) => n != 0
    case Str(s) => s != ""
    case Array(_) => true
    case Object(_) => true
  }

  /** A value that object destructuring (`const { a, b } = v`) accepts: anything but null and undefined. */
  type Destructurable = v: JsValue | !v.Null? && !v.Undefined? witness Object(map[])

  /** The read `v.key` of a data property. */
  function Get(v: Destructurable, key: string): JsValue
  {
    if v.Object? && key in v.props then v.props[key] else Undefined
  }

  /** The expression `x || d`. */
  function Or(x: JsValue, d: JsValue): JsValue {
    if Truthy(x) then x else d
  }

  /** `t` occurs in `s` starting at index `i`. */
  predicate OccursAt(s: string, t: string, i: int) {
    0 <= i && i + |t| <= |s| && s[i..i + |t|] == t
  }

  /** `s.includes(t)` for strings. */
  predicate Contains(s: string, t: string) {
    exists i | 0 <= i <= |s| - |t| :: OccursAt(s, t, i)
  }

  /** Whatever sits between a prefix and a suffix occurs in the whole. */
  lemma {:induction false} ContainsMiddle(a: string, t: string, b: string)
    ensures Contains(a + t + b, t)
  {
    var s := a + t + b;
    assert s[|a|..|a| + |t|] == t;
    assert OccursAt(s, t, |a|);
  }
}
