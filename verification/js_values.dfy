/**
 * The untyped JavaScript values the classifier and the parser look at.
 * Only the shape matters to them: which kind of value it is and, for
 * objects and functions, which own keys it carries. Prototype chains,
 * getters and the exotic object kinds (Date, Map, Set, Promise) are
 * collapsed into the plain kinds below.
 */
module JsValues {

  datatype JsValue =
    | Undefined
    | Null
    | Bool(b: bool)
    | Num(n: real)
    | Str(s: string)
    | Arr(items: seq<JsValue>)
    | Obj(props: map<string, JsValue>)
    | Func(props: map<string, JsValue>)
  {
    /** Objects and functions are the only values that carry own keys. */
    predicate HasProps() {
      Obj? || Func?
    }
  }

  /**
   * Property read `v?.key`: a missing key, and any key of a value that
   * carries no own keys (null, undefined, a primitive, an array), reads
   * as `undefined`.
   */
  function Get(v: JsValue, key: string): JsValue {
    if v.HasProps() && key in v.props then v.props[key] else Undefined
  }

  /** The `key in v` test of an object or function: the key is present, whatever its value. */
  predicate HasKey(v: JsValue, key: string)
    requires v.HasProps()
  {
    key in v.props
  }

  /**
   * What zod's parsed type calls "object": a plain object that is not a
   * thenable. An object whose `then` and `catch` are both functions is
   * taken for a promise instead.
   */
  predicate IsPlainObject(v: JsValue) {
    v.Obj? && !(Get(v, "then").Func? && Get(v, "catch").Func?)
  }

  /** JavaScript truthiness (`if (v)`, `v || w`, `v && w`). */
  predicate Truthy(v: JsValue) {
    match v
    case Undefined => false
    case Null => false
    case Bool(b) => b
    case Num(n) => n != 0.0
    case Str(s) => s != ""
    case Arr(_) => true
    case Obj(_) => true
    case Func(_) => true
  }

  /** `parts.join(sep)`. */
  function Join(parts: seq<string>, sep: string): (r: string)
    ensures |parts| == 0 ==> r == ""
    ensures |parts| == 1 ==> r == parts[0]
    ensures |parts| > 0 ==> parts[0] <= r
  {
    if |parts| == 0 then ""
    else if |parts| == 1 then parts[0]
    else parts[0] + sep + Join(parts[1..], sep)
  }

  /** Appending a part to a non-empty join adds the separator and the part. */
  lemma {:induction false} JoinAppend(parts: seq<string>, sep: string, last: string)
    requires |parts| > 0
    ensures Join(parts + [last], sep) == Join(parts, sep) + sep + last
    decreases |parts|
  {
    if |parts| > 1 {
      assert (parts + [last])[1..] == parts[1..] + [last];
      JoinAppend(parts[1..], sep, last);
    }
  }
}
