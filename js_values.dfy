/**
 * JavaScript values, as far as the saga interpreter looks at them.
 *
 * Objects and functions carry their own properties only (no prototype chain).
 * The library's symbol-valued keys and sentinels are `@@redux-saga/...` strings.
 */
module JsValues {

  datatype Option<T> = None | Some(value: T)

  /** A JavaScript value. A function value has an identity, its `name`, its source
      text (what `Function.prototype.toString` prints), the result of an own
      `toString` method if it defines one, and its other own properties. An
      own `toString` is recorded only in `ownToString`: `props` never holds the
      key "toString". */
  datatype Value =
    | Undefined
    | Null
    | Bool(b: bool)
    | Str(s: string)
    | Sym(description: string)
    | Func(id: nat, name: string, source: string, ownToString: Option<string>, props: map<string, Value>)
    | Arr(elems: seq<Value>)
    | Obj(props: map<string, Value>)

  // Property keys and sentinels of the library
  const IO: string := "@@redux-saga/IO"
  const TASK: string := "@@redux-saga/TASK"
  const MULTICAST: string := "@@redux-saga/MULTICAST"
  const TASK_CANCEL: Value := Str("@@redux-saga/TASK_CANCEL")
  const TERMINATE: Value := Str("@@redux-saga/TERMINATE")
  const SELF_CANCELLATION: Value := Str("@@redux-saga/SELF_CANCELLATION")

  /** JavaScript truthiness: `undefined`, `null`, `false` and `''` are falsy. */
  predicate Truthy(v: Value) {
    !(v.Undefined? || v.Null? || v == Bool(false) || v == Str(""))
  }

  /** The `typeof` operator. */
  function TypeOf(v: Value): string {
    match v
    case Undefined => "undefined"
    case Null => "object"
    case Bool(_) => "boolean"
    case Str(_) => "string"
    case Sym(_) => "symbol"
    case Func(_, _, _, _, _) => "function"
    case Arr(_) => "object"
    case Obj(_) => "object"
  }

  /** Own-property read `v[key]`; a missing property reads as `undefined`. A
      function's `name` is an own property unless shadowed. */
  function Get(v: Value, key: string): Value {
    match v
    case Obj(props) => if key in props then props[key] else Undefined
    case Func(_, name, _, _, props) =>
      if key in props then props[key] else if key == "name" then Str(name) else Undefined
    case Arr(elems) => ArrayIndex(elems, key)
    case _ => Undefined
  }

  /** Reading an array at "0", "1", ...: only the indices the interpreter
      destructures (`[context, fn]`) are resolved. */
  function ArrayIndex(elems: seq<Value>, key: string): Value {
    if key == "0" && |elems| > 0 then elems[0]
    else if key == "1" && |elems| > 1 then elems[1]
    else Undefined
  }

  /** `{ ...v }`: the own enumerable properties of an object. Other values
      contribute nothing here; JavaScript would copy an array's or a string's
      indices, which no spread in the modelled core meets (FORK payloads and
      context objects are plain objects). */
  function Spread(v: Value): map<string, Value> {
    if v.Obj? then v.props else map[]
  }

  /** The abstract operation ToString, which template literals and `join`
      apply: it throws a TypeError (`None`) for a symbol. A function prints its
      own `toString`'s text, or its source. */
  function ToStr(v: Value): Option<string>
    decreases v, 1
  {
    match v
    case Undefined => Some("undefined")
    case Null => Some("null")
    case Bool(b) => Some(if b then "true" else "false")
    case Str(s) => Some(s)
    case Sym(_) => None
    case Func(_, _, source, own, _) => Some(if own.Some? then own.value else source)
    case Arr(elems) => JoinElements(elems)
    case Obj(_) => Some("[object Object]")
  }

  /** `String(v)`: ToString, except that a symbol is described rather than
      rejected. */
  function ToJsString(v: Value): Option<string> {
    if v.Sym? then Some("Symbol(" + v.description + ")") else ToStr(v)
  }

  /** `Array.prototype.join` with ",": `null` and `undefined` elements print
      as '', every other element goes through ToString. */
  function JoinElements(elems: seq<Value>): Option<string>
    decreases elems, 0
  {
    if elems == [] then Some("")
    else
      var head := if elems[0].Undefined? || elems[0].Null? then Some("") else ToStr(elems[0]);
      if head.None? || |elems| == 1 then head
      else
        var tail := JoinElements(elems[1..]);
        if tail.None? then None else Some(head.value + "," + tail.value)
  }

  /** Some element of the array, or of an array nested in it at any depth, is
      a symbol. */
  predicate HoldsSymbol(elems: seq<Value>)
    decreases elems
  {
    && elems != []
    && (|| elems[0].Sym?
        || (elems[0].Arr? && HoldsSymbol(elems[0].elems))
        || HoldsSymbol(elems[1..]))
  }

  /** Joining an array fails exactly when it holds a symbol at some depth. */
  lemma {:induction false} JoinFailsOnSymbols(elems: seq<Value>)
    ensures JoinElements(elems).None? <==> HoldsSymbol(elems)
    decreases elems
  {
    if elems != [] {
      if elems[0].Arr? {
        JoinFailsOnSymbols(elems[0].elems);
      }
      JoinFailsOnSymbols(elems[1..]);
    }
  }
}
