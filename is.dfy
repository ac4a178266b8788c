/**
 * The type predicates of packages/is. Each JavaScript predicate returns a value
 * that callers only test for truthiness; here each returns that truthiness.
 */
module Is {
  import opened JsValues

  /** `undef`: null or undefined. */
  predicate Undef(v: Value) {
    v == Null || v == Undefined
  }

  /** `notUndef`, the exact complement of `undef`. */
  function NotUndef(v: Value): (r: bool)
    ensures r <==> !Undef(v)
    ensures r ==> !v.Null? && !v.Undefined?
  {
    v != Null && v != Undefined
  }

  predicate Func(v: Value) { TypeOf(v) == "function" }

  predicate String(v: Value) { TypeOf(v) == "string" }

  /** `Array.isArray`. */
  predicate Array(v: Value) { v.Arr? }

  /** `object`: a truthy non-array value whose `typeof` is 'object'. */
  function Object(v: Value): (r: bool)
    ensures r <==> v.Obj?
    ensures v.Arr? || v.Null? ==> !r
  {
    Truthy(v) && !Array(v) && TypeOf(v) == "object"
  }

  /** `promise`: anything with a callable `then`. */
  function Promise(v: Value): (r: bool)
    ensures r ==> v.Obj? || v.Func? || v.Arr?
    ensures r <==> Truthy(v) && Get(v, "then").Func?
  {
    Truthy(v) && Func(Get(v, "then"))
  }

  /** `iterator`: callable `next` and `throw`. */
  function Iterator(v: Value): (r: bool)
    ensures r ==> v.Obj? || v.Func? || v.Arr?
    ensures r ==> Get(v, "next").Func? && Get(v, "throw").Func?
  {
    Truthy(v) && Func(Get(v, "next")) && Func(Get(v, "throw"))
  }

  /** `task`: carries a truthy TASK marker. */
  function Task(v: Value): (r: bool)
    ensures r ==> v.Obj? || v.Func? || v.Arr?
    ensures r <==> (v.Obj? || v.Func? || v.Arr?) && Truthy(Get(v, TASK))
  {
    Truthy(v) && Truthy(Get(v, TASK))
  }

  /** `buffer`: callable `isEmpty`, `take` and `put`. */
  function Buffer(v: Value): (r: bool)
    ensures r ==> v.Obj? || v.Func? || v.Arr?
    ensures r ==> Get(v, "isEmpty").Func? && Get(v, "take").Func? && Get(v, "put").Func?
  {
    Truthy(v) && Func(Get(v, "isEmpty")) && Func(Get(v, "take")) && Func(Get(v, "put"))
  }

  /** `symbol`. */
  predicate Symbol(v: Value) { v.Sym? }

  /** `pattern`: a truthy string, a symbol, a function, or an array all of whose
      elements are patterns (checked with `every`). */
  function Pattern(v: Value): (r: bool)
    ensures r ==> v.Str? || v.Sym? || v.Func? || v.Arr?
    ensures v.Str? ==> (r <==> v.s != "")
    ensures v.Sym? || v.Func? ==> r
    decreases v, 1
  {
    Truthy(v) && (String(v) || Symbol(v) || Func(v) || (Array(v) && Every(v.elems)))
  }

  /** `elems.every(pattern)`, stopping at the first element that is not a pattern. */
  function Every(elems: seq<Value>): bool
    decreases elems, 0
  {
    if elems == [] then true
    else Pattern(elems[0]) && Every(elems[1..])
  }

  /** `channel`: callable `take` and `close`. */
  function Channel(v: Value): (r: bool)
    ensures r ==> v.Obj? || v.Func? || v.Arr?
    ensures r ==> Get(v, "take").Func? && Get(v, "close").Func?
  {
    Truthy(v) && Func(Get(v, "take")) && Func(Get(v, "close"))
  }

  /** `stringableFunc`: a function with an own `toString`. */
  function StringableFunc(v: Value): (r: bool)
    ensures r ==> v.Func?
    ensures r <==> v.Func? && v.ownToString.Some?
  {
    Func(v) && v.ownToString.Some?
  }

  /** `multicast`: a channel carrying a truthy MULTICAST marker. */
  function Multicast(v: Value): (r: bool)
    ensures r ==> Channel(v)
  {
    Channel(v) && Truthy(Get(v, MULTICAST))
  }

  /** `effect`: carries a truthy IO marker. */
  function Effect(v: Value): (r: bool)
    ensures r ==> v.Obj? || v.Func? || v.Arr?
    ensures r <==> (v.Obj? || v.Func? || v.Arr?) && Truthy(Get(v, IO))
  {
    Truthy(v) && Truthy(Get(v, IO))
  }

  /** An array is a pattern exactly when every element is one; in particular the
      empty array is a pattern. */
  lemma {:induction false} ArrayPattern(elems: seq<Value>)
    ensures Pattern(Arr(elems)) <==> forall i :: 0 <= i < |elems| ==> Pattern(elems[i])
  {
    EveryAll(elems);
  }

  lemma {:induction false} EveryAll(elems: seq<Value>)
    ensures Every(elems) <==> forall i :: 0 <= i < |elems| ==> Pattern(elems[i])
    decreases elems
  {
    if elems != [] {
      EveryAll(elems[1..]);
      assert forall i :: 1 <= i < |elems| ==> elems[i] == elems[1..][i - 1];
    }
  }
}
