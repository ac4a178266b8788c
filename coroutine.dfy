/**
 * The iterator protocol of section 27.1 of ECMA-262 as the saga driver uses
 * it: a generator is resumed with `next(v)`, `throw(e)` or, when it has one,
 * `return(v)`; each resumption either produces `{ done, value }` or raises.
 *
 * A generator's code is not modelled: its behaviour is a function from the
 * resumptions it has received so far and the new one to what it does.
 */
module Coroutines {
  import opened JsValues

  datatype Resumption = Next(arg: Value) | Throw(error: Value) | Return(value: Option<Value>)

  /** `{ done, value }`. */
  datatype IterResult = IterResult(done: bool, value: Value)

  /** What one resumption does: a result, or an exception. */
  datatype StepOutcome = Normal(result: IterResult) | Raised(error: Value)

  class Coroutine {
    /** Whether the iterator has a callable `return` method. */
    const hasReturn: bool
    /** The generator's behaviour. */
    const react: (seq<Resumption>, Resumption) -> StepOutcome
    /** The resumptions received so far. */
    var log: seq<Resumption>

    constructor (react: (seq<Resumption>, Resumption) -> StepOutcome, hasReturn: bool)
      ensures this.react == react && this.hasReturn == hasReturn && log == []
    {
      this.react := react;
      this.hasReturn := hasReturn;
      log := [];
    }

    /** Resume the generator; `return` can only be called when it exists. */
    method Resume(r: Resumption) returns (o: StepOutcome)
      requires r.Return? ==> hasReturn
      modifies this`log
      ensures o == react(old(log), r) && log == old(log) + [r]
    {
      o := react(log, r);
      log := log + [r];
    }
  }
}
