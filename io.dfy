/**
 * The effect constructors of packages/core/src/internal/io.js.
 *
 * An effect is a plain object `{[IO]: true, combinator, type, payload}`. The
 * constructors only build fresh records; the development-mode argument checks
 * and warnings are not modelled, so each constructor is the production build's.
 * Where the JavaScript code throws a TypeError (destructuring `null`, writing a
 * property of `undefined`) the constructor returns `None`.
 */
module Io {
  import opened JsValues
  import Is

  // effect types
  const TAKE := "TAKE"
  const PUT := "PUT"
  const ALL := "ALL"
  const RACE := "RACE"
  const CALL := "CALL"
  const CPS := "CPS"
  const FORK := "FORK"
  const JOIN := "JOIN"
  const CANCEL := "CANCEL"
  const SELECT := "SELECT"
  const ACTION_CHANNEL := "ACTION_CHANNEL"
  const CANCELLED := "CANCELLED"
  const FLUSH := "FLUSH"
  const GET_CONTEXT := "GET_CONTEXT"
  const SET_CONTEXT := "SET_CONTEXT"

  /** The `identity` helper, the default selector of `select`. */
  const IDENTITY: Value := Func(0, "identity", "v => v", None, map[])
  /** The `delayP` function of the delay package, bound by `delay`. */
  const DELAY_P: Value := Func(1, "delayP", "function delayP(ms, val) { ... }", None, map[])

  /** The `type` of an effect. */
  function TypeOfEffect(e: Value): Value { Get(e, "type") }

  /** The `payload` of an effect. */
  function Payload(e: Value): Value { Get(e, "payload") }

  /** True when the `combinator` flag of an effect is set. */
  predicate Combinator(e: Value) { Get(e, "combinator") == Bool(true) }

  /** An IO effect of the given type. */
  predicate EffectOfType(e: Value, kind: string) {
    Is.Effect(e) && TypeOfEffect(e) == Str(kind)
  }

  /** `makeEffect(type, payload)`. */
  function MakeEffect(kind: string, payload: Value): (e: Value)
    ensures EffectOfType(e, kind) && !Combinator(e)
    ensures Payload(e) == payload
  {
    Obj(map[IO := Bool(true), "combinator" := Bool(false), "type" := Str(kind), "payload" := payload])
  }

  /** `eff.payload[key] = v` on a just-built effect whose payload is an object. */
  function SetPayloadField(e: Value, key: string, v: Value): (r: Value)
    requires e.Obj? && Payload(e).Obj?
    ensures r.Obj? && Payload(r).Obj? && Get(Payload(r), key) == v
    ensures forall k :: k != "payload" ==> Get(r, k) == Get(e, k)
    ensures forall k :: k != key ==> Get(Payload(r), k) == Get(Payload(e), k)
  {
    Obj(e.props["payload" := Obj(Payload(e).props[key := v])])
  }

  /** `detach(eff)`: a FORK effect whose payload is a copy of `eff`'s payload
      with `detached: true`. Reading `eff.payload` throws for `null` and
      `undefined`. */
  function Detach(eff: Value): (r: Option<Value>)
    ensures r.None? <==> Is.Undef(eff)
    ensures r.Some? ==>
      && EffectOfType(r.value, FORK) && !Combinator(r.value)
      && Get(Payload(r.value), "detached") == Bool(true)
      && (Payload(eff).Obj? ==>
            forall k :: k != "detached" ==> Get(Payload(r.value), k) == Get(Payload(eff), k))
  {
    if Is.Undef(eff) then None
    else Some(MakeEffect(FORK, Obj(Spread(Payload(eff))["detached" := Bool(true)])))
  }

  /** The default argument `'*'` of `take`. */
  function TakeArgument(patternOrChannel: Value): Value {
    if patternOrChannel == Undefined then Str("*") else patternOrChannel
  }

  /** `take(patternOrChannel = '*', multicastPattern)`: a pattern is taken from
      the store, a multicast channel with a pattern is filtered by that pattern,
      any other channel is taken from as it is; anything else is `undefined`. */
  function Take(patternOrChannel: Value, multicastPattern: Value): (r: Value)
    ensures var p := TakeArgument(patternOrChannel);
      && (Is.Effect(r) <==> Is.Pattern(p) || Is.Channel(p))
      && (!Is.Effect(r) ==> r == Undefined)
      && (Is.Effect(r) ==> EffectOfType(r, TAKE) && !Combinator(r) && Payload(r).Obj?)
      && (Is.Pattern(p) ==> Get(Payload(r), "pattern") == p && Get(Payload(r), "channel") == Undefined)
      && (!Is.Pattern(p) && Is.Channel(p) ==>
            && Get(Payload(r), "channel") == p
            && Get(Payload(r), "pattern") ==
                 (if Is.Multicast(p) && Is.Pattern(multicastPattern) then multicastPattern else Undefined))
  {
    var p := TakeArgument(patternOrChannel);
    if Is.Pattern(p) then
      MakeEffect(TAKE, Obj(map["pattern" := p]))
    else if Is.Multicast(p) && Is.NotUndef(multicastPattern) && Is.Pattern(multicastPattern) then
      MakeEffect(TAKE, Obj(map["channel" := p, "pattern" := multicastPattern]))
    else if Is.Channel(p) then
      MakeEffect(TAKE, Obj(map["channel" := p]))
    else
      Undefined
  }

  /** `takeMaybe(...args)`: `take` with `payload.maybe = true`; setting the flag on
      an `undefined` result throws. */
  function TakeMaybe(patternOrChannel: Value, multicastPattern: Value): (r: Option<Value>)
    ensures var t := Take(patternOrChannel, multicastPattern);
      && (r.Some? <==> Is.Effect(t))
      && (r.Some? ==>
            && EffectOfType(r.value, TAKE) && !Combinator(r.value)
            && Get(Payload(r.value), "maybe") == Bool(true)
            && forall k :: k != "maybe" ==> Get(Payload(r.value), k) == Get(Payload(t), k))
  {
    var t := Take(patternOrChannel, multicastPattern);
    if t == Undefined then None else Some(SetPayloadField(t, "maybe", Bool(true)))
  }

  /** `put(channel, action)`: with an undefined (or null) action the single
      argument is the action and the channel is `undefined`. */
  function Put(channel: Value, action: Value): (r: Value)
    ensures EffectOfType(r, PUT) && !Combinator(r) && Payload(r).Obj?
    ensures Get(Payload(r), "action") == (if Is.Undef(action) then channel else action)
    ensures Get(Payload(r), "channel") == (if Is.Undef(action) then Undefined else channel)
  {
    var ch, act := if Is.Undef(action) then Undefined else channel, if Is.Undef(action) then channel else action;
    MakeEffect(PUT, Obj(map["channel" := ch, "action" := act]))
  }

  /** Called with only an action, `put` builds the same effect as `put(undefined, action)`. */
  lemma PutActionOnly(action: Value)
    requires !Is.Undef(action)
    ensures Put(action, Undefined) == Put(Undefined, action)
  {
  }

  /** `putResolve(...args)`: `put` with `payload.resolve = true`. */
  function PutResolve(channel: Value, action: Value): (r: Value)
    ensures EffectOfType(r, PUT) && !Combinator(r)
    ensures Get(Payload(r), "resolve") == Bool(true)
    ensures forall k :: k != "resolve" ==> Get(Payload(r), k) == Get(Payload(Put(channel, action)), k)
  {
    SetPayloadField(Put(channel, action), "resolve", Bool(true))
  }

  /** `all(effects)`: one of the two constructors that set `combinator`. */
  function All(effects: Value): (r: Value)
    ensures EffectOfType(r, ALL) && Combinator(r) && Payload(r) == effects
  {
    Obj(MakeEffect(ALL, effects).props["combinator" := Bool(true)])
  }

  /** `race(effects)`: the other constructor that sets `combinator`. */
  function Race(effects: Value): (r: Value)
    ensures EffectOfType(r, RACE) && Combinator(r) && Payload(r) == effects
  {
    Obj(MakeEffect(RACE, effects).props["combinator" := Bool(true)])
  }

  /** The `{context, fn, args}` record. */
  function Descriptor(context: Value, fn: Value, args: Value): Value {
    Obj(map["context" := context, "fn" := fn, "args" := args])
  }

  /** The `context` and `fn` unpacked from a non-function descriptor: `[context, fn]`
      from an array, `{context, fn}` from anything else. */
  function Unpack(fnDescriptor: Value): (Value, Value) {
    if Is.Array(fnDescriptor) then (Get(fnDescriptor, "0"), Get(fnDescriptor, "1"))
    else (Get(fnDescriptor, "context"), Get(fnDescriptor, "fn"))
  }

  /** `getFnCallDescriptor(fnDescriptor, args)`. A function is called with a
      `null` context; `[context, fn]` and `{context, fn}` are unpacked, and a string
      `fn` naming a method of a truthy context resolves to that method.
      Destructuring `null` or `undefined` throws. */
  function GetFnCallDescriptor(fnDescriptor: Value, args: Value): (r: Option<Value>)
    ensures r.None? <==> Is.Undef(fnDescriptor)
    ensures r.Some? ==> Get(r.value, "args") == args
    ensures Is.Func(fnDescriptor) ==> r == Some(Descriptor(Null, fnDescriptor, args))
    ensures r.Some? && !Is.Func(fnDescriptor) ==>
      var (context, fn) := Unpack(fnDescriptor);
      && Get(r.value, "context") == context
      && Get(r.value, "fn") ==
           (if Truthy(context) && fn.Str? && Get(context, fn.s).Func? then Get(context, fn.s) else fn)
  {
    if Is.Func(fnDescriptor) then
      Some(Descriptor(Null, fnDescriptor, args))
    else if Is.Undef(fnDescriptor) then
      None
    else
      var (context, fn) := Unpack(fnDescriptor);
      var resolved := if Truthy(context) && Is.String(fn) && Is.Func(Get(context, fn.s)) then Get(context, fn.s) else fn;
      Some(Descriptor(context, resolved, args))
  }

  /** An effect of the given type over `getFnCallDescriptor(fnDescriptor, args)`. */
  function FnEffect(kind: string, fnDescriptor: Value, args: seq<Value>): (r: Option<Value>)
    ensures r.None? <==> Is.Undef(fnDescriptor)
    ensures r.Some? ==> EffectOfType(r.value, kind) && !Combinator(r.value)
    ensures r.Some? ==> Some(Payload(r.value)) == GetFnCallDescriptor(fnDescriptor, Arr(args))
  {
    var d := GetFnCallDescriptor(fnDescriptor, Arr(args));
    if d.None? then None else Some(MakeEffect(kind, d.value))
  }

  /** `call(fnDescriptor, ...args)`. */
  function Call(fnDescriptor: Value, args: seq<Value>): Option<Value> {
    FnEffect(CALL, fnDescriptor, args)
  }

  /** `apply(context, fn, args = [])`: a CALL effect on `[context, fn]`. */
  function Apply(context: Value, fn: Value, args: Value): (r: Value)
    ensures EffectOfType(r, CALL) && !Combinator(r)
    ensures var a := if args == Undefined then Arr([]) else args;
      Some(Payload(r)) == GetFnCallDescriptor(Arr([context, fn]), a)
  {
    var a := if args == Undefined then Arr([]) else args;
    MakeEffect(CALL, GetFnCallDescriptor(Arr([context, fn]), a).value)
  }

  /** Applying a method with an argument array builds the effect `call([context, fn], ...args)`
      builds. */
  lemma ApplyIsCall(context: Value, fn: Value, args: seq<Value>)
    ensures Call(Arr([context, fn]), args) == Some(Apply(context, fn, Arr(args)))
  {
  }

  /** `cps(fnDescriptor, ...args)`. */
  function Cps(fnDescriptor: Value, args: seq<Value>): Option<Value> {
    FnEffect(CPS, fnDescriptor, args)
  }

  /** `fork(fnDescriptor, ...args)`. */
  function Fork(fnDescriptor: Value, args: seq<Value>): Option<Value> {
    FnEffect(FORK, fnDescriptor, args)
  }

  /** `spawn(fnDescriptor, ...args)`: `detach(fork(...))`, a FORK effect whose
      payload is the fork's descriptor plus `detached: true`. */
  function Spawn(fnDescriptor: Value, args: seq<Value>): (r: Option<Value>)
    ensures r.None? <==> Is.Undef(fnDescriptor)
    ensures r.Some? ==>
      && EffectOfType(r.value, FORK) && !Combinator(r.value)
      && Get(Payload(r.value), "detached") == Bool(true)
      && forall k :: k != "detached" ==>
           Get(Payload(r.value), k) == Get(Payload(Fork(fnDescriptor, args).value), k)
  {
    var f := Fork(fnDescriptor, args);
    if f.None? then None else Detach(f.value)
  }

  /** `join(taskOrTasks)`. */
  function Join(taskOrTasks: Value): (r: Value)
    ensures EffectOfType(r, JOIN) && Payload(r) == taskOrTasks
  {
    MakeEffect(JOIN, taskOrTasks)
  }

  /** `cancel(taskOrTasks = SELF_CANCELLATION)`. */
  function Cancel(taskOrTasks: Value): (r: Value)
    ensures EffectOfType(r, CANCEL)
    ensures Payload(r) == if taskOrTasks == Undefined then SELF_CANCELLATION else taskOrTasks
  {
    MakeEffect(CANCEL, if taskOrTasks == Undefined then SELF_CANCELLATION else taskOrTasks)
  }

  /** `select(selector = identity, ...args)`. */
  function Select(selector: Value, args: seq<Value>): (r: Value)
    ensures EffectOfType(r, SELECT)
    ensures Get(Payload(r), "selector") == if selector == Undefined then IDENTITY else selector
    ensures Get(Payload(r), "args") == Arr(args)
  {
    MakeEffect(SELECT, Obj(map["selector" := if selector == Undefined then IDENTITY else selector, "args" := Arr(args)]))
  }

  /** `actionChannel(pattern, buffer)`. */
  function ActionChannel(pattern: Value, buffer: Value): (r: Value)
    ensures EffectOfType(r, ACTION_CHANNEL)
    ensures Get(Payload(r), "pattern") == pattern && Get(Payload(r), "buffer") == buffer
  {
    MakeEffect(ACTION_CHANNEL, Obj(map["pattern" := pattern, "buffer" := buffer]))
  }

  /** `cancelled()`. */
  function Cancelled(): (r: Value)
    ensures EffectOfType(r, CANCELLED) && Payload(r) == Obj(map[])
  {
    MakeEffect(CANCELLED, Obj(map[]))
  }

  /** `flush(channel)`. */
  function Flush(channel: Value): (r: Value)
    ensures EffectOfType(r, FLUSH) && Payload(r) == channel
  {
    MakeEffect(FLUSH, channel)
  }

  /** `getContext(prop)`. */
  function GetContext(prop: Value): (r: Value)
    ensures EffectOfType(r, GET_CONTEXT) && Payload(r) == prop
  {
    MakeEffect(GET_CONTEXT, prop)
  }

  /** `setContext(props)`. */
  function SetContext(props: Value): (r: Value)
    ensures EffectOfType(r, SET_CONTEXT) && Payload(r) == props
  {
    MakeEffect(SET_CONTEXT, props)
  }

  /** `delay(...args)`: `call(delayP, ...args)`. */
  function Delay(args: seq<Value>): (r: Value)
    ensures EffectOfType(r, CALL)
    ensures Get(Payload(r), "fn") == DELAY_P && Get(Payload(r), "context") == Null
    ensures Get(Payload(r), "args") == Arr(args)
  {
    Call(DELAY_P, args).value
  }
}
