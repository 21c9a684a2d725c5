/**
 * Handler values and the registration-time signature check (inspectHandler):
 * a handler must be a func taking context.Context and at most one further
 * exported or builtin parameter, and returning an exported or builtin result
 * followed by error.
 */
module Handlers {
  import opened Wrappers
  import opened GoTypes
  import opened Protocol

  /** The request's context.Context; the core only passes it through. */
  datatype Context = Context(id: nat)

  /** The arguments a handler is called with: the context and, for a two-argument handler, the decoded parameter. */
  datatype Args<V> = Args(ctx: Context, param: Option<V>)

  /** The handler's second return value: nil, a *Error, or any other error (reduced to its Error() text). */
  datatype ErrValue = NoError | RpcError(err: Error) | OtherError(text: string)

  /** The two values a handler returns. */
  datatype Ret<V> = Ret(result: V, err: ErrValue)

  /**
   * The interface{} value passed to HandleFunc: nil, or a value of some type.
   * When the type is a func type, `call` is what calling it returns.
   */
  datatype HandlerValue<!V> =
    | NilHandler
    | Handler(ty: Ty, call: Args<V> -> Ret<V>)

  /** A Go call that either returns or panics. */
  datatype Outcome<T> = Returned(value: T) | Panicked

  /** Why a handler was refused; each carries what the source's message reports. */
  datatype Reason =
    | NotFunc(kind: Kind)
    | BadArgCount(gotArgs: nat)
    | BadFirstArg(gotFirst: Ty)
    | BadSecondArg
    | BadReturnCount(gotReturns: nat)
    | BadFirstReturn
    | BadSecondReturn(gotSecond: Ty)

  /** inspectHandler's results: numArgs, ptype (unset for one argument) and rtype, or an error. */
  datatype Inspection =
    | Accepted(numArgs: nat, ptype: Option<Ty>, rtype: Ty)
    | Rejected(reason: Reason)

  /** The handler contract, stated as one conjunction of rules. */
  predicate ValidHandlerType(t: Ty) {
    && t.FuncType?
    && (|t.ins| == 1 || |t.ins| == 2)
    && t.ins[0] == ContextType
    && (|t.ins| == 2 ==> ExportedOrBuiltin(t.ins[1]))
    && |t.outs| == 2
    && ExportedOrBuiltin(t.outs[0])
    && t.outs[1] == ErrorType
  }

  /** A reported reason is true of the type it was reported for. */
  predicate Violates(t: Ty, reason: Reason) {
    match reason
    case NotFunc(k) => !t.FuncType? && k == KindOf(t)
    case BadArgCount(n) => t.FuncType? && n == |t.ins| && n != 1 && n != 2
    case BadFirstArg(a) => t.FuncType? && 0 < |t.ins| && a == t.ins[0] && a != ContextType
    case BadSecondArg => t.FuncType? && |t.ins| == 2 && !ExportedOrBuiltin(t.ins[1])
    case BadReturnCount(n) => t.FuncType? && n == |t.outs| && n != 2
    case BadFirstReturn => t.FuncType? && 0 < |t.outs| && !ExportedOrBuiltin(t.outs[0])
    case BadSecondReturn(e) => t.FuncType? && 1 < |t.outs| && e == t.outs[1] && e != ErrorType
  }

  /**
   * The checks of inspectHandler after the handler's type is known, in the
   * source's order: kind, arity, context, parameter, result count, result,
   * error.
   */
  function InspectType(t: Ty): (r: Inspection)
    ensures r.Accepted? <==> ValidHandlerType(t)
    ensures r.Accepted? ==> r.numArgs == |t.ins| && r.rtype == t.outs[0]
    ensures r.Accepted? && r.numArgs == 2 ==> r.ptype == Some(t.ins[1])
    ensures r.Accepted? && r.numArgs == 1 ==> r.ptype == None
    ensures r.Rejected? ==> Violates(t, r.reason)
  {
    if !t.FuncType? then Rejected(NotFunc(KindOf(t)))
    else if |t.ins| != 2 && |t.ins| != 1 then Rejected(BadArgCount(|t.ins|))
    else if t.ins[0] != ContextType then Rejected(BadFirstArg(t.ins[0]))
    else if |t.ins| == 2 && !ExportedOrBuiltin(t.ins[1]) then Rejected(BadSecondArg)
    else if |t.outs| != 2 then Rejected(BadReturnCount(|t.outs|))
    else if !ExportedOrBuiltin(t.outs[0]) then Rejected(BadFirstReturn)
    else if t.outs[1] != ErrorType then Rejected(BadSecondReturn(t.outs[1]))
    else Accepted(|t.ins|, if |t.ins| == 2 then Some(t.ins[1]) else None, t.outs[0])
  }

  /** reflect.Value.Kind: Invalid for the zero Value that a nil interface{} gives. */
  function KindOfValue<V>(h: HandlerValue<V>): (k: Kind)
    ensures k == Invalid <==> h.NilHandler?
  {
    match h
    case NilHandler => Invalid
    case Handler(t, _) => KindOf(t)
  }

  /**
   * inspectHandler as written: `h.Type()` is evaluated before the kind check,
   * and reflect.Value.Type panics on the zero Value.
   */
  function InspectHandlerAsWritten<V>(h: HandlerValue<V>): (r: Outcome<Inspection>)
    ensures r.Panicked? <==> h.NilHandler?
  {
    match h
    case NilHandler => Panicked
    case Handler(t, _) => Returned(InspectType(t))
  }

  /** registering nil panics instead of failing with the "expected func" error. */
  lemma NilHandlerPanics<V>(h: HandlerValue<V>)
    requires h.NilHandler?
    ensures InspectHandlerAsWritten(h) == Panicked
    ensures InspectHandler(h) == Rejected(NotFunc(Invalid))
  {
  }

  /**
   * inspectHandler with the kind checked first, so that every value that is
   * not a func, nil included, is refused with an error.
   */
  function InspectHandler<V>(h: HandlerValue<V>): (r: Inspection)
    ensures r.Accepted? <==> h.Handler? && ValidHandlerType(h.ty)
    ensures h.NilHandler? ==> r == Rejected(NotFunc(Invalid))
    ensures h.Handler? ==> InspectHandlerAsWritten(h) == Returned(r)
  {
    if KindOfValue(h) != Func then Rejected(NotFunc(KindOfValue(h)))
    else InspectType(h.ty)
  }

  /** handlerType: what the registry stores for a method. */
  datatype Descriptor<!V> = Descriptor(f: HandlerValue<V>, ptype: Option<Ty>, rtype: Ty, numArgs: nat)

  /** The descriptor HandleFunc builds from an accepted handler. */
  function DescriptorFor<V>(h: HandlerValue<V>): (d: Descriptor<V>)
    requires InspectHandler(h).Accepted?
    ensures d.f == h && InspectHandler(h) == Accepted(d.numArgs, d.ptype, d.rtype)
  {
    var a := InspectHandler(h);
    Descriptor(h, a.ptype, a.rtype, a.numArgs)
  }

  /** The descriptor records exactly the verdict of the signature check on its own handler. */
  predicate Registered<V>(d: Descriptor<V>) {
    InspectHandler(d.f) == Accepted(d.numArgs, d.ptype, d.rtype)
  }

  /** What callMethod relies on in a stored descriptor. */
  lemma RegisteredShape<V>(d: Descriptor<V>)
    requires Registered(d)
    ensures d.f.Handler? && ValidHandlerType(d.f.ty)
    ensures d.numArgs == 1 || d.numArgs == 2
    ensures d.numArgs == 2 <==> d.ptype.Some?
    ensures d.ptype.Some? ==> d.ptype.value == d.f.ty.ins[1] && ExportedOrBuiltin(d.ptype.value)
    ensures ExportedOrBuiltin(d.rtype) && d.rtype == d.f.ty.outs[0]
  {
  }
}
