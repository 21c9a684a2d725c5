/**
 * Calling a registered handler (callMethod) and turning what it returns into
 * a result or an error (encodeMethodReturn).  JSON decoding, zero values and
 * JSON encoding are the functions of a Codec.
 */
module Dispatch {
  import opened Wrappers
  import opened GoTypes
  import opened Protocol
  import opened Handlers

  /**
   * encoding/json and reflect as the dispatcher uses them: `unmarshal(p, t)`
   * decodes p into a fresh zero value of t (None when json.Unmarshal fails),
   * `zero(t)` is the zero value of t, `marshal(v)` is json.Marshal.
   */
  datatype Codec<!V> = Codec(unmarshal: (RawJson, Ty) -> Option<V>, zero: Ty -> V, marshal: V -> Option<RawJson>)

  /**
   * The type of the value that is allocated and decoded into: a pointer
   * parameter type's element, else the type itself.  At most one pointer
   * layer is dropped, so the destination strips to the same type and keeps
   * the exported-or-builtin verdict the parameter passed at registration.
   */
  function DestinationType(pt: Ty): (dt: Ty)
    ensures pt.Pointer? ==> dt == pt.elem && PointerDepth(dt) == PointerDepth(pt) - 1
    ensures !pt.Pointer? ==> dt == pt
    ensures StripPointers(dt) == StripPointers(pt)
    ensures ExportedOrBuiltin(dt) == ExportedOrBuiltin(pt)
  {
    if KindOf(pt) == Ptr then pt.elem else pt
  }

  /** callMethod's result: errServerInvalidParams, or the handler was called with `args` and returned `ret`. */
  datatype CallOutcome<V> = InvalidParams | Invoked(args: Args<V>, ret: Ret<V>)

  /** The reasons for which a two-argument handler's parameter is refused. */
  predicate ParamsRejected<V(==)>(params: Option<RawJson>, dt: Ty, codec: Codec<V>) {
    || params.None?
    || params.value == NullLiteral
    || codec.unmarshal(params.value, dt).None?
    || codec.unmarshal(params.value, dt).value == codec.zero(dt)
  }

  /**
   * callMethod.  A one-argument handler is called with the context alone and
   * the params are ignored.  A two-argument handler is called with the decoded
   * parameter, unless the params are absent, the literal null, undecodable, or
   * decode to the zero value, in which case it is not called at all.
   */
  function Call<V(==)>(ctx: Context, req: Request, d: Descriptor<V>, codec: Codec<V>): (r: CallOutcome<V>)
    requires Registered(d)
    ensures d.numArgs == 1 ==> r == Invoked(Args(ctx, None), d.f.call(Args(ctx, None)))
    ensures d.numArgs == 2 ==> (r.InvalidParams? <==> ParamsRejected(req.params, DestinationType(d.ptype.value), codec))
    ensures r.Invoked? ==> r.args.ctx == ctx && r.ret == d.f.call(r.args)
    ensures r.Invoked? && d.numArgs == 2 ==>
      r.args.param.Some? && Some(r.args.param.value) == codec.unmarshal(req.params.value, DestinationType(d.ptype.value))
  {
    RegisteredShape(d);
    if d.numArgs == 1 then
      Invoked(Args(ctx, None), d.f.call(Args(ctx, None)))
    else
      var dt := DestinationType(d.ptype.value);
      if req.params.None? || req.params.value == NullLiteral then InvalidParams
      else match codec.unmarshal(req.params.value, dt)
        case None => InvalidParams
        case Some(v) =>
          if v == codec.zero(dt) then InvalidParams
          else Invoked(Args(ctx, Some(v)), d.f.call(Args(ctx, Some(v))))
  }

  /** A value allocated with reflect.New and filled in place by json.Unmarshal. */
  class Destination<V> {
    var value: V

    constructor (v: V)
      ensures value == v
    {
      value := v;
    }
  }

  /**
   * callMethod as the source runs it: two fresh destinations holding the zero
   * value, decoding into one of them, and comparing it with the other.
   */
  method CallMethod<V(==)>(ctx: Context, req: Request, d: Descriptor<V>, codec: Codec<V>) returns (out: CallOutcome<V>)
    requires Registered(d)
    ensures out == Call(ctx, req, d, codec)
    ensures out.Invoked? ==> out.args.ctx == ctx && out.ret == d.f.call(out.args)
  {
    RegisteredShape(d);
    if d.numArgs == 1 {
      var args := Args(ctx, None);
      return Invoked(args, d.f.call(args));
    }
    var dt := DestinationType(d.ptype.value);
    var pvalue := new Destination(codec.zero(dt));
    var pzero := new Destination(codec.zero(dt));
    if req.params.None? || req.params.value == NullLiteral {
      return InvalidParams;
    }
    var decoded := codec.unmarshal(req.params.value, dt);
    if decoded.None? {
      return InvalidParams;
    }
    pvalue.value := decoded.value;
    if pvalue.value == pzero.value {
      return InvalidParams;
    }
    var args := Args(ctx, Some(pvalue.value));
    out := Invoked(args, d.f.call(args));
  }

  /** encodeMethodReturn's result: the marshalled result, a *Error, or errServerInvalidReturn. */
  datatype EncodeOutcome = Encoded(raw: RawJson) | Structured(err: Error) | InvalidReturn

  /**
   * encodeMethodReturn: a non-nil error wins over the result; a *Error is kept
   * as it is, any other error becomes code -32000 with its text; otherwise the
   * result is marshalled, and a marshal failure is errServerInvalidReturn.
   */
  function EncodeMethodReturn<V>(ret: Ret<V>, marshal: V -> Option<RawJson>): (r: EncodeOutcome)
    ensures r.Encoded? <==> ret.err.NoError? && marshal(ret.result).Some?
    ensures r.Encoded? ==> marshal(ret.result) == Some(r.raw)
    ensures r.InvalidReturn? <==> ret.err.NoError? && marshal(ret.result).None?
    ensures ret.err.RpcError? ==> r == Structured(ret.err.err)
    ensures ret.err.OtherError? ==> r == Structured(Error(ApplicationErrorCode, ret.err.text, None))
  {
    match ret.err
    case RpcError(e) => Structured(e)
    case OtherError(text) => Structured(Error(ApplicationErrorCode, text, None))
    case NoError =>
      match marshal(ret.result)
      case None => InvalidReturn
      case Some(raw) => Encoded(raw)
  }
}
