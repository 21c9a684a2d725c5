/**
 * The server: the registry of handlers by method name (HandleFunc over
 * Server.handler) and the decision logic of ServeHTTP, which maps the
 * outcome of decoding, lookup, calling and encoding onto a JSON-RPC 2.0
 * response, or onto no response for a notification.
 */
module Server {
  import opened Wrappers
  import opened Protocol
  import opened Handlers
  import opened Dispatch

  /** The error HandleFunc returns: "jsonrpc: " followed by inspectHandler's message. */
  datatype RegistrationError = RegistrationError(reason: Reason)

  /** What ServeHTTP sends back: a JSON response, or nothing (after logging when the params were invalid). */
  datatype Reply = Send(resp: Response) | Quiet(loggedInvalidParams: bool)

  /** One request's effect: the reply, and the arguments the handler was called with, if it was called. */
  datatype Exchange<V> = Exchange(reply: Reply, invoked: Option<Args<V>>)

  /** Every stored descriptor passed the signature check: no partly validated handler is ever stored. */
  ghost predicate RegistryValid<V>(handlers: map<string, Descriptor<V>>) {
    forall name :: name in handlers ==> Registered(handlers[name])
  }

  /** The arguments of a call that reached the handler. */
  function Invocation<V>(c: CallOutcome<V>): Option<Args<V>>
  {
    if c.Invoked? then Some(c.args) else None
  }

  /**
   * ServeHTTP once the method is found and callMethod has run: no reply for
   * a notification (logging when the params were invalid); for a call,
   * invalid params, then an unencodable result, then the handler's error,
   * then success.
   */
  function Respond<V>(req: Request, call: CallOutcome<V>, marshal: V -> Option<RawJson>): (ex: Exchange<V>)
    ensures ex.reply.Send? ==> WellFormed(ex.reply.resp) && ex.reply.resp.id == req.id
    ensures ex.reply.Quiet? <==> req.isNotification
    ensures ex.reply.Quiet? ==> ex.reply.loggedInvalidParams == call.InvalidParams?
    ensures ex.invoked == Invocation(call)
  {
    if req.isNotification then Exchange(Quiet(call.InvalidParams?), Invocation(call))
    else if call.InvalidParams? then Exchange(Send(ErrResponse(req.id, ErrInvalidParams)), None)
    else
      match EncodeMethodReturn(call.ret, marshal)
      case InvalidReturn => Exchange(Send(ErrResponse(req.id, ErrInternalError)), Some(call.args))
      case Structured(e) => Exchange(Send(ErrResponse(req.id, e)), Some(call.args))
      case Encoded(raw) => Exchange(Send(SuccessResponse(req.id, raw)), Some(call.args))
  }

  /**
   * ServeHTTP after the transport checks, as a function of the registry and
   * of what decodeRequestFromReader reported.  The branches are taken in the
   * source's order: parse error, invalid request, unknown method, then the
   * call's outcome as Respond classifies it.
   */
  function Serve<V(==)>(handlers: map<string, Descriptor<V>>, ctx: Context, decoded: DecodeResult, codec: Codec<V>): (ex: Exchange<V>)
    requires RegistryValid(handlers)
    ensures ex.reply.Send? ==> WellFormed(ex.reply.resp)
    ensures decoded.Decoded? && ex.reply.Send? ==> ex.reply.resp.id == decoded.req.id
    ensures ex.reply.Quiet? <==> decoded.Decoded? && decoded.req.methodName in handlers && decoded.req.isNotification
    ensures ex.invoked.Some? ==> decoded.Decoded? && decoded.req.methodName in handlers
    ensures ex.invoked.Some? ==> ex.invoked.value.ctx == ctx
  {
    match decoded
    case MalformedJson => Exchange(Send(ErrResponse(NullLiteral, ErrorParseError)), None)
    case InvalidMessage(id) => Exchange(Send(ErrResponse(id, ErrInvalidRequest)), None)
    case Decoded(req) =>
      if req.methodName !in handlers then Exchange(Send(ErrResponse(req.id, ErrMethodNotFound)), None)
      else Respond(req, Call(ctx, req, handlers[req.methodName], codec), codec.marshal)
  }

  /** Server: the handler registry, keyed by method name. */
  class Server<V(==)> {
    var handlers: map<string, Descriptor<V>>

    ghost predicate Valid()
      reads this
    {
      RegistryValid(handlers)
    }

    /** NewServer: an empty registry. */
    constructor ()
      ensures Valid() && handlers == map[]
    {
      handlers := map[];
    }

    /** handler.Load */
    function Lookup(name: string): (r: Option<Descriptor<V>>)
      reads this
      ensures r.Some? <==> name in handlers
      ensures r.Some? ==> r.value == handlers[name]
      ensures r.Some? && Valid() ==> Registered(r.value)
    {
      if name in handlers then Some(handlers[name]) else None
    }

    /**
     * HandleFunc: check the handler's signature and, only if it passes, store
     * its descriptor under the name, replacing any earlier one.
     */
    method HandleFunc(name: string, handler: HandlerValue<V>) returns (err: Option<RegistrationError>)
      requires Valid()
      modifies this
      ensures Valid()
      ensures InspectHandler(handler).Rejected? ==>
        err == Some(RegistrationError(InspectHandler(handler).reason)) && handlers == old(handlers)
      ensures InspectHandler(handler).Accepted? ==>
        err == None && handlers == old(handlers)[name := DescriptorFor(handler)]
      ensures forall other :: other != name ==> Lookup(other) == old(Lookup(other))
    {
      var inspection := InspectHandler(handler);
      if inspection.Rejected? {
        return Some(RegistrationError(inspection.reason));
      }
      handlers := handlers[name := Descriptor(handler, inspection.ptype, inspection.rtype, inspection.numArgs)];
      err := None;
    }

    /** ServeHTTP from the decoded body on: lookup, callMethod, then the reply that Respond gives. */
    method ServeHTTP(ctx: Context, decoded: DecodeResult, codec: Codec<V>) returns (ex: Exchange<V>)
      requires Valid()
      ensures ex == Serve(handlers, ctx, decoded, codec)
    {
      match decoded
      case MalformedJson =>
        return Exchange(Send(ErrResponse(NullLiteral, ErrorParseError)), None);
      case InvalidMessage(id) =>
        return Exchange(Send(ErrResponse(id, ErrInvalidRequest)), None);
      case Decoded(req) =>
        var found := Lookup(req.methodName);
        if found.None? {
          return Exchange(Send(ErrResponse(req.id, ErrMethodNotFound)), None);
        }
        var call := CallMethod(ctx, req, found.value, codec);
        ex := Respond(req, call, codec.marshal);
    }
  }
}
