/**
 * Properties of ServeHTTP's decision logic: which reply each branch gives,
 * in the source's priority order, and how registration and serving meet.
 */
module ServerProperties {
  import opened Wrappers
  import opened Protocol
  import opened Handlers
  import opened Dispatch
  import opened Server

  /** Bytes that are not JSON get ParseError with a null id, and no handler runs. */
  lemma ParseErrorHasNullId<V>(handlers: map<string, Descriptor<V>>, ctx: Context, codec: Codec<V>)
    requires RegistryValid(handlers)
    ensures Serve(handlers, ctx, MalformedJson, codec) == Exchange(Send(ErrResponse(NullLiteral, ErrorParseError)), None)
  {
  }

  /** JSON that is not a request gets InvalidRequest with the id that could be read. */
  lemma InvalidMessageKeepsId<V>(handlers: map<string, Descriptor<V>>, ctx: Context, id: RawJson, codec: Codec<V>)
    requires RegistryValid(handlers)
    ensures Serve(handlers, ctx, InvalidMessage(id), codec) == Exchange(Send(ErrResponse(id, ErrInvalidRequest)), None)
  {
  }

  /**
   * An unregistered method gets MethodNotFound with the request's id, and the
   * lookup comes before the notification check: a notification for an
   * unknown method is answered too.
   */
  lemma UnknownMethodIsNotFound<V>(handlers: map<string, Descriptor<V>>, ctx: Context, req: Request, codec: Codec<V>)
    requires RegistryValid(handlers)
    requires req.methodName !in handlers
    ensures Serve(handlers, ctx, Decoded(req), codec) == Exchange(Send(ErrResponse(req.id, ErrMethodNotFound)), None)
  {
  }

  /**
   * A notification for a registered method gets no JSON reply, whatever the
   * handler returns and whether or not its result can be encoded; invalid
   * params are only logged, and the handler runs exactly when callMethod
   * calls it.
   */
  lemma NotificationIsNeverAnswered<V>(handlers: map<string, Descriptor<V>>, ctx: Context, req: Request, codec: Codec<V>)
    requires RegistryValid(handlers)
    requires req.isNotification && req.methodName in handlers
    ensures var call := Call(ctx, req, handlers[req.methodName], codec);
      Serve(handlers, ctx, Decoded(req), codec) == Exchange(Quiet(call.InvalidParams?), Invocation(call))
  {
  }

  /** Refused params on a call give InvalidParams with the request's id, and the handler is not called. */
  lemma InvalidParamsSkipsHandler<V>(handlers: map<string, Descriptor<V>>, ctx: Context, req: Request, codec: Codec<V>)
    requires RegistryValid(handlers)
    requires !req.isNotification && req.methodName in handlers
    requires Call(ctx, req, handlers[req.methodName], codec).InvalidParams?
    ensures Serve(handlers, ctx, Decoded(req), codec) == Exchange(Send(ErrResponse(req.id, ErrInvalidParams)), None)
  {
  }

  /**
   * A call whose params decode to the zero value of a two-argument handler's
   * parameter type is refused with InvalidParams, like a missing parameter.
   */
  lemma ZeroValueParamsAreInvalid<V>(handlers: map<string, Descriptor<V>>, ctx: Context, req: Request, codec: Codec<V>)
    requires RegistryValid(handlers)
    requires !req.isNotification && req.methodName in handlers
    requires handlers[req.methodName].numArgs == 2 && req.params.Some?
    requires var dt := DestinationType(handlers[req.methodName].ptype.value);
      codec.unmarshal(req.params.value, dt) == Some(codec.zero(dt))
    ensures Serve(handlers, ctx, Decoded(req), codec).reply == Send(ErrResponse(req.id, ErrInvalidParams))
  {
    RegisteredShape(handlers[req.methodName]);
  }

  /**
   * A one-argument handler is always called, with the context alone, whatever
   * the params are: such a request never takes the InvalidParams branch.
   */
  lemma OneArgHandlerIgnoresParams<V>(handlers: map<string, Descriptor<V>>, ctx: Context, req: Request, codec: Codec<V>)
    requires RegistryValid(handlers)
    requires req.methodName in handlers && handlers[req.methodName].numArgs == 1
    ensures !Call(ctx, req, handlers[req.methodName], codec).InvalidParams?
    ensures Serve(handlers, ctx, Decoded(req), codec).invoked == Some(Args(ctx, None))
    ensures forall other: Request :: other.methodName == req.methodName && other.isNotification == req.isNotification ==>
      Serve(handlers, ctx, Decoded(other), codec).invoked == Some(Args(ctx, None))
  {
  }

  /**
   * On a call, a *Error from the handler reaches the client unchanged and any
   * other error is sent as code -32000 with the error's text.
   */
  lemma HandlerErrorsReachClient<V>(handlers: map<string, Descriptor<V>>, ctx: Context, req: Request, codec: Codec<V>)
    requires RegistryValid(handlers)
    requires !req.isNotification && req.methodName in handlers
    requires Call(ctx, req, handlers[req.methodName], codec).Invoked?
    ensures var err := Call(ctx, req, handlers[req.methodName], codec).ret.err;
      && (err.RpcError? ==> Serve(handlers, ctx, Decoded(req), codec).reply == Send(ErrResponse(req.id, err.err)))
      && (err.OtherError? ==>
            Serve(handlers, ctx, Decoded(req), codec).reply == Send(ErrResponse(req.id, Error(-32000, err.text, None))))
  {
  }

  /** A nil error with a result that cannot be marshalled gives InternalError. */
  lemma UnencodableResultIsInternalError<V>(handlers: map<string, Descriptor<V>>, ctx: Context, req: Request, codec: Codec<V>)
    requires RegistryValid(handlers)
    requires !req.isNotification && req.methodName in handlers
    requires var call := Call(ctx, req, handlers[req.methodName], codec);
      call.Invoked? && call.ret.err.NoError? && codec.marshal(call.ret.result).None?
    ensures Serve(handlers, ctx, Decoded(req), codec).reply == Send(ErrResponse(req.id, ErrInternalError))
  {
  }

  /**
   * A nil error with a marshallable result gives a success response that
   * echoes the request's id, has no error, and carries the marshalled result.
   */
  lemma SuccessCarriesResult<V>(handlers: map<string, Descriptor<V>>, ctx: Context, req: Request, codec: Codec<V>)
    requires RegistryValid(handlers)
    requires !req.isNotification && req.methodName in handlers
    requires var call := Call(ctx, req, handlers[req.methodName], codec);
      call.Invoked? && call.ret.err.NoError? && codec.marshal(call.ret.result).Some?
    ensures var call := Call(ctx, req, handlers[req.methodName], codec);
      var reply := Serve(handlers, ctx, Decoded(req), codec).reply;
      && reply.Send? && reply.resp.id == req.id && reply.resp.error == None
      && reply.resp.result == codec.marshal(call.ret.result)
  {
  }

  /**
   * Storing the descriptor of an accepted handler keeps the registry valid,
   * and a later request for that name is dispatched to the new handler: it
   * is called exactly when callMethod on the new descriptor calls it.
   */
  lemma RegisteredMethodIsServed<V>(handlers: map<string, Descriptor<V>>, name: string, h: HandlerValue<V>,
                                    ctx: Context, req: Request, codec: Codec<V>)
    requires RegistryValid(handlers)
    requires InspectHandler(h).Accepted?
    requires req.methodName == name
    ensures RegistryValid(handlers[name := DescriptorFor(h)])
    ensures Serve(handlers[name := DescriptorFor(h)], ctx, Decoded(req), codec).invoked
            == Invocation(Call(ctx, req, DescriptorFor(h), codec))
  {
    var updated := handlers[name := DescriptorFor(h)];
    forall other | other in updated
      ensures Registered(updated[other])
    {
      if other != name {
        assert updated[other] == handlers[other];
      }
    }
  }
}
