# JSON-RPC 2.0 server dispatcher: a Dafny model

This project models the decision logic of `server.go`, a JSON-RPC 2.0 server for Go's
`net/http`, and proves properties of it. The model covers four parts:

- **Handler signature check** (`inspectHandler`, `isExportedOrBuiltinType`). A handler must be a
  func that takes `context.Context` and at most one more parameter. That parameter must be exported
  or builtin. The func must return an exported or builtin result followed by `error`.
- **Handler registry** (`Server.handler`, `HandleFunc`). This is a map from method name to
  descriptor. A descriptor is stored only after its handler passes the check, and a later
  registration under the same name replaces the earlier one. The registry uses the corrected check
  from "## Findings", so registering nil returns an error here where the source panics.
- **Dispatch** (`callMethod`, `encodeMethodReturn`). Parameters are bound into a fresh destination
  and can be refused. The handler is called. Its `(result, err)` becomes a result, a structured error
  or an internal failure.
- **Response assembly** (`ServeHTTP` from line 112 on). Protocol-level outcomes map onto the error
  codes of section 5.1 of the JSON-RPC 2.0 Specification; a handler's `*Error` keeps its own code.
  Notifications to a registered method get no reply.

Layout, one module per file:

- `go_types.dfy` (`GoTypes`): Go type descriptors. `isExportedOrBuiltinType` is kept as the
  pointer-stripping loop it is in the source.
- `protocol.dfy` (`Protocol`): raw JSON, the error object, the predefined errors, the request and
  the response.
- `handlers.dfy` (`Handlers`): handler values, `inspectHandler` and the descriptor.
- `dispatch.dfy` (`Dispatch`): `callMethod` in two forms. One is a specification function. The
  other is a method that allocates and fills destinations, as the source does. This file also holds
  `encodeMethodReturn`.
- `server.dfy` (`Server`): the `Server` class with its registry, plus `ServeHTTP` as a function and
  as a method.
- `server_properties.dfy` (`ServerProperties`): one lemma per `ServeHTTP` branch, and lemmas that
  link registration to serving.
- `wrappers.dfy` (`Wrappers`): `Option`.

Some things `server.go` uses are not part of this model: `encoding/json`, `reflect`'s allocation
and call machinery, and the handler bodies. JSON decoding into a fresh zero value, the zero value
itself and JSON encoding are the three functions of a `Codec`, passed in as parameters. A handler
value carries its type and a function that says what calling it returns. The value universe is a
type parameter `V` with equality. Some declarations live in files that are not part of this model:
`decodeRequestFromReader`, `Error`, `Response`, `request`, `errResponse` and the predefined error
values. They are modelled as follows:

- Decoding is an input of type `DecodeResult`: malformed JSON, an invalid message with the id that
  could be read, or a request.
- `errResponse(id, e)` is a response with that id, error `e` and no result.
- The predefined errors carry the codes and messages of section 5.1 of the JSON-RPC 2.0
  Specification.

Two behaviours of the code are worth noting:

- The method lookup (server.go:124-128) runs before the notification check (server.go:131). So a
  notification for an unregistered method is answered with MethodNotFound. Section 4.1 of the
  JSON-RPC 2.0 Specification says a server must not reply to a notification.
  `ServerProperties.UnknownMethodIsNotFound` states the code's behaviour.
- On a notification only invalid params are logged (server.go:133-135). Any other outcome writes an
  empty HTTP 200 body and logs nothing. The handler's return is not encoded at all.
  `Reply.Quiet(loggedInvalidParams)` records which of the two happened.

## Model

| member | source | states |
|---|---|---|
| GoTypes.IsExportedOrBuiltinType | server.go:230-237 | the loop strips every pointer layer; the verdict is "name exported or package path empty" for the type under all pointers |
| GoTypes.StripPointers | server.go:231-233 | the type left when the loop ends is not a pointer, and the original is exactly PointerDepth(t) pointers around it |
| GoTypes.PointerLayersKeepVerdict | server.go:230-237 | any number of pointer layers around T gives the same verdict as T |
| Handlers.InspectType | server.go:56-95 | a type is accepted iff it is a func with 1 or 2 inputs, context.Context first, an exported/builtin second input if any, exactly 2 outputs, an exported/builtin first output and exactly error second; on acceptance numArgs = NumIn, ptype = In(1) for two inputs and unset for one, rtype = Out(0); every rejection reason is true of the type |
| Handlers.InspectHandler | server.go:54-96 | corrected check: accepts exactly the handler values whose type passes the rules; a nil handler is rejected with "expected func, got invalid"; it matches the as-written check on every non-nil value |
| Handlers.InspectHandlerAsWritten | server.go:54-59 | as written, the check panics exactly on a nil handler, because the type is read before the kind |
| Handlers.NilHandlerPanics | server.go:55-59 | registering nil panics as written, while the corrected check rejects it with an error |
| Handlers.KindOfValue | server.go:56 | the reflected kind is Invalid exactly for the nil handler |
| Handlers.DescriptorFor | server.go:50 | the stored descriptor holds the handler and exactly the numArgs, ptype and rtype that the check returned |
| Handlers.RegisteredShape | server.go:61-85 | a stored descriptor has 1 or 2 args, has a ptype iff it has 2 args, that ptype is In(1) and exported/builtin, and rtype is Out(0) |
| Dispatch.DestinationType | server.go:186-193 | the decode destination drops at most one pointer layer (the element of a pointer parameter type, else the type itself), so it strips to the same type and keeps the exported-or-builtin verdict the parameter passed at registration |
| Dispatch.Call | server.go:177-210 | a 1-arg handler is called with the context alone; a 2-arg handler yields invalid params, without being called, iff params are absent, the literal null, undecodable, or decode to the zero value; otherwise it is called with the context and the decoded value |
| Dispatch.CallMethod | server.go:177-210 | the imperative callMethod, with fresh zero destinations, decoding into one and comparing it with the other, gives Call's outcome; the handler gets the request's context |
| Dispatch.EncodeMethodReturn | server.go:212-228 | a *Error passes through unchanged; any other error becomes code -32000 with its text; with a nil error the outcome is the marshalled result when marshalling succeeds and errServerInvalidReturn when it fails |
| Server.Respond | server.go:131-162 | for a found method: no reply exactly for a notification, logging exactly when the params were invalid; otherwise a well-formed response echoing the request's id; the handler was called exactly when callMethod called it |
| Server.Serve | server.go:112-162 | every response has exactly one of error and result; a response to a decoded request echoes its id; there is no reply exactly for a notification to a registered method; the handler runs only for a decoded request to a registered method, and gets the request's context |
| Server.Server.constructor | server.go:38-41 | a new server has an empty, valid registry |
| Server.Server.Lookup | server.go:124-130 | the lookup finds a descriptor iff the name is registered; in a valid registry that descriptor passed the signature check |
| Server.Server.HandleFunc | server.go:44-52 | uses the corrected check of the nil-handler finding, so nil is rejected with an error where the source panics; a rejected handler gives an error and leaves the registry unchanged; an accepted one sets exactly registry[name], replacing any earlier entry; every other name looks up as before; the registry stays valid |
| Server.Server.ServeHTTP | server.go:112-162 | the method, which does the lookup, runs CallMethod and builds its reply with Respond, gives exactly Serve's exchange |
| ServerProperties.ParseErrorHasNullId | server.go:115-118 | malformed JSON gets ParseError with id null, and no handler runs |
| ServerProperties.InvalidMessageKeepsId | server.go:119-122 | an invalid message gets InvalidRequest with the id that could be read |
| ServerProperties.UnknownMethodIsNotFound | server.go:124-128 | an unregistered method gets MethodNotFound with the request's id, notifications included |
| ServerProperties.NotificationIsNeverAnswered | server.go:131-140 | a notification to a registered method gets no JSON reply whatever the call outcome; invalid params are only logged |
| ServerProperties.InvalidParamsSkipsHandler | server.go:142-146 | refused params on a call give InvalidParams with the request's id, and the handler is not called |
| ServerProperties.ZeroValueParamsAreInvalid | server.go:197-202 | params that decode to the zero value of the destination type (the element of a pointer parameter) give an InvalidParams response |
| ServerProperties.OneArgHandlerIgnoresParams | server.go:179-182 | a 1-arg handler is always called with the context alone, whatever the params |
| ServerProperties.HandlerErrorsReachClient | server.go:153-156 | on a call, a handler's *Error is sent unchanged and any other error is sent as code -32000 with its text |
| ServerProperties.UnencodableResultIsInternalError | server.go:148-152 | a nil error with an unmarshallable result gives InternalError |
| ServerProperties.SuccessCarriesResult | server.go:158-162 | a nil error with a marshallable result gives a response that echoes the id, has no error, and carries the marshalled result |
| ServerProperties.RegisteredMethodIsServed | server.go:44-52 | storing an accepted handler keeps the registry valid, and a request for that name is dispatched to the new handler |

## Left out

- HTTP plumbing is left out because it is I/O: the CORS header loop, the non-POST 404 reply, `WriteHeader`/`Write`, `sendResponse` and `log.Print` (server.go:99-110, 137-138, 165-175). The model has `Reply.Send` for a response and `Reply.Quiet` for no response.
- `Cors` is left out because it only feeds the header loop.
- `reflect.New`, `Value.Call` and the pointer-versus-value argument passing (server.go:186-193, 204-208) are left out. The model collapses them into "a fresh destination holding the zero value is filled and passed".
- JSON decoding and encoding are left out: json.Unmarshal, json.Marshal and the comparison with the zero value are the functions of `Codec`.
- The handler bodies are left out. A handler is modelled as a function from its arguments to `(result, err)`, so blocking, side effects and non-determinism in a handler are not modelled.
- The panic that `==` raises at server.go:200 for non-comparable parameter types (slices, maps) is left out. The zero test is equality on the abstract value type.
- `sync.Map` concurrency is left out. The registry is a sequential map.
- GoTypes.IsExported: accepts only ASCII upper-case letters, while `go/token.IsExported` accepts any Unicode upper-case letter.
- Defined pointer types (`type P *T`) are not represented. A pointer type has no name here.
- GoTypes.IsExportedOrBuiltinType: always terminates, because a type here is a finite term. In Go a defined pointer type can point to itself (`type P *P`, or `type A *B; type B *A`), and for such a type the loop at server.go:231-233 never ends. Registering `func(context.Context, P) (int, error)` would then hang HandleFunc. This is a reading of the source and was not executed.
- Server.Server.HandleFunc: registering a nil handler returns an error in the model, because the registry uses the corrected check `Handlers.InspectHandler`. The source panics there (see "## Findings"; the as-written behaviour is `Handlers.InspectHandlerAsWritten`).
- Handler panics are not modelled: every accepted handler returns `(result, err)`. In Go a handler may panic, and net/http then recovers and sends no JSON-RPC response. One such handler passes the signature check: a typed nil func value like `(func(context.Context) (int, error))(nil)`, which has kind Func and a valid type. Calling it at server.go:180, 205 or 207 panics, where the model says the handler runs and `Serve` replies.
- Handlers.Reason: records what each error message reports (a kind, a count or a type), not the formatted text. The "jsonrpc: " prefix that HandleFunc adds is the `RegistrationError` wrapper.
- A handler that returns a typed nil `*Error` as its `error` is not represented. `ErrValue` has no such case.
- Variadic handlers are not represented because func types carry only their parameter list.
- ServeHTTP when `decodeRequestFromReader` reports an error other than its two named ones is not modelled, because that function is not part of this model.

## Findings

| source | as written | input that shows it | evidently intended | confidence | as-written member | corrected member |
|---|---|---|---|---|---|---|
| server.go:55-59 | `h.Type()` runs before the kind check, and `reflect.Value.Type` panics on the zero Value | `HandleFunc("m", nil)`: the handler value is the zero Value, so registration panics | the kind check rejects the value with the "invalid handler type: expected func, got invalid" error, and HandleFunc returns that error | medium, not executed | Handlers.InspectHandlerAsWritten | Handlers.InspectHandler |
