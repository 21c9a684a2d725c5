/**
 * The JSON-RPC 2.0 wire values the dispatcher produces and consumes: raw JSON
 * text, the structured error object, the request as decoded and the response.
 * The Go declarations of these (Error, Response, request, errResponse and the
 * predefined error values) sit outside server.go and are rendered here from
 * section 5 of the JSON-RPC 2.0 Specification.
 */
module Protocol {
  import opened Wrappers

  newtype Byte = b: int | 0 <= b < 256

  /** json.RawMessage: undecoded JSON text. */
  type RawJson = seq<Byte>

  /** The JSON literal `null`. */
  const NullLiteral: RawJson := [0x6e, 0x75, 0x6c, 0x6c]

  /** The error object of a response: code, message and optional data. */
  datatype Error = Error(code: int, message: string, data: Option<RawJson>)

  /** The predefined errors of section 5.1 of the JSON-RPC 2.0 Specification. */
  const ErrorParseError: Error := Error(-32700, "Parse error", None)
  const ErrInvalidRequest: Error := Error(-32600, "Invalid Request", None)
  const ErrMethodNotFound: Error := Error(-32601, "Method not found", None)
  const ErrInvalidParams: Error := Error(-32602, "Invalid params", None)
  const ErrInternalError: Error := Error(-32603, "Internal error", None)

  /** The code used for a plain Go error returned by a handler. */
  const ApplicationErrorCode: int := -32000

  /** The codes are the ones section 5.1 of the JSON-RPC 2.0 Specification fixes, and all differ. */
  lemma PredefinedErrorCodes()
    ensures ErrorParseError.code == -32700 && ErrInvalidRequest.code == -32600
    ensures ErrMethodNotFound.code == -32601 && ErrInvalidParams.code == -32602
    ensures ErrInternalError.code == -32603 && ApplicationErrorCode == -32000
  {
  }

  /** A decoded request; isNotification is set when the id member was absent. */
  datatype Request = Request(id: RawJson, methodName: string, params: Option<RawJson>, isNotification: bool)

  /**
   * What decodeRequestFromReader reports: bytes that are not JSON
   * (errInvalidEncodedJSON), JSON that is not a request envelope
   * (errInvalidDecodedMessage, with whatever id could be read), or a request.
   */
  datatype DecodeResult =
    | MalformedJson
    | InvalidMessage(id: RawJson)
    | Decoded(req: Request)

  /** The response record: an id and, in a well-formed response, exactly one of error and result. */
  datatype Response = Response(id: RawJson, error: Option<Error>, result: Option<RawJson>)

  /** Exactly one of error and result is present (section 5 of the JSON-RPC 2.0 Specification). */
  predicate WellFormed(r: Response) {
    r.error.Some? != r.result.Some?
  }

  /** errResponse: an error response carrying the given id. */
  function ErrResponse(id: RawJson, e: Error): (r: Response)
    ensures WellFormed(r) && r.id == id && r.error == Some(e)
  {
    Response(id, Some(e), None)
  }

  /** A success response: error nil, result set. */
  function SuccessResponse(id: RawJson, result: RawJson): (r: Response)
    ensures WellFormed(r) && r.id == id && r.result == Some(result)
  {
    Response(id, None, Some(result))
  }
}
