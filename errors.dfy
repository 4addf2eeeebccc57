/** The JSON-RPC error object every failure is finally turned into, and the
    table of reserved error codes of section 5.1 of the JSON-RPC 2.0
    specification. */
module Errors {
  import opened Wrappers
  import opened QJson

  const PARSE_ERROR: int := -32700
  const INVALID_REQUEST: int := -32600
  const METHOD_NOT_FOUND: int := -32601
  const INVALID_PARAMS: int := -32602
  const INTERNAL_ERROR: int := -32603

  /** The five pre-defined error kinds of section 5.1 of JSON-RPC 2.0. */
  datatype ErrorKind = ParseFailed | InvalidRequestKind | MethodNotFound | InvalidParams | InternalError

  /** The numeric code section 5.1 of JSON-RPC 2.0 assigns to each kind. */
  function Code(k: ErrorKind): (c: int)
    ensures -32768 <= c <= -32000
  {
    match k
    case ParseFailed => PARSE_ERROR
    case InvalidRequestKind => INVALID_REQUEST
    case MethodNotFound => METHOD_NOT_FOUND
    case InvalidParams => INVALID_PARAMS
    case InternalError => INTERNAL_ERROR
  }

  /** The inverse of Code on the five reserved values. */
  function KindOfCode(c: int): (k: Option<ErrorKind>)
    ensures k.Some? ==> Code(k.value) == c
  {
    if c == PARSE_ERROR then Some(ParseFailed)
    else if c == INVALID_REQUEST then Some(InvalidRequestKind)
    else if c == METHOD_NOT_FOUND then Some(MethodNotFound)
    else if c == INVALID_PARAMS then Some(InvalidParams)
    else if c == INTERNAL_ERROR then Some(InternalError)
    else None
  }

  /** Distinct kinds have distinct codes, so a code identifies its kind. */
  lemma CodeIsInjective(k: ErrorKind)
    ensures KindOfCode(Code(k)) == Some(k)
  {
  }

  /** An error object addressed to the request `id` (JNull when the id could
      not be recovered), with code, message and optional diagnostic data. */
  datatype Error = Error(id: Json, code: int, message: string, data: Option<Json>)
}
